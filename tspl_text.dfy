/**
 * The text handling of the TSPL parser (frontend/src/TSPLConverter.jsx): the program
 * cut into trimmed non-blank lines, a line cut into tokens at runs of white space and
 * commas, and the quoted payload of a line.
 */
module TsplText {
  import opened JsString

  // ---------------------------------------------------------------------------
  // Lines
  // ---------------------------------------------------------------------------

  /** `s.split("\n")`: the pieces between newline characters, empty pieces included. */
  function SplitLines(s: string): (r: seq<string>)
    ensures |r| >= 1
    ensures forall i :: 0 <= i < |r| ==> '\n' !in r[i]
    decreases |s|
  {
    if s == [] then [[]]
    else
      var rest := SplitLines(s[1..]);
      if s[0] == '\n' then [[]] + rest
      else [[s[0]] + rest[0]] + rest[1..]
  }

  predicate NoNewlines(ls: seq<string>) {
    forall i :: 0 <= i < |ls| ==> '\n' !in ls[i]
  }

  lemma {:induction false} NoNewlinesConcat(a: seq<string>, b: seq<string>)
    requires NoNewlines(a) && NoNewlines(b)
    ensures NoNewlines(a + b)
  {
    forall i | 0 <= i < |a + b|
      ensures '\n' !in (a + b)[i]
    {
      if i >= |a| {
        assert (a + b)[i] == b[i - |a|];
      }
    }
  }

  /** `ls.join("\n")`. */
  function JoinLines(ls: seq<string>): string
    requires |ls| >= 1
  {
    if |ls| == 1 then ls[0] else ls[0] + "\n" + JoinLines(ls[1..])
  }

  /** Text without a newline extends the first piece of whatever follows it. */
  lemma {:induction false} SplitLinesPrefix(u: string, t: string)
    requires '\n' !in u
    ensures SplitLines(u + t) == [u + SplitLines(t)[0]] + SplitLines(t)[1..]
    decreases |u|
  {
    if u != [] {
      assert (u + t)[1..] == u[1..] + t;
      SplitLinesPrefix(u[1..], t);
      assert [u[0]] + (u[1..] + SplitLines(t)[0]) == u + SplitLines(t)[0];
    } else {
      assert u + t == t;
      var st := SplitLines(t);
      assert u + st[0] == st[0];
      assert st == [st[0]] + st[1..];
    }
  }

  /** Splitting undoes joining, for pieces without a newline. */
  lemma {:induction false} SplitJoinLines(ls: seq<string>)
    requires |ls| >= 1 && NoNewlines(ls)
    ensures SplitLines(JoinLines(ls)) == ls
    decreases |ls|
  {
    if |ls| == 1 {
      SplitLinesPrefix(ls[0], []);
      assert ls[0] + [] == ls[0];
    } else {
      var t := JoinLines(ls[1..]);
      SplitJoinLines(ls[1..]);
      assert ("\n" + t)[1..] == t;
      assert SplitLines("\n" + t) == [[]] + ls[1..];
      assert ls[0] + "\n" + t == ls[0] + ("\n" + t);
      SplitLinesPrefix(ls[0], "\n" + t);
      assert ls[0] + [] == ls[0];
    }
  }

  /** Joining undoes splitting. */
  lemma {:induction false} JoinSplitLines(s: string)
    ensures JoinLines(SplitLines(s)) == s
    decreases |s|
  {
    if s != [] {
      var rest := SplitLines(s[1..]);
      JoinSplitLines(s[1..]);
      if s[0] == '\n' {
        assert s == "\n" + s[1..];
      } else if |rest| == 1 {
        assert s == [s[0]] + s[1..];
      } else {
        assert JoinLines(rest) == rest[0] + "\n" + JoinLines(rest[1..]);
        assert s == [s[0]] + s[1..];
      }
    }
  }

  /** Trim every piece and keep the non-empty results, in order. */
  function KeepTrimmed(pieces: seq<string>): (r: seq<string>)
    ensures |r| <= |pieces|
    ensures forall i :: 0 <= i < |r| ==> r[i] != [] && IsTrimmed(r[i])
  {
    if pieces == [] then []
    else
      var t := Trim(pieces[0]);
      (if t == [] then [] else [t]) + KeepTrimmed(pieces[1..])
  }

  /** The lines the parser visits: split on newlines, trimmed, blank lines dropped. */
  function Lines(code: string): seq<string> {
    KeepTrimmed(SplitLines(code))
  }

  lemma {:induction false} KeepTrimmedAppend(a: seq<string>, b: seq<string>)
    ensures KeepTrimmed(a + b) == KeepTrimmed(a) + KeepTrimmed(b)
    decreases |a|
  {
    if a != [] {
      var t := Trim(a[0]);
      var h: seq<string> := if t == [] then [] else [t];
      assert KeepTrimmed(a + b) == h + KeepTrimmed(a[1..] + b) by {
        assert (a + b)[1..] == a[1..] + b;
      }
      KeepTrimmedAppend(a[1..], b);
      assert h + (KeepTrimmed(a[1..]) + KeepTrimmed(b)) == (h + KeepTrimmed(a[1..])) + KeepTrimmed(b);
    } else {
      assert a + b == b;
    }
  }

  /** Lines that are already trimmed and non-blank are kept as they are. */
  lemma {:induction false} KeepTrimmedKeeps(ls: seq<string>)
    requires forall i :: 0 <= i < |ls| ==> ls[i] != [] && IsTrimmed(ls[i])
    ensures KeepTrimmed(ls) == ls
    decreases |ls|
  {
    if ls != [] {
      TrimFixedPoint(ls[0]);
      KeepTrimmedKeeps(ls[1..]);
    }
  }

  /** A program written one non-blank trimmed line per row parses into exactly those lines. */
  lemma {:induction false} LinesOfJoin(ls: seq<string>)
    requires |ls| >= 1
    requires forall i :: 0 <= i < |ls| ==> ls[i] != [] && IsTrimmed(ls[i]) && '\n' !in ls[i]
    ensures Lines(JoinLines(ls)) == ls
  {
    SplitJoinLines(ls);
    KeepTrimmedKeeps(ls);
  }

  /** A blank or white-space-only row between two parts of a program changes no line. */
  lemma {:induction false} BlankLineIgnored(a: seq<string>, blank: string, b: seq<string>)
    requires |a| >= 1 && |b| >= 1 && NoNewlines(a) && NoNewlines(b)
    requires '\n' !in blank && Trim(blank) == []
    ensures Lines(JoinLines(a + [blank] + b)) == Lines(JoinLines(a + b))
  {
    NoNewlinesConcat(a, [blank]);
    NoNewlinesConcat(a + [blank], b);
    NoNewlinesConcat(a, b);
    SplitJoinLines(a + [blank] + b);
    SplitJoinLines(a + b);
    KeepTrimmedAppend(a + [blank], b);
    KeepTrimmedAppend(a, [blank]);
    KeepTrimmedAppend(a, b);
    assert KeepTrimmed([blank]) == [];
    assert KeepTrimmed(a + [blank]) == KeepTrimmed(a);
  }

  // ---------------------------------------------------------------------------
  // Tokens
  // ---------------------------------------------------------------------------

  /** What the character class [\s,] matches. */
  predicate IsSeparator(c: char) {
    IsSpace(c) || c == ','
  }

  predicate NoSeparator(s: string) {
    forall i :: 0 <= i < |s| ==> !IsSeparator(s[i])
  }

  /** Length of the longest prefix without a separator. */
  function FieldLen(s: string): (n: nat)
    ensures n <= |s| && forall k :: 0 <= k < n ==> !IsSeparator(s[k])
    ensures n < |s| ==> IsSeparator(s[n])
  {
    if s == [] || IsSeparator(s[0]) then 0 else 1 + FieldLen(s[1..])
  }

  /** Length of the longest prefix made of separators. */
  function SepLen(s: string): (n: nat)
    ensures n <= |s|
    ensures n < |s| ==> !IsSeparator(s[n])
    ensures s != [] && IsSeparator(s[0]) ==> n >= 1
  {
    if s == [] || !IsSeparator(s[0]) then 0 else 1 + SepLen(s[1..])
  }

  /**
   * `s.split(/[\s,]+/)`: the fields between maximal runs of separators. A separator at
   * the very start or end yields an empty first or last field.
   */
  function Tokens(s: string): (r: seq<string>)
    ensures |r| >= 1
    decreases |s|, 1
  {
    if FieldLen(s) == |s| then [s]
    else
      [s[..FieldLen(s)]] + TokensAfter(s[FieldLen(s)..])
  }

  /** The tokens after a run of separators that starts `t`. */
  function TokensAfter(t: string): (r: seq<string>)
    requires t != [] && IsSeparator(t[0])
    ensures |r| >= 1
    decreases |t|, 0
  {
    Tokens(t[SepLen(t)..])
  }

  /** A string without separators is one token. */
  lemma {:induction false} TokensOfField(t: string)
    requires NoSeparator(t)
    ensures Tokens(t) == [t]
  {
    assert FieldLen(t) == |t|;
  }

  /** A separator-free prefix glues onto the first token of what follows. */
  lemma {:induction false} FieldLenPrefix(k: string, r: string)
    requires NoSeparator(k)
    ensures FieldLen(k + r) == |k| + FieldLen(r)
    decreases |k|
  {
    if k != [] {
      assert (k + r)[1..] == k[1..] + r;
      FieldLenPrefix(k[1..], r);
    } else {
      assert k + r == r;
    }
  }

  lemma {:induction false} TokensPrefix(k: string, r: string)
    requires NoSeparator(k)
    ensures Tokens(k + r)[0] == k + Tokens(r)[0]
    ensures Tokens(k + r)[1..] == Tokens(r)[1..]
  {
    FieldLenPrefix(k, r);
    if FieldLen(r) == |r| {
      TokensPrefixWhole(k, r);
    } else {
      TokensPrefixCut(k, r);
    }
  }

  lemma {:induction false} TokensPrefixWhole(k: string, r: string)
    requires FieldLen(r) == |r| && FieldLen(k + r) == |k| + |r|
    ensures Tokens(k + r) == [k + r] && Tokens(r) == [r]
  {
  }

  lemma {:induction false} TokensPrefixCut(k: string, r: string)
    requires FieldLen(r) < |r| && FieldLen(k + r) == |k| + FieldLen(r)
    ensures Tokens(k + r) == [k + Tokens(r)[0]] + Tokens(r)[1..]
  {
    var f := FieldLen(r);
    ConcatSlices(k, r, f);
    assert Tokens(r) == [r[..f]] + TokensAfter(r[f..]);
  }

  lemma {:induction false} ConcatSlices<T>(a: seq<T>, b: seq<T>, n: nat)
    requires n <= |b|
    ensures (a + b)[..|a| + n] == a + b[..n] && (a + b)[|a| + n..] == b[n..]
  {
  }

  /** A non-empty token, one separator, then a token start: the first token comes off. */
  lemma {:induction false} TokensCons(t: string, c: char, r: string)
    requires t != [] && NoSeparator(t) && IsSeparator(c)
    requires r == [] || !IsSeparator(r[0])
    ensures Tokens(t + [c] + r) == [t] + Tokens(r)
  {
    var s := t + [c] + r;
    var rest := [c] + r;
    assert FieldLen(rest) == 0;
    FieldLenPrefix(t, rest);
    assert s == t + rest;
    assert s[..|t|] == t;
    assert s[|t|..] == rest;
    assert SepLen(rest) == 1 by {
      assert rest[1..] == r;
    }
    assert rest[1..] == r;
  }

  /** A run of separators in front of a token start is one separator run. */
  lemma {:induction false} SepLenOfRun(sep: string, r: string)
    requires forall i :: 0 <= i < |sep| ==> IsSeparator(sep[i])
    requires r == [] || !IsSeparator(r[0])
    ensures SepLen(sep + r) == |sep|
    decreases |sep|
  {
    if sep == [] {
      assert sep + r == r;
    } else {
      assert (sep + r)[1..] == sep[1..] + r;
      SepLenOfRun(sep[1..], r);
    }
  }

  /** A non-empty token, a run of separators, then a token start: the first token comes off. */
  lemma {:induction false} TokensSep(t: string, sep: string, r: string)
    requires t != [] && NoSeparator(t)
    requires sep != [] && forall i :: 0 <= i < |sep| ==> IsSeparator(sep[i])
    requires r == [] || !IsSeparator(r[0])
    ensures Tokens(t + sep + r) == [t] + Tokens(r)
  {
    var s := t + sep + r;
    var rest := sep + r;
    assert FieldLen(rest) == 0;
    FieldLenPrefix(t, rest);
    assert s == t + rest;
    assert s[..|t|] == t;
    assert s[|t|..] == rest;
    SepLenOfRun(sep, r);
    assert rest[|sep|..] == r;
  }

  /** `fields` joined by commas, followed by a comma and `tail` when there are fields. */
  function JoinFields(fields: seq<string>, tail: string): string {
    if fields == [] then tail else fields[0] + "," + JoinFields(fields[1..], tail)
  }

  lemma {:induction false} JoinFieldsStart(fields: seq<string>, tail: string)
    requires fields != [] && fields[0] != []
    ensures JoinFields(fields, tail)[0] == fields[0][0]
  {
  }

  lemma {:induction false} TokensOfJoinFieldsHead(fields: seq<string>, tail: string)
    requires fields != [] && fields[0] != [] && NoSeparator(fields[0])
    requires |fields| >= 2 ==> fields[1] != [] && NoSeparator(fields[1])
    requires tail == [] || !IsSeparator(tail[0])
    ensures Tokens(JoinFields(fields, tail)) == [fields[0]] + Tokens(JoinFields(fields[1..], tail))
  {
    var rest := JoinFields(fields[1..], tail);
    if fields[1..] != [] {
      JoinFieldsStart(fields[1..], tail);
      assert fields[1..][0] == fields[1];
    }
    TokensCons(fields[0], ',', rest);
    assert JoinFields(fields, tail) == fields[0] + [','] + rest;
  }

  /** Comma-joined non-empty fields come back as the tokens, in order. */
  lemma {:induction false} TokensOfJoinFields(fields: seq<string>, tail: string)
    requires forall i :: 0 <= i < |fields| ==> fields[i] != [] && NoSeparator(fields[i])
    requires tail == [] || !IsSeparator(tail[0])
    ensures Tokens(JoinFields(fields, tail)) == fields + Tokens(tail)
    decreases |fields|
  {
    if fields != [] {
      var rest := JoinFields(fields[1..], tail);
      assert Tokens(rest) == fields[1..] + Tokens(tail) by {
        TokensOfJoinFields(fields[1..], tail);
      }
      assert Tokens(JoinFields(fields, tail)) == [fields[0]] + Tokens(rest) by {
        TokensOfJoinFieldsHead(fields, tail);
      }
      assert [fields[0]] + (fields[1..] + Tokens(tail)) == fields + Tokens(tail) by {
        assert fields == [fields[0]] + fields[1..];
      }
    }
  }

  lemma {:induction false} JoinFieldsTail(fields: seq<string>, tail: string)
    ensures JoinFields(fields, tail) == JoinFields(fields, "") + tail
    decreases |fields|
  {
    if fields != [] {
      JoinFieldsTail(fields[1..], tail);
    } else {
      assert "" + tail == tail;
    }
  }

  // ---------------------------------------------------------------------------
  // Quoted runs
  // ---------------------------------------------------------------------------

  predicate NoQuote(s: string) {
    forall i :: 0 <= i < |s| ==> s[i] != '"'
  }

  /** Index of the first double quote, or the length when there is none. */
  function QuoteAt(s: string): (n: nat)
    ensures n <= |s|
    ensures n < |s| ==> s[n] == '"'
  {
    if s == [] || s[0] == '"' then 0 else 1 + QuoteAt(s[1..])
  }

  /** No quote comes before the first one. */
  lemma {:induction false} QuoteAtFirst(s: string)
    ensures NoQuote(s[..QuoteAt(s)])
    decreases |s|
  {
    if s != [] && s[0] != '"' {
      QuoteAtFirst(s[1..]);
      assert s[..QuoteAt(s)] == [s[0]] + s[1..][..QuoteAt(s[1..])];
    }
  }

  /**
   * The matches of /"([^"]*)"/g without their quotes: the quotes pair up from the left,
   * and a last quote without a partner starts no match.
   */
  function QuotedRuns(s: string): seq<string>
    decreases |s|
  {
    if QuoteAt(s) == |s| then [] else RunsFrom(s[QuoteAt(s) + 1..])
  }

  /** The runs from just after an opening quote: the text up to the closing one first. */
  function RunsFrom(t: string): seq<string>
    decreases |t|
  {
    if QuoteAt(t) == |t| then [] else [t[..QuoteAt(t)]] + QuotedRuns(t[QuoteAt(t) + 1..])
  }

  /** Every quote in `s` has a partner, pairing from the left. */
  predicate Paired(s: string)
    decreases |s|
  {
    QuoteAt(s) == |s| || Closed(s[QuoteAt(s) + 1..])
  }

  /** Text just after an opening quote has its closing quote, and is paired after it. */
  predicate Closed(t: string)
    decreases |t|
  {
    QuoteAt(t) < |t| && Paired(t[QuoteAt(t) + 1..])
  }

  /**
   * `line.match(/"([^"]*)"/g)?.pop()?.replace(/"/g, "") || ""`: the contents of the
   * last quoted run, or the empty string when there is none.
   */
  function Payload(line: string): string {
    var runs := QuotedRuns(line);
    if runs == [] then "" else runs[|runs| - 1]
  }

  /** No run holds a quote. */
  lemma {:induction false} QuotedRunsNoQuote(s: string)
    ensures forall i :: 0 <= i < |QuotedRuns(s)| ==> NoQuote(QuotedRuns(s)[i])
    decreases |s|
  {
    if QuoteAt(s) < |s| {
      RunsFromNoQuote(s[QuoteAt(s) + 1..]);
    }
  }

  lemma {:induction false} RunsFromNoQuote(t: string)
    ensures forall i :: 0 <= i < |RunsFrom(t)| ==> NoQuote(RunsFrom(t)[i])
    decreases |t|
  {
    var q := QuoteAt(t);
    if q < |t| {
      var rest := QuotedRuns(t[q + 1..]);
      QuotedRunsNoQuote(t[q + 1..]);
      QuoteAtFirst(t);
      forall i | 0 <= i < |RunsFrom(t)|
        ensures NoQuote(RunsFrom(t)[i])
      {
        if i > 0 {
          assert RunsFrom(t)[i] == rest[i - 1];
        }
      }
    }
  }

  /** The payload never holds a double quote. */
  lemma {:induction false} PayloadNoQuote(line: string)
    ensures NoQuote(Payload(line))
  {
    QuotedRunsNoQuote(line);
  }

  /** A quote-free prefix is skipped when looking for a quote. */
  lemma {:induction false} QuoteAtAppend(a: string, b: string)
    ensures QuoteAt(a + b) == if QuoteAt(a) < |a| then QuoteAt(a) else |a| + QuoteAt(b)
    decreases |a|
  {
    if a != [] {
      assert (a + b)[1..] == a[1..] + b;
      QuoteAtAppend(a[1..], b);
    } else {
      assert a + b == b;
    }
  }

  lemma {:induction false} QuoteAtSkip(a: string, b: string)
    requires QuoteAt(a) == |a|
    ensures QuoteAt(a + b) == |a| + QuoteAt(b)
  {
    QuoteAtAppend(a, b);
  }

  /** A quote-free prefix does not change the runs. */
  lemma {:induction false} QuotedRunsSkip(a: string, b: string)
    requires QuoteAt(a) == |a|
    ensures QuotedRuns(a + b) == QuotedRuns(b)
  {
    QuoteAtSkip(a, b);
    if QuoteAt(b) < |b| {
      AfterQuoteSkip(a, b);
      RunsSame(a + b, b);
    }
  }

  /** Two texts that agree after their first quotes have the same runs. */
  lemma RunsSame(c: string, b: string)
    requires QuoteAt(c) < |c| && QuoteAt(b) < |b|
    requires c[QuoteAt(c) + 1..] == b[QuoteAt(b) + 1..]
    ensures QuotedRuns(c) == QuotedRuns(b)
  {
  }

  /** A quote-free prefix does not change the pairing. */
  lemma {:induction false} PairedSkip(a: string, b: string)
    requires QuoteAt(a) == |a|
    ensures Paired(a + b) <==> Paired(b)
  {
    QuoteAtSkip(a, b);
    if QuoteAt(b) < |b| {
      AfterQuoteSkip(a, b);
      PairedSame(a + b, b);
    }
  }

  /** Two texts that agree after their first quotes agree on pairing. */
  lemma PairedSame(c: string, b: string)
    requires QuoteAt(c) < |c| && QuoteAt(b) < |b|
    requires c[QuoteAt(c) + 1..] == b[QuoteAt(b) + 1..]
    ensures Paired(c) == Paired(b)
  {
  }

  /** Past a quote-free prefix, the text after the first quote is the same. */
  lemma AfterQuoteSkip(a: string, b: string)
    requires QuoteAt(a) == |a| && QuoteAt(b) < |b|
    requires QuoteAt(a + b) == |a| + QuoteAt(b)
    ensures (a + b)[QuoteAt(a + b) + 1..] == b[QuoteAt(b) + 1..]
  {
    ConcatSlices(a, b, QuoteAt(b) + 1);
  }

  /** Text whose quotes all pair up contributes its own runs, and the runs of what follows. */
  lemma {:induction false} QuotedRunsAppend(a: string, b: string)
    requires Paired(a)
    ensures QuotedRuns(a + b) == QuotedRuns(a) + QuotedRuns(b)
    decreases |a|
  {
    var i := QuoteAt(a);
    if i == |a| {
      QuotedRunsSkip(a, b);
    } else {
      QuoteAtAppend(a, b);
      assert (a + b)[i + 1..] == a[i + 1..] + b;
      RunsFromAppend(a[i + 1..], b);
    }
  }

  lemma {:induction false} RunsFromAppend(t: string, b: string)
    requires Closed(t)
    ensures RunsFrom(t + b) == RunsFrom(t) + QuotedRuns(b)
    decreases |t|
  {
    var j := QuoteAt(t);
    QuoteAtAppend(t, b);
    assert (t + b)[..j] == t[..j];
    assert (t + b)[j + 1..] == t[j + 1..] + b;
    QuotedRunsAppend(t[j + 1..], b);
  }

  /** After paired text, the pairing is that of what follows. */
  lemma {:induction false} PairedAppend(a: string, b: string)
    requires Paired(a)
    ensures Paired(a + b) <==> Paired(b)
    decreases |a|
  {
    var i := QuoteAt(a);
    if i == |a| {
      PairedSkip(a, b);
    } else {
      QuoteAtAppend(a, b);
      assert (a + b)[i + 1..] == a[i + 1..] + b;
      ClosedAppend(a[i + 1..], b);
    }
  }

  lemma {:induction false} ClosedAppend(t: string, b: string)
    requires Closed(t)
    ensures Closed(t + b) <==> Paired(b)
    decreases |t|
  {
    var j := QuoteAt(t);
    QuoteAtAppend(t, b);
    assert (t + b)[j + 1..] == t[j + 1..] + b;
    PairedAppend(t[j + 1..], b);
  }

  /** Quote-free text has no runs and is trivially paired. */
  lemma {:induction false} QuoteFree(u: string)
    requires NoQuote(u)
    ensures QuoteAt(u) == |u| && Paired(u) && QuotedRuns(u) == []
  {
    QuoteAtOfNoQuote(u);
  }

  lemma {:induction false} QuoteAtOfNoQuote(u: string)
    requires NoQuote(u)
    ensures QuoteAt(u) == |u|
    decreases |u|
  {
    if u != [] {
      QuoteAtOfNoQuote(u[1..]);
    }
  }

  /** `"` + v + `"` with a quote-free v is one run. */
  lemma {:induction false} QuotedOneRun(v: string)
    requires NoQuote(v)
    ensures QuotedRuns("\"" + v + "\"") == [v]
  {
    var s := "\"" + v + "\"";
    var after := s[1..];
    assert QuoteAt(s) == 0;
    assert after == v + "\"";
    QuoteFree(v);
    QuoteAtAppend(v, "\"");
    assert after[..|v|] == v;
    assert after[|v| + 1..] == [];
    assert QuotedRuns([]) == [];
    assert RunsFrom(after) == [v];
  }

  lemma {:induction false} QuotedOnePaired(v: string)
    requires NoQuote(v)
    ensures Paired("\"" + v + "\"")
  {
    var s := "\"" + v + "\"";
    var after := s[1..];
    assert QuoteAt(s) == 0;
    assert after == v + "\"";
    QuoteFree(v);
    QuoteAtAppend(v, "\"");
    assert after[|v| + 1..] == [];
  }

  /** Paired texts stay paired when concatenated. */
  lemma {:induction false} PairedConcat(a: string, b: string)
    requires Paired(a) && Paired(b)
    ensures Paired(a + b)
  {
    PairedAppend(a, b);
  }

  /** The payload of a line that ends with one quoted value after paired text is that value. */
  lemma {:induction false} PayloadOfLastRun(pre: string, p: string)
    requires Paired(pre) && NoQuote(p)
    ensures Payload(pre + ("\"" + p + "\"")) == p
  {
    QuotedRunsAppend(pre, "\"" + p + "\"");
    QuotedOneRun(p);
  }

  /** A line without a quote has the empty payload. */
  lemma {:induction false} PayloadWithoutQuotes(line: string)
    requires NoQuote(line)
    ensures Payload(line) == ""
  {
    QuoteFree(line);
  }

  /** Comma-joined paired fields are paired. */
  lemma {:induction false} PairedJoinFields(fields: seq<string>)
    requires forall i :: 0 <= i < |fields| ==> Paired(fields[i])
    ensures Paired(JoinFields(fields, ""))
    decreases |fields|
  {
    if fields == [] {
      QuoteFree("");
    } else {
      PairedJoinFields(fields[1..]);
      QuoteFree(",");
      PairedConcat(",", JoinFields(fields[1..], ""));
      PairedConcat(fields[0], "," + JoinFields(fields[1..], ""));
      assert fields[0] + "," + JoinFields(fields[1..], "") == fields[0] + ("," + JoinFields(fields[1..], ""));
    }
  }
}
