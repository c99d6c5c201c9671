/**
 * A label configuration (backend/src/Models/LabelConfig.js): the base-name split that
 * the regular expression ^(.+?)(\d+)$ performs, the `pattern` virtual built on it, and
 * `generateCodes`, which turns a base name and a quantity into zero-padded codes.
 */
module LabelConfigModel {
  import opened Wrappers
  import opened JsString
  import opened Decimal

  type ObjectId = nat
  /** A date, as milliseconds since the epoch. */
  type Time = int

  /** The symbologies a configuration or label may name. */
  datatype CodeType = Barcode | QrCode | DataMatrix

  function CodeTypeName(t: CodeType): string {
    match t
    case Barcode => "barcode"
    case QrCode => "qrcode"
    case DataMatrix => "datamatrix"
  }

  /** The schema's enum check on a code-type string. */
  function ParseCodeType(s: string): (r: Option<CodeType>)
    ensures r.Some? ==> CodeTypeName(r.value) == s
  {
    if s == "barcode" then Some(Barcode)
    else if s == "qrcode" then Some(QrCode)
    else if s == "datamatrix" then Some(DataMatrix)
    else None
  }

  /** Exactly the three names pass the enum check, each to its own code type. */
  lemma CodeTypeRoundTrip(t: CodeType, s: string)
    ensures ParseCodeType(CodeTypeName(t)) == Some(t)
    ensures ParseCodeType(s).None? <==> s !in {"barcode", "qrcode", "datamatrix"}
  {
  }

  datatype LabelSize = LabelSize(width: int, height: int)

  /** The label size every configuration gets: 50 mm by 50 mm. */
  const DefaultLabelSize := LabelSize(50, 50)

  datatype LabelConfig = LabelConfig(
    id: ObjectId,
    name: string,
    baseName: string,
    startNumber: nat,
    quantity: int,
    codeType: CodeType,
    labelSize: LabelSize,
    isTemplate: bool,
    createdBy: string,
    lastUsed: Time)

  /** The two groups of a successful match of ^(.+?)(\d+)$. */
  datatype Split = Split(prefix: string, digits: string)

  /** Length of the run of ASCII digits at the end of `s`. */
  function TrailingDigits(s: string): (t: nat)
    ensures t <= |s| && forall i :: |s| - t <= i < |s| ==> IsDigit(s[i])
    ensures t < |s| ==> !IsDigit(s[|s| - t - 1])
  {
    if s == [] || !IsDigit(s[|s| - 1]) then 0 else 1 + TrailingDigits(s[..|s| - 1])
  }

  /**
   * The regular expression ^(.+?)(\d+)$ admits a split at `k`: a non-empty prefix
   * with no line terminator (what `.` matches) and a non-empty run of ASCII digits
   * reaching the end of the string.
   */
  ghost predicate MatchesAt(s: string, k: int) {
    1 <= k < |s| && NoLineTerminator(s[..k]) && AllDigits(s[k..])
  }

  /**
   * `baseName.match(/^(.+?)(\d+)$/)`. The lazy prefix takes as few characters as it can,
   * but at least one, so the digit group is the whole trailing digit run unless the
   * string is all digits, in which case the prefix is the first digit.
   */
  function MatchBaseName(s: string): (m: Option<Split>)
    ensures m.Some? ==> AllDigits(m.value.digits)
  {
    var t := TrailingDigits(s);
    var k := if |s| - t >= 1 then |s| - t else 1;
    if t == 0 || |s| < 2 || !NoLineTerminator(s[..k]) then None
    else
      DigitsSuffix(s, k);
      Some(Split(s[..k], s[k..]))
  }

  /** A match splits the base name into its two groups, at an admissible point. */
  lemma MatchBaseNameSplits(s: string)
    ensures MatchBaseName(s).Some? ==>
      && s == MatchBaseName(s).value.prefix + MatchBaseName(s).value.digits
      && MatchesAt(s, |MatchBaseName(s).value.prefix|)
  {
    var t := TrailingDigits(s);
    var k := if |s| - t >= 1 then |s| - t else 1;
    if MatchBaseName(s).Some? {
      DigitsSuffix(s, k);
      assert s == s[..k] + s[k..];
    }
  }

  /**
   * The split is the regular expression's: it matches exactly when some split is
   * admissible, and then the prefix is the shortest admissible one.
   */
  lemma MatchBaseNameIsLeastSplit(s: string)
    ensures MatchBaseName(s).Some? <==> exists k :: MatchesAt(s, k)
    ensures MatchBaseName(s).Some? ==>
      forall k :: MatchesAt(s, k) ==> |MatchBaseName(s).value.prefix| <= k
  {
    forall k | MatchesAt(s, k)
      ensures MatchBaseName(s).Some? && |MatchBaseName(s).value.prefix| <= k
    {
      AdmissibleSplitMatches(s, k);
    }
    MatchBaseNameSplits(s);
  }

  lemma DigitsFrom(s: string, k: nat)
    requires k <= |s| && AllDigits(s[k..])
    ensures forall j :: k <= j < |s| ==> IsDigit(s[j])
  {
    forall j | k <= j < |s|
      ensures IsDigit(s[j])
    {
      assert s[k..][j - k] == s[j];
    }
  }

  lemma DigitsSuffix(s: string, k: nat)
    requires k <= |s| && forall j :: k <= j < |s| ==> IsDigit(s[j])
    ensures AllDigits(s[k..])
  {
  }

  lemma PrefixNoLineTerminator(s: string, i: nat, k: nat)
    requires i <= k <= |s| && NoLineTerminator(s[..k])
    ensures NoLineTerminator(s[..i])
  {
    assert forall j :: 0 <= j < i ==> s[..i][j] == s[..k][j];
  }

  /** Any admissible split starts no earlier than the trailing digit run, and the match succeeds. */
  lemma AdmissibleSplitMatches(s: string, k: int)
    requires MatchesAt(s, k)
    ensures MatchBaseName(s).Some? && |MatchBaseName(s).value.prefix| <= k
  {
    var t := TrailingDigits(s);
    var k0 := if |s| - t >= 1 then |s| - t else 1;
    assert t >= 1 && k0 <= k by {
      DigitsFrom(s, k);
    }
    assert NoLineTerminator(s[..k0]) by {
      PrefixNoLineTerminator(s, k0, k);
    }
  }

  /** The `pattern` virtual: the prefix and the width of the digit group, or null. */
  datatype PatternInfo = PatternInfo(prefix: string, numberLength: nat)

  function Pattern(baseName: string): (p: Option<PatternInfo>)
    ensures p.None? <==> !exists k :: MatchesAt(baseName, k)
    ensures p.Some? ==>
      && MatchesAt(baseName, |p.value.prefix|)
      && |p.value.prefix| + p.value.numberLength == |baseName|
      && baseName[..|p.value.prefix|] == p.value.prefix
    ensures p.Some? ==> forall k :: MatchesAt(baseName, k) ==> |p.value.prefix| <= k
  {
    MatchBaseNameIsLeastSplit(baseName);
    MatchBaseNameSplits(baseName);
    match MatchBaseName(baseName)
    case None => None
    case Some(m) => Some(PatternInfo(m.prefix, |m.digits|))
  }

  /**
   * The virtual describes the codes `generateCodes` makes: it is null exactly when the
   * generator throws, and otherwise code `i` is the virtual's prefix followed by the value
   * of the rest of the base name plus `i`, padded to `numberLength`.
   */
  lemma PatternDescribesCodes(baseName: string, i: nat)
    ensures Pattern(baseName).None? <==> MatchBaseName(baseName).None?
    ensures Pattern(baseName).Some? ==>
      var p := Pattern(baseName).value;
      var digits := baseName[|p.prefix|..];
      && AllDigits(digits) && |digits| == p.numberLength
      && CodeAt(MatchBaseName(baseName).value, i) == p.prefix + PadStart(ToDecimal(Value(digits, 10) + i), p.numberLength)
  {
    MatchBaseNameSplits(baseName);
    if MatchBaseName(baseName).Some? {
      var m := MatchBaseName(baseName).value;
      assert baseName[|m.prefix|..] == m.digits;
    }
  }

  /** The `i`-th code of a split: the prefix, then start + i padded to the digit group's width. */
  function CodeAt(m: Split, i: nat): string
    requires AllDigits(m.digits)
  {
    m.prefix + PadStart(ToDecimal(Value(m.digits, 10) + i), |m.digits|)
  }

  /** `generateCodes`: the error it throws when the base name does not match. */
  const InvalidBaseName := "Invalid base name format"

  /** `[f(0), …, f(n - 1)]`. */
  function Tabulate(f: nat -> string, n: nat): seq<string> {
    if n == 0 then [] else Tabulate(f, n - 1) + [f(n - 1)]
  }

  lemma {:induction false} TabulateAt(f: nat -> string, n: nat)
    ensures |Tabulate(f, n)| == n
    ensures forall j :: 0 <= j < n ==> Tabulate(f, n)[j] == f(j)
  {
    if n > 0 {
      TabulateAt(f, n - 1);
    }
  }

  /**
   * `generateCodes`: one code per `i` in [0, quantity), in order. The base name is
   * checked before anything else, so an invalid one fails whatever the quantity.
   */
  method GenerateCodes(config: LabelConfig) returns (r: Result<seq<string>, string>)
    ensures r.Failure? <==> MatchBaseName(config.baseName).None?
    ensures r.Failure? ==> r.error == InvalidBaseName
    ensures r.Success? ==>
      && |r.value| == (if config.quantity > 0 then config.quantity else 0)
      && forall i :: 0 <= i < |r.value| ==> r.value[i] == CodeAt(MatchBaseName(config.baseName).value, i)
  {
    var found := MatchBaseName(config.baseName);
    if found.None? {
      return Failure(InvalidBaseName);
    }
    var split := found.value;
    assert AllDigits(split.digits);
    var prefix := split.prefix;
    var startNum := Value(split.digits, 10);
    var numLength := |split.digits|;
    var codes: seq<string> := [];
    ghost var codeAt := (j: nat) => CodeAt(split, j);
    var i := 0;
    while i < config.quantity
      invariant 0 <= i && (i <= config.quantity || i == 0)
      invariant codes == Tabulate(codeAt, i)
    {
      var currentNum := startNum + i;
      var paddedNum := PadStart(ToDecimal(currentNum), numLength);
      var code := prefix + paddedNum;
      assert code == codeAt(i) by {
        assert paddedNum == PadStart(ToDecimal(Value(split.digits, 10) + i), |split.digits|);
      }
      codes := codes + [code];
      i := i + 1;
    }
    TabulateAt(codeAt, i);
    return Success(codes);
  }

  /** The digits of the `i`-th code. */
  function Suffix(m: Split, code: string): string
    requires |m.prefix| <= |code|
  {
    code[|m.prefix|..]
  }

  /**
   * Every code is the prefix followed by digits that read as start + i and that are
   * exactly as wide as the wider of the digit group and `String(start + i)`.
   */
  lemma CodeAtShape(m: Split, i: nat)
    requires AllDigits(m.digits)
    ensures var code := CodeAt(m, i);
      var n := Value(m.digits, 10) + i;
      && |m.prefix| <= |code|
      && code[..|m.prefix|] == m.prefix
      && AllDigits(Suffix(m, code))
      && Value(Suffix(m, code), 10) == n
      && |Suffix(m, code)| == (if |ToDecimal(n)| > |m.digits| then |ToDecimal(n)| else |m.digits|)
  {
    var n := Value(m.digits, 10) + i;
    var p := PadStart(ToDecimal(n), |m.digits|);
    var code := CodeAt(m, i);
    assert code == m.prefix + p;
    assert code[..|m.prefix|] == m.prefix && Suffix(m, code) == p by {
      ConcatParts(m.prefix, p);
    }
    assert AllDigits(p) && Value(p, 10) == n
      && |p| == (if |ToDecimal(n)| > |m.digits| then |ToDecimal(n)| else |m.digits|) by {
      PaddedDecimal(n, |m.digits|);
    }
  }

  lemma ConcatParts(a: string, b: string)
    ensures (a + b)[..|a|] == a && (a + b)[|a|..] == b
  {
  }

  /** Padding never truncates: `String(start + i)` is always the tail of the code. */
  lemma CodeAtEndsWithNumber(m: Split, i: nat)
    requires AllDigits(m.digits)
    ensures var code := CodeAt(m, i);
      var n := ToDecimal(Value(m.digits, 10) + i);
      |n| <= |code| && code[|code| - |n|..] == n
  {
    var n := ToDecimal(Value(m.digits, 10) + i);
    var p := PadStart(n, |m.digits|);
    PadStartTail(n, |m.digits|);
    TailOfConcat(m.prefix, p, |n|);
  }

  lemma TailOfConcat(a: string, b: string, k: nat)
    requires k <= |b|
    ensures (a + b)[|a + b| - k..] == b[|b| - k..]
  {
  }

  /** The first code is the base name itself: `padStart` restores the leading zeros. */
  lemma FirstCodeIsBaseName(baseName: string)
    requires MatchBaseName(baseName).Some?
    ensures CodeAt(MatchBaseName(baseName).value, 0) == baseName
  {
    var m := MatchBaseName(baseName).value;
    MatchBaseNameSplits(baseName);
    PadStartRestoresDigits(m.digits);
  }

  /** Codes strictly increase in numeric suffix, so no two are equal (`code` is a unique key). */
  lemma CodesIncreaseAndDiffer(m: Split, i: nat, j: nat)
    requires AllDigits(m.digits) && i < j
    ensures Value(Suffix(m, CodeAt(m, i)), 10) < Value(Suffix(m, CodeAt(m, j)), 10)
    ensures CodeAt(m, i) != CodeAt(m, j)
  {
    CodeAtShape(m, i);
    CodeAtShape(m, j);
  }

  /** `generate("X99", 2)`: the width grows from two digits to three rather than wrapping. */
  lemma WidthGrowsPastDigitGroup()
    ensures MatchBaseName("X99") == Some(Split("X", "99"))
    ensures CodeAt(Split("X", "99"), 0) == "X99"
    ensures CodeAt(Split("X", "99"), 1) == "X100"
  {
    assert TrailingDigits("X99") == 2;
    assert "X99"[..1] == "X";
    assert "X99"[1..] == "99";
    assert Value("99", 10) == 99;
    assert ToDecimal(100) == "100";
    assert ToDecimal(99) == "99";
  }

  /** An all-digit base name keeps its first digit as the prefix; one character never matches. */
  lemma AllDigitBaseNames()
    ensures MatchBaseName("00123") == Some(Split("0", "0123"))
    ensures MatchBaseName("5") == None
    ensures MatchBaseName("NoDigitsHere") == None
    ensures MatchBaseName("PA\n1") == None
  {
    assert TrailingDigits("00123") == 5;
    assert "00123"[..1] == "0";
    assert "00123"[1..] == "0123";
    assert TrailingDigits("PA\n1") == 1;
    assert "PA\n1"[..3][2] == '\n';
  }
}
