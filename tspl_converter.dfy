/**
 * `parseTSPL` (frontend/src/TSPLConverter.jsx): TSPL printer commands turned into the
 * drawable elements of a label preview. Each trimmed non-blank line is cut into tokens;
 * the upper-cased first token selects the command; TEXT, BARCODE, QRCODE, BOX and
 * REVERSE draw one element each, SIZE changes the label size, and every other command
 * is ignored.
 */
module TsplConverter {
  import opened Wrappers
  import opened JsString
  import opened Decimal
  import opened TsplText

  // ---------------------------------------------------------------------------
  // Numbers
  // ---------------------------------------------------------------------------

  /** `a - b` on numbers: NaN as soon as one side is NaN. */
  function Minus(a: Number, b: Number): (r: Number)
    ensures r.Int? <==> a.Int? && b.Int?
    ensures r.Int? ==> r.value + b.value == a.value
  {
    if a.Int? && b.Int? then Int(a.value - b.value) else NaN
  }

  /** `a * k` for an integer constant `k`. */
  function Scale(a: Number, k: int): Number {
    if a.Int? then Int(a.value * k) else NaN
  }

  /** `Math.max(12, yMul * 8)`: at least 12, NaN when the multiplier is NaN. */
  function FontSize(yMul: Number): (r: Number)
    ensures r.NaN? <==> yMul.NaN?
    ensures r.Int? ==> r.value >= 12 && r.value >= yMul.value * 8
    ensures r.Int? ==> r.value == 12 || r.value == yMul.value * 8
  {
    if yMul.NaN? then NaN
    else if yMul.value * 8 > 12 then Int(yMul.value * 8) else Int(12)
  }

  /** `parseInt(parts[5]) || 1`: NaN and 0 are falsy and give 1. */
  function Thickness(v: Number): (t: int)
    ensures t != 0
    ensures v.Int? && v.value != 0 ==> t == v.value
    ensures v.NaN? || v == Int(0) ==> t == 1
  {
    if v.Int? && v.value != 0 then v.value else 1
  }

  // ---------------------------------------------------------------------------
  // Elements
  // ---------------------------------------------------------------------------

  datatype Element =
    | Text(x: Number, y: Number, rotation: Number, text: string, fontSize: Number)
    | Barcode(x: Number, y: Number, height: Number, data: string, barcodeType: string)
    | QrCode(x: Number, y: Number, size: Number, data: string)
    | Box(x: Number, y: Number, width: Number, height: Number, thickness: int)
    | Reverse(x: Number, y: Number, width: Number, height: Number)

  /**
   * The label size: pixels, or the raw width and height tokens of a SIZE command,
   * which the preview reads as millimetres.
   */
  datatype LabelSize =
    | Pixels(width: int, height: int)
    | FromMillimetres(widthMm: Option<string>, heightMm: Option<string>)

  const DefaultSize := Pixels(400, 240)

  datatype Label = Label(elements: seq<Element>, size: LabelSize)

  /** What one line does to the label being built. */
  datatype Effect = Draw(element: Element) | Resize(size: LabelSize) | Skip

  /** The TypeError of `parts[3].replace(...)` on a BARCODE line with fewer than four tokens. */
  datatype ParseError = BarcodeTypeMissing

  /** `parts[k]`, which is `undefined` past the end. */
  function Part(parts: seq<string>, k: nat): (r: Option<string>)
    ensures r.Some? <==> k < |parts|
    ensures r.Some? ==> r.value == parts[k]
  {
    if k < |parts| then Some(parts[k]) else None
  }

  /** `parseInt(parts[k])`. */
  function Field(parts: seq<string>, k: nat): Number {
    ParseInt(Part(parts, k))
  }

  /** `s.replace(/"/g, "")`: every double quote removed. */
  function Unquote(s: string): string {
    if s == [] then []
    else (if s[0] == '"' then [] else [s[0]]) + Unquote(s[1..])
  }

  /** The result has no quote and is no longer; text without a quote is left as it is. */
  lemma {:induction false} UnquoteRemovesQuotes(s: string)
    ensures |Unquote(s)| <= |s| && NoQuote(Unquote(s))
    ensures NoQuote(s) ==> Unquote(s) == s
    decreases |s|
  {
    if s != [] {
      var rest := Unquote(s[1..]);
      UnquoteRemovesQuotes(s[1..]);
      var h: string := if s[0] == '"' then [] else [s[0]];
      assert Unquote(s) == h + rest;
      forall i | 0 <= i < |h + rest|
        ensures (h + rest)[i] != '"'
      {
        if i >= |h| {
          assert (h + rest)[i] == rest[i - |h|];
        }
      }
      if NoQuote(s) {
        assert NoQuote(s[1..]);
        assert s == [s[0]] + s[1..];
      }
    }
  }

  /** The command: the upper-cased first token of the line. */
  function Keyword(line: string): string {
    Upper(Tokens(line)[0])
  }

  datatype Command = SizeCommand | TextCommand | BarcodeCommand | QrCodeCommand | BoxCommand | ReverseCommand | Ignored

  /** The command a keyword names; every keyword other than the six is ignored. */
  function CommandOf(keyword: string): (c: Command)
    ensures c == SizeCommand <==> keyword == "SIZE"
    ensures c == TextCommand <==> keyword == "TEXT"
    ensures c == BarcodeCommand <==> keyword == "BARCODE"
    ensures c == QrCodeCommand <==> keyword == "QRCODE"
    ensures c == BoxCommand <==> keyword == "BOX"
    ensures c == ReverseCommand <==> keyword == "REVERSE"
  {
    if keyword == "SIZE" then SizeCommand
    else if keyword == "TEXT" then TextCommand
    else if keyword == "BARCODE" then BarcodeCommand
    else if keyword == "QRCODE" then QrCodeCommand
    else if keyword == "BOX" then BoxCommand
    else if keyword == "REVERSE" then ReverseCommand
    else Ignored
  }

  /** The commands that draw an element. */
  predicate Draws(c: Command) {
    c != SizeCommand && c != Ignored
  }

  function CommandOfLine(line: string): Command {
    CommandOf(Keyword(line))
  }

  /** A BARCODE line whose fourth token, the symbology, is missing. */
  predicate ShortBarcode(line: string) {
    CommandOfLine(line) == BarcodeCommand && |Tokens(line)| < 4
  }

  /** The size a SIZE line sets: its second and fourth tokens. */
  function SizeOf(line: string): LabelSize {
    var parts := Tokens(line);
    FromMillimetres(Part(parts, 1), Part(parts, 3))
  }

  /**
   * The effect of a line cut into `parts`, whose quoted payload is `payload`: the
   * upper-cased first token picks the command, and the numeric tokens go through `parseInt`.
   */
  function EffectOf(parts: seq<string>, payload: string): Result<Effect, ParseError>
    requires |parts| >= 1
  {
    match CommandOf(Upper(parts[0]))
    case SizeCommand =>
      Success(Resize(FromMillimetres(Part(parts, 1), Part(parts, 3))))
    case TextCommand =>
      Success(Draw(Text(Field(parts, 1), Field(parts, 2), Field(parts, 4), payload, FontSize(Field(parts, 6)))))
    case BarcodeCommand =>
      if |parts| < 4 then Failure(BarcodeTypeMissing)
      else Success(Draw(Barcode(Field(parts, 1), Field(parts, 2), Field(parts, 4), payload, Unquote(parts[3]))))
    case QrCodeCommand =>
      Success(Draw(QrCode(Field(parts, 1), Field(parts, 2), Scale(Field(parts, 4), 10), payload)))
    case BoxCommand =>
      var x1 := Field(parts, 1);
      var y1 := Field(parts, 2);
      Success(Draw(Box(x1, y1, Minus(Field(parts, 3), x1), Minus(Field(parts, 4), y1), Thickness(Field(parts, 5)))))
    case ReverseCommand =>
      Success(Draw(Reverse(Field(parts, 1), Field(parts, 2), Field(parts, 3), Field(parts, 4))))
    case Ignored =>
      Success(Skip)
  }

  /** The effect of one trimmed non-blank line. */
  function LineEffect(line: string): Result<Effect, ParseError> {
    EffectOf(Tokens(line), Payload(line))
  }

  /**
   * The command decides the kind of effect, and a drawn element's kind is the command's;
   * a BARCODE line with fewer than four tokens throws; SIZE takes the second and fourth tokens.
   */
  lemma {:induction false} EffectOfKinds(parts: seq<string>, payload: string)
    requires |parts| >= 1
    ensures var r := EffectOf(parts, payload); var c := CommandOf(Upper(parts[0]));
      && (r.Failure? <==> c == BarcodeCommand && |parts| < 4)
      && (r.Success? && r.value.Draw? <==> Draws(c) && !(c == BarcodeCommand && |parts| < 4))
      && (r.Success? && r.value.Resize? <==> c == SizeCommand)
      && (r.Success? && r.value.Resize? ==> r.value.size == FromMillimetres(Part(parts, 1), Part(parts, 3)))
      && (r.Success? && r.value.Draw? ==>
            && (r.value.element.Text? <==> c == TextCommand)
            && (r.value.element.Barcode? <==> c == BarcodeCommand)
            && (r.value.element.QrCode? <==> c == QrCodeCommand)
            && (r.value.element.Box? <==> c == BoxCommand)
            && (r.value.element.Reverse? <==> c == ReverseCommand))
  {
  }

  function Apply(acc: Label, effect: Effect): Label {
    match effect
    case Draw(e) => Label(acc.elements + [e], acc.size)
    case Resize(s) => Label(acc.elements, s)
    case Skip => acc
  }

  /** The lines folded from the first to the last; the first line that throws ends the parse. */
  function ParseLines(lines: seq<string>): Result<Label, ParseError>
    decreases |lines|
  {
    if lines == [] then Success(Label([], DefaultSize))
    else
      var before := ParseLines(lines[..|lines| - 1]);
      var effect := LineEffect(lines[|lines| - 1]);
      if before.Failure? then before
      else if effect.Failure? then Failure(effect.error)
      else Success(Apply(before.value, effect.value))
  }

  /** Once a prefix has thrown, later lines change nothing: that prefix decides the parse. */
  lemma {:induction false} FailurePersists(lines: seq<string>, k: nat)
    requires k <= |lines| && ParseLines(lines[..k]).Failure?
    ensures ParseLines(lines) == ParseLines(lines[..k])
    decreases |lines|
  {
    if k == |lines| {
      assert lines[..k] == lines;
    } else {
      var init := lines[..|lines| - 1];
      assert init[..k] == lines[..k];
      FailurePersists(init, k);
    }
  }

  /** One more line: the parse so far, then that line's effect. */
  lemma {:induction false} ParseLinesStep(lines: seq<string>, i: nat)
    requires i < |lines|
    ensures ParseLines(lines[..i + 1]) ==
      if ParseLines(lines[..i]).Failure? then ParseLines(lines[..i])
      else if LineEffect(lines[i]).Failure? then Failure(LineEffect(lines[i]).error)
      else Success(Apply(ParseLines(lines[..i]).value, LineEffect(lines[i]).value))
  {
    assert lines[..i + 1][..i] == lines[..i];
    assert lines[..i + 1][i] == lines[i];
  }

  /** What the loop knows after visiting line `i`, given the fold of the lines before it. */
  lemma {:induction false} LoopStep(lines: seq<string>, i: nat, acc: Label)
    requires i < |lines| && ParseLines(lines[..i]) == Success(acc)
    ensures var effect := LineEffect(lines[i]);
      && (effect.Failure? ==> ParseLines(lines) == Failure(effect.error))
      && (effect.Success? ==> ParseLines(lines[..i + 1]) == Success(Apply(acc, effect.value)))
  {
    ParseLinesStep(lines, i);
    if ParseLines(lines[..i + 1]).Failure? {
      FailurePersists(lines, i + 1);
    }
  }

  /**
   * One step of the loop: an element is pushed, or the size is reassigned, or nothing
   * happens. The loop body changes `elements` and the size in place; `Apply` is the
   * specification of that step, used by the fold and by the lemmas.
   */
  method ApplyEffect(elements: seq<Element>, size: LabelSize, effect: Effect)
    returns (elements': seq<Element>, size': LabelSize)
    ensures Label(elements', size') == Apply(Label(elements, size), effect)
  {
    elements', size' := elements, size;
    match effect {
      case Draw(e) =>
        elements' := elements + [e];
      case Resize(s) =>
        size' := s;
      case Skip =>
    }
  }

  /**
   * `parseTSPL`: the lines are visited in order, elements are pushed and the size is
   * reassigned; the label is what the fold over the lines gives.
   */
  method ParseTSPL(code: string) returns (r: Result<Label, ParseError>)
    ensures r == ParseLines(Lines(code))
  {
    var lines := Lines(code);
    var elements: seq<Element> := [];
    var size := DefaultSize;
    var i := 0;
    while i < |lines|
      invariant 0 <= i <= |lines|
      invariant ParseLines(lines[..i]) == Success(Label(elements, size))
    {
      var effect := LineEffect(lines[i]);
      LoopStep(lines, i, Label(elements, size));
      if effect.Failure? {
        return Failure(effect.error);
      }
      elements, size := ApplyEffect(elements, size, effect.value);
      i := i + 1;
    }
    assert lines[..i] == lines;
    return Success(Label(elements, size));
  }

  // ---------------------------------------------------------------------------
  // Properties of the fold
  // ---------------------------------------------------------------------------

  /** One line throws exactly when it is a BARCODE line without a symbology. */
  lemma {:induction false} LineFailsIff(line: string)
    ensures LineEffect(line).Failure? <==> ShortBarcode(line)
  {
    EffectOfKinds(Tokens(line), Payload(line));
  }

  /** The parse of a non-empty list throws when its prefix throws or its last line does. */
  lemma {:induction false} ParseFailsStep(lines: seq<string>)
    requires lines != []
    ensures ParseLines(lines).Failure? <==>
      ParseLines(lines[..|lines| - 1]).Failure? || ShortBarcode(lines[|lines| - 1])
  {
    LineFailsIff(lines[|lines| - 1]);
  }

  /** Some line satisfies `p`. */
  predicate AnyLine(lines: seq<string>, p: string -> bool) {
    exists i :: 0 <= i < |lines| && p(lines[i])
  }

  /** Some line is a BARCODE line without a symbology. */
  predicate AnyShortBarcode(lines: seq<string>) {
    AnyLine(lines, ShortBarcode)
  }

  /** Some line satisfies `p` exactly when one before the last does, or the last does. */
  lemma {:induction false} AnyLineSplit(lines: seq<string>, p: string -> bool)
    requires lines != []
    ensures AnyLine(lines, p) <==> AnyLine(lines[..|lines| - 1], p) || p(lines[|lines| - 1])
  {
    var init := lines[..|lines| - 1];
    if AnyLine(init, p) {
      var i :| 0 <= i < |init| && p(init[i]);
      assert lines[i] == init[i];
    }
    if AnyLine(lines, p) {
      var i :| 0 <= i < |lines| && p(lines[i]);
      if i < |init| {
        assert init[i] == lines[i];
      }
    }
  }

  /** The parse throws exactly when some line is a BARCODE line without a symbology. */
  lemma {:induction false} ParseFailsIff(lines: seq<string>)
    ensures ParseLines(lines).Failure? <==> AnyShortBarcode(lines)
    decreases |lines|
  {
    if lines != [] {
      var init := lines[..|lines| - 1];
      assert ParseLines(lines).Failure? <==> ParseLines(init).Failure? || ShortBarcode(lines[|lines| - 1]) by {
        ParseFailsStep(lines);
      }
      assert ParseLines(init).Failure? <==> AnyShortBarcode(init) by {
        ParseFailsIff(init);
      }
      AnyLineSplit(lines, ShortBarcode);
    }
  }

  /** Number of lines whose command draws something. */
  function CountDrawable(lines: seq<string>): (n: nat)
    ensures n <= |lines|
  {
    if lines == [] then 0
    else CountDrawable(lines[..|lines| - 1]) + (if Draws(CommandOfLine(lines[|lines| - 1])) then 1 else 0)
  }

  /**
   * Each line whose command is TEXT, BARCODE, QRCODE, BOX or REVERSE draws exactly one
   * element and every other line draws none.
   */
  lemma {:induction false} ElementCount(lines: seq<string>)
    requires ParseLines(lines).Success?
    ensures |ParseLines(lines).value.elements| == CountDrawable(lines)
    decreases |lines|
  {
    if lines != [] {
      ElementCount(lines[..|lines| - 1]);
    }
  }

  /** Elements come out in line order: the lines of `a` draw before those of `b`. */
  lemma {:induction false} ParseLinesConcat(a: seq<string>, b: seq<string>)
    requires ParseLines(a + b).Success?
    ensures ParseLines(a).Success? && ParseLines(b).Success?
    ensures ParseLines(a + b).value.elements == ParseLines(a).value.elements + ParseLines(b).value.elements
    decreases |b|
  {
    if b == [] {
      assert a + b == a;
    } else {
      var b', last := b[..|b| - 1], b[|b| - 1];
      assert b == b' + [last];
      assert a + b == (a + b') + [last];
      ParseLinesSnoc(a + b', last);
      ParseLinesSnoc(b', last);
      ParseLinesConcat(a, b');
      if LineEffect(last).Success? {
        ApplyAfter(ParseLines(a).value, ParseLines(b').value, ParseLines(a + b').value, LineEffect(last).value);
      }
    }
  }

  /** An effect applied after two runs of elements adds to the second run. */
  lemma {:induction false} ApplyAfter(pa: Label, pb: Label, pab: Label, effect: Effect)
    requires pab.elements == pa.elements + pb.elements
    ensures Apply(pab, effect).elements == pa.elements + Apply(pb, effect).elements
  {
    if effect.Draw? {
      assert (pa.elements + pb.elements) + [effect.element] == pa.elements + (pb.elements + [effect.element]);
    }
  }

  /** One more line at the end: the parse so far, then that line's effect. */
  lemma {:induction false} ParseLinesSnoc(init: seq<string>, line: string)
    ensures ParseLines(init + [line]) ==
      if ParseLines(init).Failure? then ParseLines(init)
      else if LineEffect(line).Failure? then Failure(LineEffect(line).error)
      else Success(Apply(ParseLines(init).value, LineEffect(line).value))
  {
    var lines := init + [line];
    assert lines[..|lines| - 1] == init;
  }

  /** The label the effects build, applied in order to the empty 400 by 240 label. */
  function ApplyAll(effects: seq<Effect>): Label {
    if effects == [] then Label([], DefaultSize)
    else Apply(ApplyAll(effects[..|effects| - 1]), effects[|effects| - 1])
  }

  /** When no line throws, the parse is the effects of the lines applied in order. */
  lemma {:induction false} ParseOfEffects(lines: seq<string>, effects: seq<Effect>)
    requires |lines| == |effects|
    requires forall i :: 0 <= i < |lines| ==> LineEffect(lines[i]) == Success(effects[i])
    ensures ParseLines(lines) == Success(ApplyAll(effects))
    decreases |lines|
  {
    if lines != [] {
      var n := |lines| - 1;
      var init, inits := lines[..n], effects[..n];
      forall i | 0 <= i < n
        ensures LineEffect(init[i]) == Success(inits[i])
      {
        assert init[i] == lines[i] && inits[i] == effects[i];
      }
      ParseOfEffects(init, inits);
      LastLineSucceeds(lines, ApplyAll(inits), effects[n]);
      ApplyAllLast(effects, inits, effects[n]);
    }
  }

  lemma {:induction false} ApplyAllLast(effects: seq<Effect>, init: seq<Effect>, last: Effect)
    requires effects != [] && init == effects[..|effects| - 1] && last == effects[|effects| - 1]
    ensures ApplyAll(effects) == Apply(ApplyAll(init), last)
  {
  }

  /** A last line that does not throw extends a parse that did not throw by its effect. */
  lemma {:induction false} LastLineSucceeds(lines: seq<string>, acc: Label, effect: Effect)
    requires lines != [] && ParseLines(lines[..|lines| - 1]) == Success(acc)
    requires LineEffect(lines[|lines| - 1]) == Success(effect)
    ensures ParseLines(lines) == Success(Apply(acc, effect))
  {
  }

  /** Without a SIZE line the label keeps the default 400 by 240 pixels. */
  lemma {:induction false} NoSizeLineKeepsDefault(lines: seq<string>)
    requires ParseLines(lines).Success?
    requires forall i :: 0 <= i < |lines| ==> CommandOfLine(lines[i]) != SizeCommand
    ensures ParseLines(lines).value.size == DefaultSize
    decreases |lines|
  {
    if lines != [] {
      var init := lines[..|lines| - 1];
      assert forall i :: 0 <= i < |init| ==> init[i] == lines[i];
      NoSizeLineKeepsDefault(init);
    }
  }

  /** The last SIZE line decides the label size. */
  lemma {:induction false} LastSizeLineWins(lines: seq<string>, k: nat)
    requires ParseLines(lines).Success?
    requires k < |lines| && CommandOfLine(lines[k]) == SizeCommand
    requires forall j :: k < j < |lines| ==> CommandOfLine(lines[j]) != SizeCommand
    ensures ParseLines(lines).value.size == SizeOf(lines[k])
    decreases |lines|
  {
    if k < |lines| - 1 {
      var init := lines[..|lines| - 1];
      assert forall j :: k < j < |init| ==> init[j] == lines[j];
      assert init[k] == lines[k];
      LastSizeLineWins(init, k);
    }
  }

  // ---------------------------------------------------------------------------
  // Commands are matched case-insensitively
  // ---------------------------------------------------------------------------

  /** Token lists that agree after the first token, whose first tokens upper-case alike, act alike. */
  lemma {:induction false} EffectOfSameCommand(p1: seq<string>, p2: seq<string>, payload: string)
    requires |p1| >= 1 && |p1| == |p2| && Upper(p1[0]) == Upper(p2[0]) && p1[1..] == p2[1..]
    ensures EffectOf(p1, payload) == EffectOf(p2, payload)
  {
    forall k: nat | 1 <= k
      ensures Part(p1, k) == Part(p2, k)
    {
      if k < |p1| {
        assert p1[k] == p1[1..][k - 1] == p2[1..][k - 1] == p2[k];
      }
    }
  }

  lemma {:induction false} UpperAppend(a: string, b: string)
    ensures Upper(a + b) == Upper(a) + Upper(b)
  {
    assert forall i :: 0 <= i < |a + b| ==> Upper(a + b)[i] == (Upper(a) + Upper(b))[i] by {
      forall i | 0 <= i < |a + b|
        ensures Upper(a + b)[i] == (Upper(a) + Upper(b))[i]
      {
        if i < |a| {
          assert (a + b)[i] == a[i];
        } else {
          assert (a + b)[i] == b[i - |a|];
        }
      }
    }
  }

  /**
   * Two spellings of a command that upper-case alike, followed by the same text, have
   * the same effect: "text", "Text" and "TEXT" are one command.
   */
  lemma {:induction false} KeywordCaseInsensitive(k1: string, k2: string, rest: string)
    requires NoSeparator(k1) && NoSeparator(k2) && NoQuote(k1) && NoQuote(k2)
    requires Upper(k1) == Upper(k2)
    ensures LineEffect(k1 + rest) == LineEffect(k2 + rest)
  {
    var t0 := Tokens(rest)[0];
    assert Payload(k1 + rest) == Payload(rest) && Payload(k2 + rest) == Payload(rest) by {
      QuoteFree(k1);
      QuoteFree(k2);
      QuotedRunsSkip(k1, rest);
      QuotedRunsSkip(k2, rest);
    }
    var p1 := Tokens(k1 + rest);
    var p2 := Tokens(k2 + rest);
    assert p1[0] == k1 + t0 && p1[1..] == Tokens(rest)[1..] by {
      TokensPrefix(k1, rest);
    }
    assert p2[0] == k2 + t0 && p2[1..] == Tokens(rest)[1..] by {
      TokensPrefix(k2, rest);
    }
    assert Upper(p1[0]) == Upper(p2[0]) by {
      UpperAppend(k1, t0);
      UpperAppend(k2, t0);
    }
    assert |p1| == |p2| by {
      assert |p1| == 1 + |p1[1..]| && |p2| == 1 + |p2[1..]|;
    }
    EffectOfSameCommand(p1, p2, Payload(rest));
  }

  // ---------------------------------------------------------------------------
  // Rendered commands parse back
  // ---------------------------------------------------------------------------

  function Quoted(v: string): string {
    "\"" + v + "\""
  }

  /** An integer written by `String` is one token that `parseInt` reads back. */
  lemma {:induction false} IntToken(n: int)
    ensures IntToString(n) != [] && NoSeparator(IntToString(n)) && NoQuote(IntToString(n))
    ensures ParseInt(Some(IntToString(n))) == Int(n)
  {
    IntTokenPlain(n);
    IntReadsBack(n);
  }

  lemma {:induction false} IntTokenPlain(n: int)
    ensures IntToString(n) != [] && NoSeparator(IntToString(n)) && NoQuote(IntToString(n))
  {
    IntToStringChars(n);
  }

  lemma {:induction false} IntReadsBack(n: int)
    ensures ParseInt(Some(IntToString(n))) == Int(n)
  {
    assert IntToString(n) + "" == IntToString(n);
    ParseIntOfIntToString(n, "");
  }

  /** `String(n)` is a minus sign at most, then digits. */
  lemma {:induction false} IntToStringChars(n: int)
    ensures forall i :: 0 <= i < |IntToString(n)| ==> IntToString(n)[i] == '-' || IsDigit(IntToString(n)[i])
  {
    var s := IntToString(n);
    var d := ToDecimal(if n < 0 then -n else n);
    forall i | 0 <= i < |s|
      ensures s[i] == '-' || IsDigit(s[i])
    {
      if n < 0 && i > 0 {
        assert s[i] == d[i - 1];
      }
    }
  }

  /** A quoted token without separators or quotes inside is one token, and paired. */
  lemma {:induction false} QuotedToken(v: string)
    requires NoSeparator(v) && NoQuote(v)
    ensures Quoted(v) != [] && NoSeparator(Quoted(v)) && Paired(Quoted(v))
  {
    QuotedOnePaired(v);
    var q := Quoted(v);
    forall i | 0 <= i < |q|
      ensures !IsSeparator(q[i])
    {
      if 0 < i < |q| - 1 {
        assert q[i] == v[i - 1];
      }
    }
  }

  /** `keyword f1,…,fk,tail`: a command written with one space and comma-separated fields. */
  function CommandText(keyword: string, fields: seq<string>, tail: string): string {
    keyword + " " + JoinFields(fields, tail)
  }

  /** The tokens of `keyword fields,…,tail` are the keyword, the fields, then the tail's. */
  lemma {:induction false} RenderedTokens(keyword: string, fields: seq<string>, tail: string)
    requires keyword != [] && NoSeparator(keyword)
    requires forall i :: 0 <= i < |fields| ==> fields[i] != [] && NoSeparator(fields[i])
    requires tail == [] || !IsSeparator(tail[0])
    ensures Tokens(CommandText(keyword, fields, tail)) == [keyword] + fields + Tokens(tail)
  {
    var j := JoinFields(fields, tail);
    assert Tokens(j) == fields + Tokens(tail) by {
      TokensOfJoinFields(fields, tail);
    }
    assert Tokens(keyword + " " + j) == [keyword] + Tokens(j) by {
      assert j == [] || !IsSeparator(j[0]) by {
        if fields != [] {
          JoinFieldsStart(fields, tail);
        }
      }
      TokensCons(keyword, ' ', j);
      assert keyword + " " + j == keyword + [' '] + j;
    }
  }

  /** Tokens that start with `keyword` and then `fields`, in order. */
  predicate CommandParts(parts: seq<string>, keyword: string, fields: seq<string>) {
    && |parts| > |fields| && parts[0] == keyword
    && forall i :: 1 <= i <= |fields| ==> parts[i] == fields[i - 1]
  }

  /** The same, token by token: the keyword first, then each field in order. */
  lemma {:induction false} RenderedTokensAt(keyword: string, fields: seq<string>, tail: string)
    requires keyword != [] && NoSeparator(keyword)
    requires forall i :: 0 <= i < |fields| ==> fields[i] != [] && NoSeparator(fields[i])
    requires tail == [] || !IsSeparator(tail[0])
    ensures CommandParts(Tokens(CommandText(keyword, fields, tail)), keyword, fields)
  {
    RenderedTokens(keyword, fields, tail);
    var parts := [keyword] + fields + Tokens(tail);
    assert forall i :: 1 <= i <= |fields| ==> parts[i] == fields[i - 1];
  }

  lemma {:induction false} PairedHead(keyword: string, fields: seq<string>)
    requires NoQuote(keyword)
    requires forall i :: 0 <= i < |fields| ==> Paired(fields[i])
    ensures Paired(CommandText(keyword, fields, ""))
  {
    var head := keyword + " ";
    assert NoQuote(head);
    QuoteFree(head);
    PairedJoinFields(fields);
    PairedConcat(head, JoinFields(fields, ""));
  }

  lemma {:induction false} ConcatAssoc(a: string, b: string, c: string)
    ensures a + (b + c) == (a + b) + c
  {
  }

  /** The payload of `keyword fields,…,"v"` with paired fields is `v`. */
  lemma {:induction false} RenderedPayload(keyword: string, fields: seq<string>, v: string)
    requires NoQuote(keyword) && NoQuote(v)
    requires forall i :: 0 <= i < |fields| ==> Paired(fields[i])
    ensures Payload(CommandText(keyword, fields, Quoted(v))) == v
  {
    var head := keyword + " ";
    var j := JoinFields(fields, "");
    var q := Quoted(v);
    PairedHead(keyword, fields);
    assert JoinFields(fields, q) == j + q by {
      JoinFieldsTail(fields, q);
    }
    ConcatAssoc(head, j, q);
    PayloadOfLastRun(head + j, v);
  }

  /** The `k`-th token is an integer written by `String`, so it reads back as that integer. */
  lemma {:induction false} FieldOfInt(parts: seq<string>, k: nat, n: int)
    requires k < |parts| && parts[k] == IntToString(n)
    ensures Field(parts, k) == Int(n)
  {
    IntToken(n);
  }

  /** An integer written by `String` is a plain field: one token, no quotes. */
  lemma {:induction false} IntField(n: int)
    ensures IntToString(n) != [] && NoSeparator(IntToString(n)) && Paired(IntToString(n))
  {
    IntToken(n);
    QuoteFree(IntToString(n));
  }


  /** `TEXT x,y,"font",rotation,xMul,yMul,"text"`. */
  function TextLine(x: int, y: int, font: string, rotation: int, xMul: int, yMul: int, text: string): string {
    CommandText("TEXT", TextFields(x, y, font, rotation, xMul, yMul), Quoted(text))
  }

  /** The comma-separated fields of a TEXT line before its text. */
  function TextFields(x: int, y: int, font: string, rotation: int, xMul: int, yMul: int): seq<string> {
    [IntToString(x), IntToString(y), Quoted(font), IntToString(rotation), IntToString(xMul), IntToString(yMul)]
  }

  lemma {:induction false} TextFieldsPlain(x: int, y: int, font: string, rotation: int, xMul: int, yMul: int)
    requires NoSeparator(font) && NoQuote(font)
    ensures var fields := TextFields(x, y, font, rotation, xMul, yMul);
      forall i :: 0 <= i < |fields| ==> fields[i] != [] && NoSeparator(fields[i]) && Paired(fields[i])
  {
    var fields := TextFields(x, y, font, rotation, xMul, yMul);
    forall i | 0 <= i < |fields|
      ensures fields[i] != [] && NoSeparator(fields[i]) && Paired(fields[i])
    {
      if i == 2 {
        QuotedToken(font);
      } else {
        IntField([x, y, 0, rotation, xMul, yMul][i]);
      }
    }
  }

  /** The payload of a rendered TEXT line: its last quoted value. */
  lemma {:induction false} TextLinePayload(x: int, y: int, font: string, rotation: int, xMul: int, yMul: int, text: string)
    requires NoSeparator(font) && NoQuote(font) && NoQuote(text)
    ensures Payload(TextLine(x, y, font, rotation, xMul, yMul, text)) == text
  {
    var fields := TextFields(x, y, font, rotation, xMul, yMul);
    TextFieldsPlain(x, y, font, rotation, xMul, yMul);
    KeywordPlain("TEXT");
    RenderedPayload("TEXT", fields, text);
  }

  /**
   * A TEXT line reads back its position, rotation and text; the font size is eight times
   * the vertical multiplier, and at least 12.
   */
  lemma {:induction false} TextLineParses(x: int, y: int, font: string, rotation: int, xMul: int, yMul: int, text: string)
    requires NoSeparator(font) && NoQuote(font) && NoQuote(text)
    ensures LineEffect(TextLine(x, y, font, rotation, xMul, yMul, text)) ==
      Success(Draw(Text(Int(x), Int(y), Int(rotation), text, Int(if yMul * 8 > 12 then yMul * 8 else 12))))
  {
    TextTokens(x, y, font, rotation, xMul, yMul, text);
    TextLinePayload(x, y, font, rotation, xMul, yMul, text);
    var parts := Tokens(TextLine(x, y, font, rotation, xMul, yMul, text));
    TextParts(parts, x, y, font, rotation, xMul, yMul);
    TextEffect(parts, text, x, y, rotation, yMul);
  }

  /** The tokens of a rendered TEXT line: the keyword, then its fields in order. */
  lemma {:induction false} TextTokens(x: int, y: int, font: string, rotation: int, xMul: int, yMul: int, text: string)
    requires NoSeparator(font) && NoQuote(font) && NoQuote(text)
    ensures CommandParts(Tokens(TextLine(x, y, font, rotation, xMul, yMul, text)), "TEXT", TextFields(x, y, font, rotation, xMul, yMul))
  {
    TextFieldsPlain(x, y, font, rotation, xMul, yMul);
    KeywordPlain("TEXT");
    RenderedTokensAt("TEXT", TextFields(x, y, font, rotation, xMul, yMul), Quoted(text));
  }

  /** Tokens that spell out a TEXT line's fields hold its integers at their places. */
  lemma {:induction false} TextParts(parts: seq<string>, x: int, y: int, font: string, rotation: int, xMul: int, yMul: int)
    requires CommandParts(parts, "TEXT", TextFields(x, y, font, rotation, xMul, yMul))
    ensures |parts| >= 7 && parts[0] == "TEXT" && parts[1] == IntToString(x) && parts[2] == IntToString(y)
    ensures parts[4] == IntToString(rotation) && parts[6] == IntToString(yMul)
  {
    var fields := TextFields(x, y, font, rotation, xMul, yMul);
    assert parts[1] == fields[0] && parts[2] == fields[1];
    assert parts[4] == fields[3] && parts[6] == fields[5];
  }

  /** The effect of TEXT tokens whose numeric fields are integers written by `String`. */
  lemma {:induction false} TextEffect(parts: seq<string>, payload: string, x: int, y: int, rotation: int, yMul: int)
    requires |parts| >= 7 && parts[0] == "TEXT" && parts[1] == IntToString(x) && parts[2] == IntToString(y)
    requires parts[4] == IntToString(rotation) && parts[6] == IntToString(yMul)
    ensures EffectOf(parts, payload) ==
      Success(Draw(Text(Int(x), Int(y), Int(rotation), payload, Int(if yMul * 8 > 12 then yMul * 8 else 12))))
  {
    FieldOfInt(parts, 1, x);
    FieldOfInt(parts, 2, y);
    FieldOfInt(parts, 4, rotation);
    FieldOfInt(parts, 6, yMul);
    TextEffectFields(parts, payload);
  }

  lemma {:induction false} TextEffectFields(parts: seq<string>, payload: string)
    requires |parts| >= 1 && parts[0] == "TEXT"
    ensures EffectOf(parts, payload) ==
      Success(Draw(Text(Field(parts, 1), Field(parts, 2), Field(parts, 4), payload, FontSize(Field(parts, 6)))))
  {
    KeywordPlain("TEXT");
  }

  /** `BARCODE x,y,"type",height,readable,rotation,narrow,wide,"data"`. */
  function BarcodeLine(x: int, y: int, barcodeType: string, height: int, readable: int, rotation: int,
                       narrow: int, wide: int, data: string): string {
    CommandText("BARCODE", BarcodeFields(x, y, barcodeType, height, readable, rotation, narrow, wide), Quoted(data))
  }

  /** The comma-separated fields of a BARCODE line before its data. */
  function BarcodeFields(x: int, y: int, barcodeType: string, height: int, readable: int, rotation: int,
                         narrow: int, wide: int): seq<string> {
    [IntToString(x), IntToString(y), Quoted(barcodeType), IntToString(height), IntToString(readable),
     IntToString(rotation), IntToString(narrow), IntToString(wide)]
  }

  lemma {:induction false} UnquoteAppend(a: string, b: string)
    ensures Unquote(a + b) == Unquote(a) + Unquote(b)
    decreases |a|
  {
    if a != [] {
      var h: string := if a[0] == '"' then [] else [a[0]];
      assert Unquote(a + b) == h + Unquote(a[1..] + b) by {
        assert (a + b)[1..] == a[1..] + b;
      }
      UnquoteAppend(a[1..], b);
      assert h + (Unquote(a[1..]) + Unquote(b)) == (h + Unquote(a[1..])) + Unquote(b);
    } else {
      assert a + b == b;
    }
  }

  /** Removing the quotes around a quote-free value gives the value back. */
  lemma {:induction false} UnquoteQuoted(v: string)
    requires NoQuote(v)
    ensures Unquote(Quoted(v)) == v
  {
    var q := Quoted(v);
    assert q == "\"" + (v + "\"");
    UnquoteAppend("\"", v + "\"");
    UnquoteAppend(v, "\"");
    UnquoteRemovesQuotes(v);
    assert Unquote("\"") == [];
  }

  /** Every field of a BARCODE line is one non-empty token. */
  lemma {:induction false} BarcodeFieldsPlain(x: int, y: int, barcodeType: string, height: int, readable: int,
                                              rotation: int, narrow: int, wide: int)
    requires NoSeparator(barcodeType) && NoQuote(barcodeType)
    ensures var fields := BarcodeFields(x, y, barcodeType, height, readable, rotation, narrow, wide);
      forall i :: 0 <= i < |fields| ==> fields[i] != [] && NoSeparator(fields[i])
  {
    IntField(x);
    IntField(y);
    QuotedToken(barcodeType);
    IntField(height);
    IntField(readable);
    IntField(rotation);
    IntField(narrow);
    IntField(wide);
  }

  /** Every field of a BARCODE line has its quotes paired. */
  lemma {:induction false} BarcodeFieldsPaired(x: int, y: int, barcodeType: string, height: int, readable: int,
                                               rotation: int, narrow: int, wide: int)
    requires NoSeparator(barcodeType) && NoQuote(barcodeType)
    ensures var fields := BarcodeFields(x, y, barcodeType, height, readable, rotation, narrow, wide);
      forall i :: 0 <= i < |fields| ==> Paired(fields[i])
  {
    IntField(x);
    IntField(y);
    QuotedToken(barcodeType);
    IntField(height);
    IntField(readable);
    IntField(rotation);
    IntField(narrow);
    IntField(wide);
  }

  /** The payload of a rendered BARCODE line: its last quoted value. */
  lemma {:induction false} BarcodeLinePayload(x: int, y: int, barcodeType: string, height: int, readable: int, rotation: int,
                          narrow: int, wide: int, data: string)
    requires NoSeparator(barcodeType) && NoQuote(barcodeType) && NoQuote(data)
    ensures Payload(BarcodeLine(x, y, barcodeType, height, readable, rotation, narrow, wide, data)) == data
  {
    var fields := BarcodeFields(x, y, barcodeType, height, readable, rotation, narrow, wide);
    BarcodeFieldsPaired(x, y, barcodeType, height, readable, rotation, narrow, wide);
    KeywordPlain("BARCODE");
    RenderedPayload("BARCODE", fields, data);
  }

  /** A BARCODE line reads back its position, height, data and symbology, without quotes. */
  lemma {:induction false} BarcodeLineParses(x: int, y: int, barcodeType: string, height: int, readable: int, rotation: int,
                          narrow: int, wide: int, data: string)
    requires NoSeparator(barcodeType) && NoQuote(barcodeType) && NoQuote(data)
    ensures LineEffect(BarcodeLine(x, y, barcodeType, height, readable, rotation, narrow, wide, data)) ==
      Success(Draw(Barcode(Int(x), Int(y), Int(height), data, barcodeType)))
  {
    BarcodeTokens(x, y, barcodeType, height, readable, rotation, narrow, wide, data);
    BarcodeLinePayload(x, y, barcodeType, height, readable, rotation, narrow, wide, data);
    var parts := Tokens(BarcodeLine(x, y, barcodeType, height, readable, rotation, narrow, wide, data));
    BarcodeParts(parts, x, y, barcodeType, height, readable, rotation, narrow, wide);
    BarcodeEffect(parts, data, x, y, height, barcodeType);
  }

  /** The tokens of a rendered BARCODE line: the keyword, then its fields in order. */
  lemma {:induction false} BarcodeTokens(x: int, y: int, barcodeType: string, height: int, readable: int, rotation: int,
                                        narrow: int, wide: int, data: string)
    requires NoSeparator(barcodeType) && NoQuote(barcodeType) && NoQuote(data)
    ensures CommandParts(Tokens(BarcodeLine(x, y, barcodeType, height, readable, rotation, narrow, wide, data)), "BARCODE", BarcodeFields(x, y, barcodeType, height, readable, rotation, narrow, wide))
  {
    BarcodeFieldsPlain(x, y, barcodeType, height, readable, rotation, narrow, wide);
    KeywordPlain("BARCODE");
    RenderedTokensAt("BARCODE", BarcodeFields(x, y, barcodeType, height, readable, rotation, narrow, wide), Quoted(data));
  }

  /** Tokens that spell out a BARCODE line's fields hold its values at their places. */
  lemma {:induction false} BarcodeParts(parts: seq<string>, x: int, y: int, barcodeType: string, height: int,
                                        readable: int, rotation: int, narrow: int, wide: int)
    requires CommandParts(parts, "BARCODE", BarcodeFields(x, y, barcodeType, height, readable, rotation, narrow, wide))
    ensures |parts| >= 9 && parts[0] == "BARCODE" && parts[1] == IntToString(x) && parts[2] == IntToString(y)
    ensures parts[3] == Quoted(barcodeType) && parts[4] == IntToString(height)
  {
    var fields := BarcodeFields(x, y, barcodeType, height, readable, rotation, narrow, wide);
    assert parts[1] == fields[0] && parts[2] == fields[1];
    assert parts[3] == fields[2] && parts[4] == fields[3];
  }

  /** The effect of BARCODE tokens whose position and height are integers written by `String`. */
  lemma {:induction false} BarcodeEffect(parts: seq<string>, payload: string, x: int, y: int, height: int, barcodeType: string)
    requires NoQuote(barcodeType)
    requires |parts| >= 5 && parts[0] == "BARCODE" && parts[1] == IntToString(x) && parts[2] == IntToString(y)
    requires parts[3] == Quoted(barcodeType) && parts[4] == IntToString(height)
    ensures EffectOf(parts, payload) == Success(Draw(Barcode(Int(x), Int(y), Int(height), payload, barcodeType)))
  {
    FieldOfInt(parts, 1, x);
    FieldOfInt(parts, 2, y);
    FieldOfInt(parts, 4, height);
    UnquoteQuoted(barcodeType);
    BarcodeEffectFields(parts, payload);
  }

  lemma {:induction false} BarcodeEffectFields(parts: seq<string>, payload: string)
    requires |parts| >= 4 && parts[0] == "BARCODE"
    ensures EffectOf(parts, payload) ==
      Success(Draw(Barcode(Field(parts, 1), Field(parts, 2), Field(parts, 4), payload, Unquote(parts[3]))))
  {
    KeywordPlain("BARCODE");
  }

  /** `QRCODE x,y,ecc,cell,mode,rotation,"data"`. */
  function QrCodeLine(x: int, y: int, ecc: string, cell: int, mode: string, rotation: int, data: string): string {
    CommandText("QRCODE", QrCodeFields(x, y, ecc, cell, mode, rotation), Quoted(data))
  }

  /** The comma-separated fields of a QRCODE line before its data. */
  function QrCodeFields(x: int, y: int, ecc: string, cell: int, mode: string, rotation: int): seq<string> {
    [IntToString(x), IntToString(y), ecc, IntToString(cell), mode, IntToString(rotation)]
  }

  lemma {:induction false} QrCodeFieldsPlain(x: int, y: int, ecc: string, cell: int, mode: string, rotation: int)
    requires ecc != [] && NoSeparator(ecc) && NoQuote(ecc)
    requires mode != [] && NoSeparator(mode) && NoQuote(mode)
    ensures var fields := QrCodeFields(x, y, ecc, cell, mode, rotation);
      forall i :: 0 <= i < |fields| ==> fields[i] != [] && NoSeparator(fields[i]) && Paired(fields[i])
  {
    var fields := QrCodeFields(x, y, ecc, cell, mode, rotation);
    forall i | 0 <= i < |fields|
      ensures fields[i] != [] && NoSeparator(fields[i]) && Paired(fields[i])
    {
      if i == 2 {
        QuoteFree(ecc);
      } else if i == 4 {
        QuoteFree(mode);
      } else {
        IntField([x, y, 0, cell, 0, rotation][i]);
      }
    }
  }

  /** The payload of a rendered QRCODE line: its last quoted value. */
  lemma {:induction false} QrCodeLinePayload(x: int, y: int, ecc: string, cell: int, mode: string, rotation: int, data: string)
    requires ecc != [] && NoSeparator(ecc) && NoQuote(ecc)
    requires mode != [] && NoSeparator(mode) && NoQuote(mode)
    requires NoQuote(data)
    ensures Payload(QrCodeLine(x, y, ecc, cell, mode, rotation, data)) == data
  {
    var fields := QrCodeFields(x, y, ecc, cell, mode, rotation);
    QrCodeFieldsPlain(x, y, ecc, cell, mode, rotation);
    KeywordPlain("QRCODE");
    RenderedPayload("QRCODE", fields, data);
  }

  /** A QRCODE line reads back its position and data; the size is ten times the cell width. */
  lemma {:induction false} QrCodeLineParses(x: int, y: int, ecc: string, cell: int, mode: string, rotation: int, data: string)
    requires ecc != [] && NoSeparator(ecc) && NoQuote(ecc)
    requires mode != [] && NoSeparator(mode) && NoQuote(mode)
    requires NoQuote(data)
    ensures LineEffect(QrCodeLine(x, y, ecc, cell, mode, rotation, data)) ==
      Success(Draw(QrCode(Int(x), Int(y), Int(cell * 10), data)))
  {
    QrCodeTokens(x, y, ecc, cell, mode, rotation, data);
    QrCodeLinePayload(x, y, ecc, cell, mode, rotation, data);
    var parts := Tokens(QrCodeLine(x, y, ecc, cell, mode, rotation, data));
    QrCodeParts(parts, x, y, ecc, cell, mode, rotation);
    QrCodeEffect(parts, data, x, y, cell);
  }

  /** The tokens of a rendered QRCODE line: the keyword, then its fields in order. */
  lemma {:induction false} QrCodeTokens(x: int, y: int, ecc: string, cell: int, mode: string, rotation: int, data: string)
    requires ecc != [] && NoSeparator(ecc) && NoQuote(ecc)
    requires mode != [] && NoSeparator(mode) && NoQuote(mode)
    requires NoQuote(data)
    ensures CommandParts(Tokens(QrCodeLine(x, y, ecc, cell, mode, rotation, data)), "QRCODE", QrCodeFields(x, y, ecc, cell, mode, rotation))
  {
    QrCodeFieldsPlain(x, y, ecc, cell, mode, rotation);
    KeywordPlain("QRCODE");
    RenderedTokensAt("QRCODE", QrCodeFields(x, y, ecc, cell, mode, rotation), Quoted(data));
  }

  /** Tokens that spell out a QRCODE line's fields hold its integers at their places. */
  lemma {:induction false} QrCodeParts(parts: seq<string>, x: int, y: int, ecc: string, cell: int, mode: string,
                                       rotation: int)
    requires CommandParts(parts, "QRCODE", QrCodeFields(x, y, ecc, cell, mode, rotation))
    ensures |parts| >= 7 && parts[0] == "QRCODE" && parts[1] == IntToString(x) && parts[2] == IntToString(y)
    ensures parts[4] == IntToString(cell)
  {
    var fields := QrCodeFields(x, y, ecc, cell, mode, rotation);
    assert parts[1] == fields[0] && parts[2] == fields[1] && parts[4] == fields[3];
  }

  /** The effect of QRCODE tokens whose position and cell width are integers written by `String`. */
  lemma {:induction false} QrCodeEffect(parts: seq<string>, payload: string, x: int, y: int, cell: int)
    requires |parts| >= 5 && parts[0] == "QRCODE" && parts[1] == IntToString(x) && parts[2] == IntToString(y)
    requires parts[4] == IntToString(cell)
    ensures EffectOf(parts, payload) == Success(Draw(QrCode(Int(x), Int(y), Int(cell * 10), payload)))
  {
    FieldOfInt(parts, 1, x);
    FieldOfInt(parts, 2, y);
    FieldOfInt(parts, 4, cell);
    QrCodeEffectFields(parts, payload);
  }

  lemma {:induction false} QrCodeEffectFields(parts: seq<string>, payload: string)
    requires |parts| >= 1 && parts[0] == "QRCODE"
    ensures EffectOf(parts, payload) ==
      Success(Draw(QrCode(Field(parts, 1), Field(parts, 2), Scale(Field(parts, 4), 10), payload)))
  {
    KeywordPlain("QRCODE");
  }

  /** A command keyword as written out: upper-case ASCII letters. */
  predicate IsKeyword(k: string) {
    k != [] && forall i :: 0 <= i < |k| ==> 'A' <= k[i] <= 'Z'
  }

  /** A keyword is one plain token, holds no quote and is its own upper case. */
  lemma {:induction false} KeywordPlain(k: string)
    requires IsKeyword(k)
    ensures NoSeparator(k) && NoQuote(k) && Upper(k) == k
  {
    assert NoLower(k);
    UpperFixed(k);
  }

  /** The integers written by `String`, in order. */
  function IntStrings(ns: seq<int>): seq<string> {
    seq(|ns|, i requires 0 <= i < |ns| => IntToString(ns[i]))
  }

  lemma {:induction false} IntStringsPlain(ns: seq<int>)
    ensures forall i :: 0 <= i < |ns| ==> IntStrings(ns)[i] != [] && NoSeparator(IntStrings(ns)[i])
  {
    forall i | 0 <= i < |ns|
      ensures IntStrings(ns)[i] != [] && NoSeparator(IntStrings(ns)[i])
    {
      IntField(ns[i]);
    }
  }

  /** A keyword followed by nothing or by a separator is the line's command. */
  lemma {:induction false} KeywordFirst(k: string, r: string)
    requires IsKeyword(k) && (r == [] || IsSeparator(r[0]))
    ensures Upper(Tokens(k + r)[0]) == k
  {
    KeywordPlain(k);
    TokensPrefix(k, r);
    assert FieldLen(r) == 0;
    assert Tokens(r)[0] == [];
    assert k + [] == k;
  }

  /** A line whose command is none of the six does nothing. */
  lemma {:induction false} IgnoredLine(k: string, r: string)
    requires IsKeyword(k) && (r == [] || IsSeparator(r[0]))
    requires CommandOf(k) == Ignored
    ensures LineEffect(k + r) == Success(Skip)
  {
    KeywordFirst(k, r);
  }

  /** `keyword f1,…,fk`: a command followed by comma-separated fields. */
  function PlainLine(keyword: string, fs: seq<string>): string
    requires |fs| >= 1
  {
    CommandText(keyword, fs[..|fs| - 1], fs[|fs| - 1])
  }

  /** The tokens of a command whose fields are plain tokens: the keyword, then the fields. */
  lemma {:induction false} PlainLineTokens(keyword: string, fs: seq<string>)
    requires keyword != [] && NoSeparator(keyword) && |fs| >= 1
    requires forall i :: 0 <= i < |fs| ==> fs[i] != [] && NoSeparator(fs[i])
    ensures Tokens(PlainLine(keyword, fs)) == [keyword] + fs
  {
    var init := fs[..|fs| - 1];
    var last := fs[|fs| - 1];
    TokensOfField(last);
    RenderedTokens(keyword, init, last);
    assert init + [last] == fs;
  }

  /** `keyword n1,…,nk`: a command whose fields are all integers written by `String`. */
  function IntLine(keyword: string, ns: seq<int>): string
    requires |ns| >= 1
  {
    PlainLine(keyword, IntStrings(ns))
  }

  /** The tokens of an all-integer command: the keyword, then the integers in order. */
  lemma {:induction false} IntLineTokens(keyword: string, ns: seq<int>)
    requires IsKeyword(keyword) && |ns| >= 1
    ensures var parts := Tokens(IntLine(keyword, ns));
      |parts| == |ns| + 1 && CommandParts(parts, keyword, IntStrings(ns))
  {
    var fs := IntStrings(ns);
    KeywordPlain(keyword);
    IntStringsPlain(ns);
    PlainLineTokens(keyword, fs);
    var parts := Tokens(IntLine(keyword, ns));
    assert parts == [keyword] + fs;
    assert forall i :: 1 <= i <= |fs| ==> parts[i] == fs[i - 1];
  }

  /** Tokens that spell out integers hold each of them at its place. */
  lemma {:induction false} IntParts(parts: seq<string>, keyword: string, ns: seq<int>)
    requires CommandParts(parts, keyword, IntStrings(ns))
    ensures |parts| > |ns| && parts[0] == keyword
    ensures forall i :: 1 <= i <= |ns| ==> parts[i] == IntToString(ns[i - 1])
  {
    var fs := IntStrings(ns);
    forall i | 1 <= i <= |ns|
      ensures parts[i] == IntToString(ns[i - 1])
    {
      assert parts[i] == fs[i - 1];
    }
  }

  /** `BOX x1,y1,x2,y2` with an optional `,thickness`. */
  function BoxLine(x1: int, y1: int, x2: int, y2: int, thickness: Option<int>): string {
    IntLine("BOX", BoxNumbers(x1, y1, x2, y2, thickness))
  }

  /** The integers of a BOX line: the two corners, then the thickness when given. */
  function BoxNumbers(x1: int, y1: int, x2: int, y2: int, thickness: Option<int>): seq<int> {
    if thickness.None? then [x1, y1, x2, y2] else [x1, y1, x2, y2, thickness.value]
  }

  /** Tokens that spell out a BOX line's integers hold each at its place. */
  lemma {:induction false} BoxParts(parts: seq<string>, x1: int, y1: int, x2: int, y2: int, thickness: Option<int>)
    requires |parts| == |BoxNumbers(x1, y1, x2, y2, thickness)| + 1
    requires CommandParts(parts, "BOX", IntStrings(BoxNumbers(x1, y1, x2, y2, thickness)))
    ensures |parts| >= 5 && parts[0] == "BOX"
    ensures parts[1] == IntToString(x1) && parts[2] == IntToString(y1)
    ensures parts[3] == IntToString(x2) && parts[4] == IntToString(y2)
    ensures thickness.None? ==> |parts| == 5
    ensures thickness.Some? ==> |parts| > 5 && parts[5] == IntToString(thickness.value)
  {
    IntParts(parts, "BOX", BoxNumbers(x1, y1, x2, y2, thickness));
  }

  /** The effect of BOX tokens whose four coordinates are integers written by `String`. */
  lemma {:induction false} BoxEffect(parts: seq<string>, payload: string, x1: int, y1: int, x2: int, y2: int)
    requires |parts| >= 5 && parts[0] == "BOX"
    requires parts[1] == IntToString(x1) && parts[2] == IntToString(y1)
    requires parts[3] == IntToString(x2) && parts[4] == IntToString(y2)
    ensures EffectOf(parts, payload) ==
      Success(Draw(Box(Int(x1), Int(y1), Int(x2 - x1), Int(y2 - y1), Thickness(Field(parts, 5)))))
  {
    FieldOfInt(parts, 1, x1);
    FieldOfInt(parts, 2, y1);
    FieldOfInt(parts, 3, x2);
    FieldOfInt(parts, 4, y2);
    assert Minus(Field(parts, 3), Field(parts, 1)) == Int(x2 - x1);
    assert Minus(Field(parts, 4), Field(parts, 2)) == Int(y2 - y1);
    BoxEffectFields(parts, payload);
  }

  lemma {:induction false} BoxEffectFields(parts: seq<string>, payload: string)
    requires |parts| >= 1 && parts[0] == "BOX"
    ensures EffectOf(parts, payload) ==
      Success(Draw(Box(Field(parts, 1), Field(parts, 2), Minus(Field(parts, 3), Field(parts, 1)),
        Minus(Field(parts, 4), Field(parts, 2)), Thickness(Field(parts, 5)))))
  {
    KeywordPlain("BOX");
  }

  /** A BOX spans from its corner to the opposite one; a missing or zero thickness is 1. */
  lemma {:induction false} BoxLineParses(x1: int, y1: int, x2: int, y2: int, thickness: Option<int>)
    ensures LineEffect(BoxLine(x1, y1, x2, y2, thickness)) ==
      Success(Draw(Box(Int(x1), Int(y1), Int(x2 - x1), Int(y2 - y1),
        if thickness.Some? && thickness.value != 0 then thickness.value else 1)))
  {
    var line := BoxLine(x1, y1, x2, y2, thickness);
    var parts := Tokens(line);
    IntLineTokens("BOX", BoxNumbers(x1, y1, x2, y2, thickness));
    BoxParts(parts, x1, y1, x2, y2, thickness);
    BoxThickness(parts, thickness);
    BoxEffect(parts, Payload(line), x1, y1, x2, y2);
  }

  /** The thickness token reads back as given; a missing one, or zero, counts as 1. */
  lemma {:induction false} BoxThickness(parts: seq<string>, thickness: Option<int>)
    requires |parts| >= 5
    requires thickness.None? ==> |parts| == 5
    requires thickness.Some? ==> |parts| > 5 && parts[5] == IntToString(thickness.value)
    ensures Thickness(Field(parts, 5)) == if thickness.Some? && thickness.value != 0 then thickness.value else 1
  {
    if thickness.Some? {
      FieldOfInt(parts, 5, thickness.value);
    } else {
      assert Field(parts, 5) == NaN;
    }
  }

  /** `REVERSE x,y,width,height`. */
  function ReverseLine(x: int, y: int, width: int, height: int): string {
    IntLine("REVERSE", [x, y, width, height])
  }

  /** A REVERSE line reads back its position and extent. */
  lemma {:induction false} ReverseLineParses(x: int, y: int, width: int, height: int)
    ensures LineEffect(ReverseLine(x, y, width, height)) ==
      Success(Draw(Reverse(Int(x), Int(y), Int(width), Int(height))))
  {
    var line := ReverseLine(x, y, width, height);
    var ns := [x, y, width, height];
    IntLineTokens("REVERSE", ns);
    IntParts(Tokens(line), "REVERSE", ns);
    ReverseEffect(Tokens(line), Payload(line), x, y, width, height);
  }

  /** The effect of REVERSE tokens whose four fields are integers written by `String`. */
  lemma {:induction false} ReverseEffect(parts: seq<string>, payload: string, x: int, y: int, width: int, height: int)
    requires |parts| >= 5 && parts[0] == "REVERSE"
    requires parts[1] == IntToString(x) && parts[2] == IntToString(y)
    requires parts[3] == IntToString(width) && parts[4] == IntToString(height)
    ensures EffectOf(parts, payload) == Success(Draw(Reverse(Int(x), Int(y), Int(width), Int(height))))
  {
    FieldOfInt(parts, 1, x);
    FieldOfInt(parts, 2, y);
    FieldOfInt(parts, 3, width);
    FieldOfInt(parts, 4, height);
    ReverseEffectFields(parts, payload);
  }

  lemma {:induction false} ReverseEffectFields(parts: seq<string>, payload: string)
    requires |parts| >= 1 && parts[0] == "REVERSE"
    ensures EffectOf(parts, payload) ==
      Success(Draw(Reverse(Field(parts, 1), Field(parts, 2), Field(parts, 3), Field(parts, 4))))
  {
    KeywordPlain("REVERSE");
  }
}
