/**
 * The TSPL program the preview starts with (frontend/src/TSPLConverter.jsx): a SIZE line,
 * four setup commands the preview ignores, two TEXT lines, a BARCODE, a QRCODE, a BOX and
 * a PRINT. It draws five elements and sets the size to 100 by 60.
 *
 * Each line is its own constant; the longer ones are written in pieces (the command, the
 * fields, the quoted value), which spell the same text. Each line is tied to the command
 * that writes it in small steps (the fields, the joined fields, the whole line), so that
 * no proof compares more than one line of text at once.
 */
module TsplSample {
  import opened Wrappers
  import opened JsString
  import opened Decimal
  import opened TsplText
  import opened TsplConverter

  const SizeText: string := "SIZE 100 mm, 60 mm"
  const GapText: string := "GAP 2 mm, 0 mm"
  const DirectionText: string := "DIRECTION 1"
  const ReferenceText: string := "REFERENCE 0,0"
  const ClsText: string := "CLS"
  const HelloText: string := "TEXT " + "50,50,\"3\",0,1,1," + "\"Hello World\""
  const TitleText: string := "TEXT " + "50,100,\"2\",0,1,1," + "\"TSPL Label Design\""
  const BarcodeText: string := "BARCODE " + "50,150,\"128\"," + "60,1,0,2,2," + "\"12345678\""
  const QrCodeText: string := "QRCODE " + "250,50,H,4,A,0," + "\"https://example.com\""
  const BoxText: string := "BOX 40,40,450,250,2"
  const PrintText: string := "PRINT 1,1"

  /** The initial program, one entry per line. */
  const SampleLines: seq<string> := [
    SizeText, GapText, DirectionText, ReferenceText, ClsText,
    HelloText, TitleText, BarcodeText, QrCodeText, BoxText,
    PrintText
  ]

  /** The size the SIZE line sets: its raw width and height tokens. */
  const SampleSize := FromMillimetres(Some("100"), Some("60"))

  /** The elements the program draws, in line order. */
  const SampleElements: seq<Element> := [
    Text(Int(50), Int(50), Int(0), "Hello World", Int(12)),
    Text(Int(50), Int(100), Int(0), "TSPL Label Design", Int(12)),
    Barcode(Int(50), Int(150), Int(60), "12345678", "128"),
    QrCode(Int(250), Int(50), Int(40), "https://example.com"),
    Box(Int(40), Int(40), Int(410), Int(210), 2)
  ]

  /** What each line of the program does. */
  const SampleEffects: seq<Effect> := [
    Resize(SampleSize), Skip, Skip, Skip, Skip,
    Draw(SampleElements[0]), Draw(SampleElements[1]), Draw(SampleElements[2]),
    Draw(SampleElements[3]), Draw(SampleElements[4]),
    Skip
  ]

  /**
   * The initial program parses without error into its five elements, two texts, a
   * barcode, a QR code and a box, in line order, on a label whose size the SIZE line set.
   */
  lemma {:induction false} SampleParses()
    ensures Lines(JoinLines(SampleLines)) == SampleLines
    ensures ParseLines(Lines(JoinLines(SampleLines))) == Success(Label(SampleElements, SampleSize))
  {
    SampleLinesPlain();
    LinesOfJoin(SampleLines);
    SampleLineEffects();
    ParseOfEffects(SampleLines, SampleEffects);
    SampleFold();
  }

  /** Every line of the program is non-empty, trimmed and without a newline. */
  lemma {:induction false} SampleLinesPlain()
    ensures forall i :: 0 <= i < |SampleLines| ==>
      SampleLines[i] != [] && IsTrimmed(SampleLines[i]) && '\n' !in SampleLines[i]
  {
    forall i | 0 <= i < |SampleLines|
      ensures SampleLines[i] != [] && IsTrimmed(SampleLines[i]) && '\n' !in SampleLines[i]
    {
      if i < 5 {
        SetupPlain(i);
      } else if i < 8 {
        TextPlain(i);
      } else {
        CodePlain(i);
      }
    }
  }

  lemma {:induction false} SetupPlain(i: nat)
    requires i < 5
    ensures SampleLines[i] != [] && IsTrimmed(SampleLines[i]) && '\n' !in SampleLines[i]
  {
    var s := SampleLines[i];
    assert s != [] && IsTrimmed(s);
  }

  lemma {:induction false} TextPlain(i: nat)
    requires 5 <= i < 8
    ensures SampleLines[i] != [] && IsTrimmed(SampleLines[i]) && '\n' !in SampleLines[i]
  {
    SampleLinesAt();
    if i == 5 {
      PiecesPlain("TEXT ", "50,50,\"3\",0,1,1,", "\"Hello World\"");
    } else if i == 6 {
      PiecesPlain("TEXT ", "50,100,\"2\",0,1,1,", "\"TSPL Label Design\"");
    } else {
      PiecesPlain("BARCODE " + "50,150,\"128\",", "60,1,0,2,2,", "\"12345678\"");
    }
  }

  lemma {:induction false} CodePlain(i: nat)
    requires 8 <= i < |SampleLines|
    ensures SampleLines[i] != [] && IsTrimmed(SampleLines[i]) && '\n' !in SampleLines[i]
  {
    SampleLinesAt();
    if i == 8 {
      PiecesPlain("QRCODE ", "250,50,H,4,A,0,", "\"https://example.com\"");
    } else if i == 9 {
      assert BoxText != [] && IsTrimmed(BoxText);
    } else {
      assert PrintText != [] && IsTrimmed(PrintText);
    }
  }

  /** A line made of pieces without newlines, starting and ending with a visible character, is plain. */
  lemma {:induction false} PiecesPlain(a: string, m: string, b: string)
    requires a != [] && !IsSpace(a[0]) && b != [] && !IsSpace(b[|b| - 1])
    requires '\n' !in a && '\n' !in m && '\n' !in b
    ensures a + m + b != [] && IsTrimmed(a + m + b) && '\n' !in a + m + b
  {
    var s := a + m + b;
    assert s[0] == a[0] && s[|s| - 1] == b[|b| - 1];
  }

  /** Each line has the effect listed for it. */
  lemma {:induction false} SampleLineEffects()
    ensures |SampleLines| == |SampleEffects|
    ensures forall i :: 0 <= i < |SampleLines| ==> LineEffect(SampleLines[i]) == Success(SampleEffects[i])
  {
    forall i | 0 <= i < |SampleLines|
      ensures LineEffect(SampleLines[i]) == Success(SampleEffects[i])
    {
      if i < 5 {
        SetupEffect(i);
      } else {
        DrawingEffect(i);
      }
    }
  }

  /** SIZE sets the size; GAP, DIRECTION, REFERENCE and CLS draw nothing. */
  lemma {:induction false} SetupEffect(i: nat)
    requires i < 5
    ensures LineEffect(SampleLines[i]) == Success(SampleEffects[i])
  {
    SampleLinesAt();
    SampleEffectsAt();
    if i == 0 {
      SizeEffect();
    } else if i == 1 {
      GapEffect();
    } else if i == 2 {
      DirectionEffect();
    } else if i == 3 {
      ReferenceEffect();
    } else {
      ClsEffect();
    }
  }

  /** The two TEXT lines, the BARCODE, the QRCODE and the BOX draw their elements; PRINT draws nothing. */
  lemma {:induction false} DrawingEffect(i: nat)
    requires 5 <= i < |SampleLines|
    ensures LineEffect(SampleLines[i]) == Success(SampleEffects[i])
  {
    SampleLinesAt();
    SampleEffectsAt();
    if i == 5 {
      HelloEffect();
    } else if i == 6 {
      TitleEffect();
    } else if i == 7 {
      BarcodeEffect();
    } else if i == 8 {
      QrCodeEffect();
    } else if i == 9 {
      BoxEffect();
    } else {
      PrintEffect();
    }
  }

  lemma {:induction false} SampleLinesAt()
    ensures |SampleLines| == 11
    ensures SampleLines[0] == SizeText && SampleLines[1] == GapText && SampleLines[2] == DirectionText
    ensures SampleLines[3] == ReferenceText && SampleLines[4] == ClsText && SampleLines[5] == HelloText
    ensures SampleLines[6] == TitleText && SampleLines[7] == BarcodeText && SampleLines[8] == QrCodeText
    ensures SampleLines[9] == BoxText && SampleLines[10] == PrintText
  {
  }

  lemma {:induction false} SampleEffectsAt()
    ensures |SampleEffects| == 11
    ensures SampleEffects[0] == Resize(SampleSize)
    ensures SampleEffects[1] == Skip && SampleEffects[2] == Skip && SampleEffects[3] == Skip
    ensures SampleEffects[4] == Skip && SampleEffects[10] == Skip
    ensures SampleEffects[5] == Draw(Text(Int(50), Int(50), Int(0), "Hello World", Int(12)))
    ensures SampleEffects[6] == Draw(Text(Int(50), Int(100), Int(0), "TSPL Label Design", Int(12)))
    ensures SampleEffects[7] == Draw(Barcode(Int(50), Int(150), Int(60), "12345678", "128"))
    ensures SampleEffects[8] == Draw(QrCode(Int(250), Int(50), Int(40), "https://example.com"))
    ensures SampleEffects[9] == Draw(Box(Int(40), Int(40), Int(410), Int(210), 2))
  {
  }

  lemma {:induction false} GapEffect()
    ensures LineEffect(GapText) == Success(Skip)
  {
    assert GapText == "GAP" + " 2 mm, 0 mm";
    IgnoredLine("GAP", " 2 mm, 0 mm");
  }

  lemma {:induction false} DirectionEffect()
    ensures LineEffect(DirectionText) == Success(Skip)
  {
    assert DirectionText == "DIRECTION" + " 1";
    IgnoredLine("DIRECTION", " 1");
  }

  lemma {:induction false} ReferenceEffect()
    ensures LineEffect(ReferenceText) == Success(Skip)
  {
    assert ReferenceText == "REFERENCE" + " 0,0";
    IgnoredLine("REFERENCE", " 0,0");
  }

  lemma {:induction false} ClsEffect()
    ensures LineEffect(ClsText) == Success(Skip)
  {
    assert ClsText == "CLS" + "";
    IgnoredLine("CLS", "");
  }

  lemma {:induction false} PrintEffect()
    ensures LineEffect(PrintText) == Success(Skip)
  {
    assert PrintText == "PRINT" + " 1,1";
    IgnoredLine("PRINT", " 1,1");
  }

  // ---------------------------------------------------------------------------
  // SIZE 100 mm, 60 mm
  // ---------------------------------------------------------------------------

  lemma {:induction false} SizeEffect()
    ensures LineEffect(SizeText) == Success(Resize(SampleSize))
  {
    SizeTokens();
    SizeEffectOf(SizeText);
  }

  /** A line cut into SIZE, 100, mm, 60, mm sets the size from 100 and 60, whatever its payload. */
  lemma {:induction false} SizeEffectOf(line: string)
    requires Tokens(line) == ["SIZE", "100"] + ["mm", "60", "mm"]
    ensures LineEffect(line) == Success(Resize(SampleSize))
  {
    var parts := Tokens(line);
    assert parts[0] == "SIZE" && parts[1] == "100" && parts[3] == "60";
    KeywordPlain("SIZE");
  }

  /** `SIZE 100 mm, 60 mm` cuts into SIZE, 100, mm, 60, mm. */
  lemma {:induction false} SizeTokens()
    ensures Tokens(SizeText) == ["SIZE", "100"] + ["mm", "60", "mm"]
  {
    var tail := "mm" + ", " + ("60" + " " + "mm");
    SizeSplit(tail);
    SizeTail(tail);
    assert tail[0] == 'm';
    SizeHead(tail);
  }

  lemma {:induction false} SizeSplit(tail: string)
    requires tail == "mm" + ", " + ("60" + " " + "mm")
    ensures SizeText == "SIZE" + " " + ("100" + " " + tail)
  {
  }

  lemma {:induction false} SizeHead(tail: string)
    requires tail != [] && tail[0] == 'm'
    ensures Tokens("SIZE" + " " + ("100" + " " + tail)) == ["SIZE", "100"] + Tokens(tail)
  {
    var mid := "100" + " " + tail;
    assert NoSeparator("100") && mid[0] == '1';
    TokensSpace("100", tail);
    KeywordPlain("SIZE");
    TokensSpace("SIZE", mid);
    assert ["SIZE"] + (["100"] + Tokens(tail)) == ["SIZE", "100"] + Tokens(tail);
  }

  /** A word, one space and text that starts with a visible character: the word is the first token. */
  lemma {:induction false} TokensSpace(w: string, r: string)
    requires w != [] && NoSeparator(w) && r != [] && !IsSeparator(r[0])
    ensures Tokens(w + " " + r) == [w] + Tokens(r)
  {
    TokensSep(w, " ", r);
  }

  lemma {:induction false} SizeTail(tail: string)
    requires tail == "mm" + ", " + ("60" + " " + "mm")
    ensures Tokens(tail) == ["mm", "60", "mm"]
  {
    TokensOfField("mm");
    TokensSep("60", " ", "mm");
    TokensSep("mm", ", ", "60" + " " + "mm");
  }

  // ---------------------------------------------------------------------------
  // TEXT 50,50,"3",0,1,1,"Hello World"
  // ---------------------------------------------------------------------------

  lemma {:induction false} HelloEffect()
    ensures LineEffect(HelloText) == Success(Draw(Text(Int(50), Int(50), Int(0), "Hello World", Int(12))))
  {
    assert NoSeparator("3") && NoQuote("3") && NoQuote("Hello World");
    HelloRendered();
    TextLineParses(50, 50, "3", 0, 1, 1, "Hello World");
  }

  lemma {:induction false} HelloRendered()
    ensures TextLine(50, 50, "3", 0, 1, 1, "Hello World") == HelloText
  {
    SmallInts();
    assert Quoted("3") == "\"3\"";
    assert Quoted("Hello World") == "\"Hello World\"";
    assert TextFields(50, 50, "3", 0, 1, 1) == ["50", "50", "\"3\"", "0", "1", "1"];
    HelloJoin();
    HelloNested();
  }

  lemma {:induction false} HelloJoin()
    ensures JoinFields(["50", "50", "\"3\"", "0", "1", "1"], "\"Hello World\"") ==
      "50" + "," + ("50" + "," + ("\"3\"" + "," + ("0" + "," + ("1" + "," + ("1" + "," + "\"Hello World\"")))))
  {
  }

  lemma {:induction false} HelloNested()
    ensures "TEXT" + " " + ("50" + "," + ("50" + "," + ("\"3\"" + "," + ("0" + "," + ("1" + "," + ("1" + "," + "\"Hello World\"")))))) == HelloText
  {
  }

  // ---------------------------------------------------------------------------
  // TEXT 50,100,"2",0,1,1,"TSPL Label Design"
  // ---------------------------------------------------------------------------

  lemma {:induction false} TitleEffect()
    ensures LineEffect(TitleText) == Success(Draw(Text(Int(50), Int(100), Int(0), "TSPL Label Design", Int(12))))
  {
    assert NoSeparator("2") && NoQuote("2") && NoQuote("TSPL Label Design");
    TitleRendered();
    TextLineParses(50, 100, "2", 0, 1, 1, "TSPL Label Design");
  }

  lemma {:induction false} TitleRendered()
    ensures TextLine(50, 100, "2", 0, 1, 1, "TSPL Label Design") == TitleText
  {
    SmallInts();
    LargeInts();
    assert Quoted("2") == "\"2\"";
    assert Quoted("TSPL Label Design") == "\"TSPL Label Design\"";
    assert TextFields(50, 100, "2", 0, 1, 1) == ["50", "100", "\"2\"", "0", "1", "1"];
    TitleJoin();
    TitleNested();
  }

  lemma {:induction false} TitleJoin()
    ensures JoinFields(["50", "100", "\"2\"", "0", "1", "1"], "\"TSPL Label Design\"") ==
      "50" + "," + ("100" + "," + ("\"2\"" + "," + ("0" + "," + ("1" + "," + ("1" + "," + "\"TSPL Label Design\"")))))
  {
  }

  lemma {:induction false} TitleNested()
    ensures "TEXT" + " " + ("50" + "," + ("100" + "," + ("\"2\"" + "," + ("0" + "," + ("1" + "," + ("1" + "," + "\"TSPL Label Design\"")))))) == TitleText
  {
  }

  // ---------------------------------------------------------------------------
  // BARCODE 50,150,"128",60,1,0,2,2,"12345678"
  // ---------------------------------------------------------------------------

  lemma {:induction false} BarcodeEffect()
    ensures LineEffect(BarcodeText) == Success(Draw(Barcode(Int(50), Int(150), Int(60), "12345678", "128")))
  {
    assert NoSeparator("128") && NoQuote("128") && NoQuote("12345678");
    BarcodeRendered();
    BarcodeLineParses(50, 150, "128", 60, 1, 0, 2, 2, "12345678");
  }

  lemma {:induction false} BarcodeRendered()
    ensures BarcodeLine(50, 150, "128", 60, 1, 0, 2, 2, "12345678") == BarcodeText
  {
    SmallInts();
    LargeInts();
    assert Quoted("128") == "\"128\"";
    assert Quoted("12345678") == "\"12345678\"";
    assert BarcodeFields(50, 150, "128", 60, 1, 0, 2, 2) == ["50", "150", "\"128\"", "60", "1", "0", "2", "2"];
    BarcodeJoin();
    BarcodeNested();
  }

  lemma {:induction false} BarcodeJoin()
    ensures JoinFields(["50", "150", "\"128\"", "60", "1", "0", "2", "2"], "\"12345678\"") ==
      "50" + "," + ("150" + "," + ("\"128\"" + "," + ("60" + "," + ("1" + "," + ("0" + "," + ("2" + "," + ("2" + "," + "\"12345678\"")))))))
  {
  }

  lemma {:induction false} BarcodeNested()
    ensures "BARCODE" + " " + ("50" + "," + ("150" + "," + ("\"128\"" + "," + ("60" + "," + ("1" + "," + ("0" + "," + ("2" + "," + ("2" + "," + "\"12345678\"")))))))) == BarcodeText
  {
  }

  // ---------------------------------------------------------------------------
  // QRCODE 250,50,H,4,A,0,"https://example.com"
  // ---------------------------------------------------------------------------

  lemma {:induction false} QrCodeEffect()
    ensures LineEffect(QrCodeText) == Success(Draw(QrCode(Int(250), Int(50), Int(40), "https://example.com")))
  {
    assert NoSeparator("H") && NoQuote("H") && NoSeparator("A") && NoQuote("A");
    assert NoQuote("https://example.com");
    QrCodeRendered();
    QrCodeLineParses(250, 50, "H", 4, "A", 0, "https://example.com");
  }

  lemma {:induction false} QrCodeRendered()
    ensures QrCodeLine(250, 50, "H", 4, "A", 0, "https://example.com") == QrCodeText
  {
    SmallInts();
    LargeInts();
    assert Quoted("https://example.com") == "\"https://example.com\"";
    assert QrCodeFields(250, 50, "H", 4, "A", 0) == ["250", "50", "H", "4", "A", "0"];
    QrCodeJoin();
    QrCodeNested();
  }

  lemma {:induction false} QrCodeJoin()
    ensures JoinFields(["250", "50", "H", "4", "A", "0"], "\"https://example.com\"") ==
      "250" + "," + ("50" + "," + ("H" + "," + ("4" + "," + ("A" + "," + ("0" + "," + "\"https://example.com\"")))))
  {
  }

  lemma {:induction false} QrCodeNested()
    ensures "QRCODE" + " " + ("250" + "," + ("50" + "," + ("H" + "," + ("4" + "," + ("A" + "," + ("0" + "," + "\"https://example.com\"")))))) == QrCodeText
  {
  }

  // ---------------------------------------------------------------------------
  // BOX 40,40,450,250,2
  // ---------------------------------------------------------------------------

  lemma {:induction false} BoxEffect()
    ensures LineEffect(BoxText) == Success(Draw(Box(Int(40), Int(40), Int(410), Int(210), 2)))
  {
    BoxRendered();
    BoxLineParses(40, 40, 450, 250, Some(2));
  }

  lemma {:induction false} BoxRendered()
    ensures BoxLine(40, 40, 450, 250, Some(2)) == BoxText
  {
    var fs := IntStrings([40, 40, 450, 250, 2]);
    BoxFields();
    assert fs[..4] == ["40", "40", "450", "250"] && fs[4] == "2";
    BoxJoin();
    BoxNested();
  }

  lemma {:induction false} BoxFields()
    ensures IntStrings([40, 40, 450, 250, 2]) == ["40", "40", "450", "250", "2"]
  {
    SmallInts();
    LargeInts();
  }

  lemma {:induction false} BoxJoin()
    ensures JoinFields(["40", "40", "450", "250"], "2") == "40" + "," + ("40" + "," + ("450" + "," + ("250" + "," + "2")))
  {
  }

  lemma {:induction false} BoxNested()
    ensures "BOX" + " " + ("40" + "," + ("40" + "," + ("450" + "," + ("250" + "," + "2")))) == BoxText
  {
  }

  /** The integers the program writes, as `String` writes them. */
  lemma {:induction false} SmallInts()
    ensures IntToString(0) == "0" && IntToString(1) == "1" && IntToString(2) == "2"
    ensures IntToString(4) == "4" && IntToString(40) == "40" && IntToString(50) == "50"
    ensures IntToString(60) == "60"
  {
  }

  lemma {:induction false} LargeInts()
    ensures IntToString(100) == "100" && IntToString(150) == "150"
    ensures IntToString(250) == "250" && IntToString(450) == "450"
  {
    assert ToDecimal(100) == ToDecimal(10) + [DigitChar(0)];
    assert ToDecimal(150) == ToDecimal(15) + [DigitChar(0)];
    assert ToDecimal(250) == ToDecimal(25) + [DigitChar(0)];
    assert ToDecimal(450) == ToDecimal(45) + [DigitChar(0)];
  }

  /** Applying the effects in order: SIZE sets the size, and each drawing line adds its element. */
  lemma {:induction false} SampleFold()
    ensures ApplyAll(SampleEffects) == Label(SampleElements, SampleSize)
  {
    var e := SampleEffects;
    var es := SampleElements;
    var start := Label([], DefaultSize);
    assert ApplyAll(e[..0]) == start;
    ApplyAllLast(e[..1], e[..0], e[0]);
    ApplyAllLast(e[..2], e[..1], e[1]);
    ApplyAllLast(e[..3], e[..2], e[2]);
    ApplyAllLast(e[..4], e[..3], e[3]);
    ApplyAllLast(e[..5], e[..4], e[4]);
    assert ApplyAll(e[..5]) == Label([], SampleSize);
    ApplyAllLast(e[..6], e[..5], e[5]);
    ApplyAllLast(e[..7], e[..6], e[6]);
    ApplyAllLast(e[..8], e[..7], e[7]);
    ApplyAllLast(e[..9], e[..8], e[8]);
    ApplyAllLast(e[..10], e[..9], e[9]);
    assert ApplyAll(e[..10]) == Label(es, SampleSize);
    ApplyAllLast(e, e[..10], e[10]);
  }
}
