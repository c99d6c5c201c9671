/**
 * The local logic of the label-configuration routes (backend/src/Routes/TableRoute.js):
 * validating and defaulting a new configuration, the `isTemplate` query filter, and
 * generating codes with the optional saving of one label record per code.
 */
module TableRoute {
  import opened Wrappers
  import opened JsString
  import opened Decimal
  import opened LabelConfigModel
  import opened TableModel

  /** The request body of `POST /`; an absent field is `None`. */
  datatype CreateRequest = CreateRequest(
    name: Option<string>,
    baseName: Option<string>,
    quantity: Option<int>,
    codeType: Option<string>,
    isTemplate: Option<bool>,
    createdBy: Option<string>)

  datatype HttpError = HttpError(status: int, error: string, message: Option<string>)

  const BadBaseName := HttpError(400, "Invalid base name format. Must end with numbers (e.g., PA00001)", None)

  /** The 500 answer of `POST /`; the message is the thrown error's, left abstract here. */
  const CreateFailed := HttpError(500, "Failed to create label configuration", None)

  /** `s || fallback` for a string field: an absent or empty string is falsy. */
  function OrDefault(s: Option<string>, fallback: string): (r: string)
    ensures s.Some? && s.value != [] ==> r == s.value
    ensures s.None? || s.value == [] ==> r == fallback
  {
    if s.Some? && s.value != [] then s.value else fallback
  }

  /**
   * `POST /`, with the configuration's id and the current time passed in. The base name
   * is matched as received when `trimFirst` is false (the route as written) and after
   * trimming when it is true (the corrected route). A missing base name throws inside
   * the handler (500); a base name that does not match answers 400. The schema then
   * trims `name` and `baseName` and validates: required `name`, `quantity` between 1
   * and 1000, `codeType` from the enum; a failure answers 500.
   */
  function CreateConfigWith(req: CreateRequest, id: ObjectId, now: Time, trimFirst: bool): Result<LabelConfig, HttpError> {
    if req.baseName.None? then Failure(CreateFailed)
    else
      var raw := req.baseName.value;
      match MatchBaseName(if trimFirst then Trim(raw) else raw)
      case None => Failure(BadBaseName)
      case Some(m) => SaveConfig(req, raw, m.digits, id, now)
  }

  /**
   * The schema's part of `POST /` for a base name `raw` whose digit group is `digits`:
   * defaults, trimming, validation, and the document that is saved.
   */
  function SaveConfig(req: CreateRequest, raw: string, digits: string, id: ObjectId, now: Time): (r: Result<LabelConfig, HttpError>)
    requires AllDigits(digits)
    ensures r.Failure? ==> r.error == CreateFailed
  {
    var name := Trim(OrDefault(req.name, "Config-" + raw));
    var codeType := ParseCodeType(OrDefault(req.codeType, "barcode"));
    if name == [] || req.quantity.None? || !(1 <= req.quantity.value <= 1000) || codeType.None? then
      Failure(CreateFailed)
    else
      Success(LabelConfig(
        id, name, Trim(raw), Value(digits, 10), req.quantity.value, codeType.value,
        DefaultLabelSize, req.isTemplate == Some(true), OrDefault(req.createdBy, "system"), now))
  }

  /** `POST /` as written: the base name is validated before the schema trims it. */
  function CreateConfigAsWritten(req: CreateRequest, id: ObjectId, now: Time): Result<LabelConfig, HttpError> {
    CreateConfigWith(req, id, now, false)
  }

  /** `POST /` corrected: the base name is validated as it will be stored. */
  function CreateConfig(req: CreateRequest, id: ObjectId, now: Time): Result<LabelConfig, HttpError> {
    CreateConfigWith(req, id, now, true)
  }

  /** A stored configuration whose start number is the one its own base name yields. */
  predicate CanGenerate(config: LabelConfig) {
    var m := MatchBaseName(config.baseName);
    m.Some? && AllDigits(m.value.digits) && config.startNumber == Value(m.value.digits, 10)
  }

  /** The answer of `POST /` for a request that passes every check. */
  lemma CreateConfigAccepted(req: CreateRequest, id: ObjectId, now: Time, trimFirst: bool, m: Split)
    requires req.baseName.Some?
    requires MatchBaseName(if trimFirst then Trim(req.baseName.value) else req.baseName.value) == Some(m)
    requires Trim(OrDefault(req.name, "Config-" + req.baseName.value)) != []
    requires req.quantity.Some? && 1 <= req.quantity.value <= 1000
    requires ParseCodeType(OrDefault(req.codeType, "barcode")).Some?
    ensures CreateConfigWith(req, id, now, trimFirst) == Success(LabelConfig(
      id, Trim(OrDefault(req.name, "Config-" + req.baseName.value)), Trim(req.baseName.value),
      Value(m.digits, 10), req.quantity.value, ParseCodeType(OrDefault(req.codeType, "barcode")).value,
      DefaultLabelSize, req.isTemplate == Some(true), OrDefault(req.createdBy, "system"), now))
  {
    var raw := req.baseName.value;
    assert AllDigits(m.digits);
    assert CreateConfigWith(req, id, now, trimFirst) == SaveConfig(req, raw, m.digits, id, now);
    SaveConfigAccepted(req, raw, m.digits, id, now);
  }

  lemma SaveConfigAccepted(req: CreateRequest, raw: string, digits: string, id: ObjectId, now: Time)
    requires AllDigits(digits)
    requires Trim(OrDefault(req.name, "Config-" + raw)) != []
    requires req.quantity.Some? && 1 <= req.quantity.value <= 1000
    requires ParseCodeType(OrDefault(req.codeType, "barcode")).Some?
    ensures SaveConfig(req, raw, digits, id, now) == Success(LabelConfig(
      id, Trim(OrDefault(req.name, "Config-" + raw)), Trim(raw),
      Value(digits, 10), req.quantity.value, ParseCodeType(OrDefault(req.codeType, "barcode")).value,
      DefaultLabelSize, req.isTemplate == Some(true), OrDefault(req.createdBy, "system"), now))
  {
  }

  /** One space before a digit run: the regular expression takes the space as the prefix. */
  lemma SplitOfSpaceThenDigits(d: string)
    requires AllDigits(d) && d != []
    ensures MatchBaseName(" " + d) == Some(Split(" ", d))
  {
    var s := " " + d;
    assert s[1..] == d;
    assert TrailingDigits(s) == |d| by {
      assert forall i :: 1 <= i < |s| ==> IsDigit(s[i]);
      assert !IsDigit(s[0]);
    }
    assert s[..1] == " ";
  }

  /** Trimming one leading space off a digit run leaves the digit run. */
  lemma TrimOfSpaceThenDigits(d: string)
    requires AllDigits(d) && d != []
    ensures Trim(" " + d) == d
  {
    var s := " " + d;
    assert LeadingSpaces(s) == 1 by {
      assert s[1..] == d;
    }
    assert TrimStart(s) == d;
    assert TrailingSpaces(d) == 0;
  }

  /** An all-digit base name of two or more digits splits after its first digit. */
  lemma SplitOfDigits(d: string)
    requires AllDigits(d) && |d| >= 2
    ensures MatchBaseName(d) == Some(Split(d[..1], d[1..]))
  {
    assert TrailingDigits(d) == |d|;
  }

  /** The default name for a base name of one space and digits has nothing to trim. */
  lemma DefaultNameTrimmed(d: string)
    requires AllDigits(d) && d != []
    ensures Trim("Config-" + (" " + d)) == "Config-" + (" " + d)
  {
    var name := "Config-" + (" " + d);
    assert IsTrimmed(name) by {
      assert name[0] == 'C';
      assert name[|name| - 1] == d[|d| - 1];
      assert IsDigit(d[|d| - 1]);
    }
    TrimFixedPoint(name);
  }

  /**
   * As written, any base name made of one space and then digits passes validation and
   * is stored without the space, with the start number of all its digits.
   */
  lemma AsWrittenAcceptsSpaceThenDigits(d: string, quantity: int)
    requires AllDigits(d) && d != [] && 1 <= quantity <= 1000
    ensures var r := CreateConfigAsWritten(CreateRequest(None, Some(" " + d), Some(quantity), None, None, None), 0, 0);
      r.Success? && r.value.baseName == d && r.value.startNumber == Value(d, 10)
  {
    SplitOfSpaceThenDigits(d);
    TrimOfSpaceThenDigits(d);
    var req := CreateRequest(None, Some(" " + d), Some(quantity), None, None, None);
    var name := "Config-" + (" " + d);
    assert OrDefault(req.name, "Config-" + req.baseName.value) == name;
    DefaultNameTrimmed(d);
    assert ParseCodeType(OrDefault(req.codeType, "barcode")) == Some(Barcode) by {
      assert OrDefault(req.codeType, "barcode") == "barcode";
    }
    CreateConfigAccepted(req, 0, 0, false, Split(" ", d));
    var c := LabelConfig(0, name, d, Value(d, 10), quantity, Barcode, DefaultLabelSize, false, "system", 0);
    assert CreateConfigWith(req, 0, 0, false) == Success(c);
    assert CreateConfigAsWritten(req, 0, 0) == Success(c);
  }

  /** As written, " 5" is accepted, and its stored base name "5" cannot generate any code. */
  lemma AsWrittenAcceptsUngeneratable()
    ensures var r := CreateConfigAsWritten(CreateRequest(None, Some(" 5"), Some(1), None, None, None), 0, 0);
      r.Success? && r.value.baseName == "5" && MatchBaseName(r.value.baseName).None?
  {
    var d := "5";
    assert AllDigits(d);
    assert " " + d == " 5";
    AsWrittenAcceptsSpaceThenDigits(d, 1);
  }

  /**
   * As written, " 199" is stored as "199" with the start number 199, while the generator
   * reads "199" as the prefix "1" and the digits "99".
   */
  lemma AsWrittenStartNumberDisagrees()
    ensures var r := CreateConfigAsWritten(CreateRequest(None, Some(" 199"), Some(2), None, None, None), 0, 0);
      r.Success? && r.value.startNumber == 199 && MatchBaseName(r.value.baseName) == Some(Split("1", "99"))
  {
    var d := "199";
    assert AllDigits(d) by {
      assert d[0] == '1' && d[1] == '9' && d[2] == '9';
    }
    assert " " + d == " 199";
    assert d[..1] == "1" && d[1..] == "99";
    assert Value(d, 10) == 199 by {
      assert d[..2] == "19" && "19"[..1] == "1";
    }
    AsWrittenAcceptsSpaceThenDigits(d, 2);
    SplitOfDigits(d);
  }

  /**
   * Corrected, every accepted configuration can generate its codes, and its stored
   * start number is the value of the digit group of the very split the generator uses.
   */
  lemma CreatedConfigCanGenerate(req: CreateRequest, id: ObjectId, now: Time)
    requires CreateConfig(req, id, now).Success?
    ensures CanGenerate(CreateConfig(req, id, now).value)
  {
    var t := Trim(req.baseName.value);
    TrimFixedPoint(t);
    TrimIdempotent(req.baseName.value);
  }

  /** Corrected `POST /` answers 400 exactly for the base names the generator would reject. */
  lemma CreateConfigRejectsExactly(req: CreateRequest, id: ObjectId, now: Time)
    requires req.baseName.Some?
    ensures MatchBaseName(Trim(req.baseName.value)).None? <==> CreateConfig(req, id, now) == Failure(BadBaseName)
  {
    assert CreateFailed != BadBaseName;
  }

  /**
   * An accepted configuration stores the trimmed base name and the quantity asked for,
   * and fills the defaults: name "Config-" + base name, code type "barcode", not a
   * template unless asked, created by "system", last used now.
   */
  lemma CreateConfigDefaults(req: CreateRequest, id: ObjectId, now: Time)
    requires CreateConfig(req, id, now).Success?
    ensures var c := CreateConfig(req, id, now).value;
      && c.baseName == Trim(req.baseName.value)
      && ((req.name.None? || req.name == Some([])) ==> c.name == Trim("Config-" + req.baseName.value))
      && ((req.codeType.None? || req.codeType == Some([])) ==> c.codeType == Barcode)
      && (c.isTemplate <==> req.isTemplate == Some(true))
      && ((req.createdBy.None? || req.createdBy == Some([])) ==> c.createdBy == "system")
      && req.quantity == Some(c.quantity) && 1 <= c.quantity <= 1000
      && c.lastUsed == now
  {
    var m := MatchBaseName(Trim(req.baseName.value)).value;
    CreateConfigAccepted(req, id, now, true, m);
  }

  /** The `isTemplate` query parameter: no filter when absent, else `true` only for "true". */
  function IsTemplateFilter(q: Option<string>): (f: Option<bool>)
    ensures f.None? <==> q.None?
    ensures f == Some(true) <==> q == Some("true")
  {
    if q.None? then None else Some(q.value == "true")
  }

  /** The label documents `POST /:id/generate` saves: one per code, in code order. */
  function LabelDocs(config: LabelConfig, codes: seq<string>): (docs: seq<LabelDoc>)
    ensures |docs| == |codes|
    ensures forall i :: 0 <= i < |codes| ==>
      docs[i] == LabelDoc(codes[i], config.codeType, config.id, config.baseName, config.startNumber + i, Some(Generated))
  {
    seq(|codes|, i requires 0 <= i < |codes| =>
      LabelDoc(codes[i], config.codeType, config.id, config.baseName, config.startNumber + i, Some(Generated)))
  }

  /**
   * For a configuration that can generate, each saved label's sequence number is the
   * numeric value of its code's digits, and the labels' codes are pairwise distinct.
   */
  lemma SequenceNumberIsCodeSuffix(config: LabelConfig, codes: seq<string>)
    requires CanGenerate(config)
    requires forall i :: 0 <= i < |codes| ==> codes[i] == CodeAt(MatchBaseName(config.baseName).value, i)
    ensures var m := MatchBaseName(config.baseName).value;
      var docs := LabelDocs(config, codes);
      && (forall i :: 0 <= i < |docs| ==>
            |m.prefix| <= |docs[i].code| && AllDigits(Suffix(m, docs[i].code)) &&
            docs[i].sequenceNumber == Value(Suffix(m, docs[i].code), 10))
      && (forall i, j :: 0 <= i < j < |docs| ==> docs[i].code != docs[j].code)
  {
    var m := MatchBaseName(config.baseName).value;
    forall i | 0 <= i < |codes|
      ensures |m.prefix| <= |codes[i]| && AllDigits(Suffix(m, codes[i]))
      ensures config.startNumber + i == Value(Suffix(m, codes[i]), 10)
    {
      CodeAtShape(m, i);
    }
    forall i, j | 0 <= i < j < |codes|
      ensures codes[i] != codes[j]
    {
      CodesIncreaseAndDiffer(m, i, j);
    }
  }

  /** The `.catch` after `insertMany`: a duplicate-key error is dropped, any other is rethrown. */
  function Rethrown(err: Option<int>): (r: Option<int>)
    ensures r.Some? <==> err.Some? && err.value != DuplicateKey
    ensures r.Some? ==> r == err
  {
    if err.Some? && err.value != DuplicateKey then err else None
  }

  /** The body of a successful `POST /:id/generate`. */
  datatype GenerateResponse = GenerateResponse(
    codes: seq<string>,
    count: int,
    configId: ObjectId,
    name: string,
    baseName: string,
    codeType: CodeType)

  const GenerateFailed := HttpError(500, "Failed to generate codes", Some(InvalidBaseName))

  /**
   * `POST /:id/generate` on a configuration already found, with `saveToDB` as sent
   * (only the boolean `true` saves) and the current time passed in. The generator's
   * error answers 500 before anything changes. Otherwise the labels are inserted when
   * asked (refused duplicates are ignored), `lastUsed` is set, and the answer lists the
   * codes with their count.
   */
  method GenerateRoute(config: LabelConfig, saveToDB: Option<bool>, table: LabelTable, now: Time)
    returns (r: Result<GenerateResponse, HttpError>, saved: LabelConfig)
    requires table.Valid()
    modifies table
    ensures table.Valid()
    ensures r.Failure? <==> MatchBaseName(config.baseName).None?
    ensures r.Failure? ==> r.error == GenerateFailed && table.rows == old(table.rows) && saved == config
    ensures r.Success? ==>
      var m := MatchBaseName(config.baseName).value;
      var codes := r.value.codes;
      && r.value.count == |codes|
      && |codes| == (if config.quantity > 0 then config.quantity else 0)
      && (forall i :: 0 <= i < |codes| ==> codes[i] == CodeAt(m, i))
      && table.rows == (if saveToDB == Some(true) then InsertAll(old(table.rows), LabelDocs(config, codes)) else old(table.rows))
      && saved == config.(lastUsed := now)
      && r.value.configId == config.id && r.value.name == config.name
      && r.value.baseName == config.baseName && r.value.codeType == config.codeType
  {
    var generated := GenerateCodes(config);
    if generated.Failure? {
      return Failure(GenerateFailed), config;
    }
    var codes := generated.value;
    if saveToDB == Some(true) {
      var labelDocs := LabelDocs(config, codes);
      var err := table.InsertMany(labelDocs);
      var rethrown := Rethrown(err);
      if rethrown.Some? {
        assert false;
      }
    }
    saved := config.(lastUsed := now);
    r := Success(GenerateResponse(codes, |codes|, config.id, config.name, config.baseName, config.codeType));
  }
}
