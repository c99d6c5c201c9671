/**
 * Generated label records (backend/src/Models/TableModel.js): the record and its
 * defaults, the status enum, `markAsPrinted` on a loaded document, and the label
 * collection with its unique index on `code`.
 */
module TableModel {
  import opened Wrappers
  import opened LabelConfigModel

  datatype Status = Generated | Printed | Error

  function StatusName(s: Status): string {
    match s
    case Generated => "generated"
    case Printed => "printed"
    case Error => "error"
  }

  /** The schema's enum check on a status string. */
  function ParseStatus(s: string): (r: Option<Status>)
    ensures r.Some? ==> StatusName(r.value) == s
  {
    if s == "generated" then Some(Generated)
    else if s == "printed" then Some(Printed)
    else if s == "error" then Some(Error)
    else None
  }

  /** Exactly the three names pass the enum check, each to its own status. */
  lemma StatusRoundTrip(st: Status, s: string)
    ensures ParseStatus(StatusName(st)) == Some(st)
    ensures ParseStatus(s).None? <==> s !in {"generated", "printed", "error"}
  {
  }

  /** The fields a caller supplies for a new label; the schema fills in the rest. */
  datatype LabelDoc = LabelDoc(
    code: string,
    codeType: CodeType,
    configId: ObjectId,
    baseName: string,
    sequenceNumber: int,
    status: Option<Status>)

  /** A stored label document. */
  datatype LabelRecord = LabelRecord(
    code: string,
    codeType: CodeType,
    configId: ObjectId,
    printHistoryId: Option<ObjectId>,
    baseName: string,
    sequenceNumber: int,
    isPrinted: bool,
    printedAt: Option<Time>,
    printCount: int,
    status: Status,
    metadata: map<string, string>)

  /** Not printed yet: the state every new label starts in. */
  predicate IsUnprinted(r: LabelRecord) {
    !r.isPrinted && r.printedAt.None? && r.printCount == 0
  }

  /** The fields `markAsPrinted` must not touch agree. */
  predicate SameIdentity(a: LabelRecord, b: LabelRecord) {
    a.code == b.code && a.codeType == b.codeType && a.configId == b.configId &&
    a.printHistoryId == b.printHistoryId && a.baseName == b.baseName &&
    a.sequenceNumber == b.sequenceNumber && a.metadata == b.metadata
  }

  /** A new record: the supplied fields, then the schema defaults for the others. */
  function WithDefaults(d: LabelDoc): (r: LabelRecord)
    ensures IsUnprinted(r) && r.metadata == map[] && r.printHistoryId.None?
    ensures r.status == d.status.GetOr(Generated)
    ensures r.code == d.code && r.codeType == d.codeType && r.configId == d.configId
    ensures r.baseName == d.baseName && r.sequenceNumber == d.sequenceNumber
  {
    LabelRecord(d.code, d.codeType, d.configId, None, d.baseName, d.sequenceNumber,
                false, None, 0, d.status.GetOr(Generated), map[])
  }

  /** The state after `markAsPrinted` at time `now`. */
  function MarkedAsPrinted(r: LabelRecord, now: Time): (r': LabelRecord)
    ensures r'.isPrinted && r'.status == Printed && r'.printedAt == Some(now)
    ensures r'.printCount == r.printCount + 1
    ensures SameIdentity(r, r')
  {
    r.(isPrinted := true, printedAt := Some(now), printCount := r.printCount + 1, status := Printed)
  }

  /** `markAsPrinted` once per time in `times`, in order. */
  function MarkedAt(r: LabelRecord, times: seq<Time>): LabelRecord {
    if times == [] then r else MarkedAsPrinted(MarkedAt(r, times[..|times| - 1]), times[|times| - 1])
  }

  /**
   * Every call adds exactly one to the print count; after the first, the printed flag
   * and the status no longer change, the time is the latest call's, and the identity
   * fields are those of the original record.
   */
  lemma {:induction false} MarkedRepeatedly(r: LabelRecord, times: seq<Time>)
    ensures var r' := MarkedAt(r, times);
      && r'.printCount == r.printCount + |times|
      && SameIdentity(r, r')
      && (times == [] ==> r' == r)
      && (times != [] ==> r'.isPrinted && r'.status == Printed && r'.printedAt == Some(times[|times| - 1]))
  {
    if times != [] {
      MarkedRepeatedly(r, times[..|times| - 1]);
    }
  }

  /** A loaded label document; `markAsPrinted` updates it in place. */
  class GeneratedLabel {
    const code: string
    const codeType: CodeType
    const configId: ObjectId
    const printHistoryId: Option<ObjectId>
    const baseName: string
    const sequenceNumber: int
    const metadata: map<string, string>
    var isPrinted: bool
    var printedAt: Option<Time>
    var printCount: int
    var status: Status

    function Record(): LabelRecord
      reads this
    {
      LabelRecord(code, codeType, configId, printHistoryId, baseName, sequenceNumber,
                  isPrinted, printedAt, printCount, status, metadata)
    }

    /** A document for a stored record. */
    constructor (r: LabelRecord)
      ensures Record() == r
    {
      code, codeType, configId, printHistoryId := r.code, r.codeType, r.configId, r.printHistoryId;
      baseName, sequenceNumber, metadata := r.baseName, r.sequenceNumber, r.metadata;
      isPrinted, printedAt, printCount, status := r.isPrinted, r.printedAt, r.printCount, r.status;
    }

    /** `markAsPrinted`, with the current time passed in; saving is left to the store. */
    method MarkAsPrinted(now: Time)
      modifies this
      ensures Record() == MarkedAsPrinted(old(Record()), now)
    {
      isPrinted := true;
      printedAt := Some(now);
      printCount := printCount + 1;
      status := Printed;
    }
  }

  /** The duplicate-key error code of the unique index. */
  const DuplicateKey := 11000

  predicate HasCode(rows: seq<LabelRecord>, code: string) {
    exists i :: 0 <= i < |rows| && rows[i].code == code
  }

  /** The unique index on `code`: no two records share a code. */
  ghost predicate UniqueCodes(rows: seq<LabelRecord>) {
    forall i, j :: 0 <= i < j < |rows| ==> rows[i].code != rows[j].code
  }

  /**
   * An unordered `insertMany`: every document is tried in turn; one whose code is
   * already stored (or was inserted earlier in the batch) is refused, the others are
   * added with their defaults.
   */
  function InsertAll(rows: seq<LabelRecord>, docs: seq<LabelDoc>): seq<LabelRecord> {
    if docs == [] then rows
    else
      var before := InsertAll(rows, docs[..|docs| - 1]);
      var d := docs[|docs| - 1];
      if HasCode(before, d.code) then before else before + [WithDefaults(d)]
  }

  /** Inserting keeps the stored records as they were and adds only records made from the documents. */
  lemma {:induction false} InsertAllExtends(rows: seq<LabelRecord>, docs: seq<LabelDoc>)
    ensures var after := InsertAll(rows, docs);
      && |rows| <= |after| <= |rows| + |docs|
      && after[..|rows|] == rows
      && (forall i :: |rows| <= i < |after| ==> exists k :: 0 <= k < |docs| && after[i] == WithDefaults(docs[k]))
  {
    if docs != [] {
      var init := docs[..|docs| - 1];
      InsertAllExtends(rows, init);
      var before := InsertAll(rows, init);
      var after := InsertAll(rows, docs);
      forall i | |rows| <= i < |after|
        ensures exists k :: 0 <= k < |docs| && after[i] == WithDefaults(docs[k])
      {
        if i < |before| {
          var k :| 0 <= k < |init| && before[i] == WithDefaults(init[k]);
          assert docs[k] == init[k];
        } else {
          assert after[i] == WithDefaults(docs[|docs| - 1]);
        }
      }
    }
  }

  /** The unique index holds after inserting, and every document's code is then stored. */
  lemma {:induction false} InsertAllKeepsCodesUnique(rows: seq<LabelRecord>, docs: seq<LabelDoc>)
    requires UniqueCodes(rows)
    ensures UniqueCodes(InsertAll(rows, docs))
    ensures forall k :: 0 <= k < |docs| ==> HasCode(InsertAll(rows, docs), docs[k].code)
  {
    if docs != [] {
      var init := docs[..|docs| - 1];
      InsertAllKeepsCodesUnique(rows, init);
      var before := InsertAll(rows, init);
      var d := docs[|docs| - 1];
      var after := InsertAll(rows, docs);
      forall k | 0 <= k < |docs|
        ensures HasCode(after, docs[k].code)
      {
        if k < |docs| - 1 {
          assert docs[k] == init[k];
          var j :| 0 <= j < |before| && before[j].code == docs[k].code;
          assert after[j] == before[j];
        } else if !HasCode(before, d.code) {
          assert after[|before|].code == d.code;
        }
      }
    }
  }

  /** A batch of new, pairwise distinct codes is inserted whole, in order. */
  lemma {:induction false} InsertAllFresh(rows: seq<LabelRecord>, docs: seq<LabelDoc>)
    requires forall k :: 0 <= k < |docs| ==> !HasCode(rows, docs[k].code)
    requires forall k, l :: 0 <= k < l < |docs| ==> docs[k].code != docs[l].code
    ensures |InsertAll(rows, docs)| == |rows| + |docs|
    ensures forall k :: 0 <= k < |docs| ==> InsertAll(rows, docs)[|rows| + k] == WithDefaults(docs[k])
  {
    if docs != [] {
      var init := docs[..|docs| - 1];
      InsertAllFresh(rows, init);
      FreshCodeStaysFresh(rows, init, docs[|docs| - 1]);
      forall k | 0 <= k < |docs|
        ensures InsertAll(rows, docs)[|rows| + k] == WithDefaults(docs[k])
      {
        if k < |init| {
          assert docs[k] == init[k];
        }
      }
    }
  }

  /** A code that is neither stored nor in a fresh batch is still not stored after it. */
  lemma FreshCodeStaysFresh(rows: seq<LabelRecord>, init: seq<LabelDoc>, d: LabelDoc)
    requires !HasCode(rows, d.code)
    requires forall k :: 0 <= k < |init| ==> init[k].code != d.code
    requires |InsertAll(rows, init)| == |rows| + |init|
    requires forall k :: 0 <= k < |init| ==> InsertAll(rows, init)[|rows| + k] == WithDefaults(init[k])
    ensures !HasCode(InsertAll(rows, init), d.code)
  {
    InsertAllExtends(rows, init);
    var before := InsertAll(rows, init);
    forall j | 0 <= j < |before|
      ensures before[j].code != d.code
    {
      if j < |rows| {
        assert before[j] == rows[j];
      } else {
        assert before[j] == WithDefaults(init[j - |rows|]);
      }
    }
  }

  /** The label collection. */
  class LabelTable {
    var rows: seq<LabelRecord>

    ghost predicate Valid()
      reads this
    {
      UniqueCodes(rows)
    }

    constructor ()
      ensures Valid() && rows == []
    {
      rows := [];
    }

    /**
     * `codeExists`: whether a label with this code is stored. It is the collection's query;
     * `HasCode` is the same condition on a plain sequence, used by `InsertAll`.
     */
    function CodeExists(code: string): (b: bool)
      reads this
      ensures b <==> exists i :: 0 <= i < |rows| && rows[i].code == code
    {
      HasCode(rows, code)
    }

    /**
     * `insertMany(docs, { ordered: false })`: every document is tried; the error
     * reported is the duplicate-key error exactly when some document was refused.
     */
    method InsertMany(docs: seq<LabelDoc>) returns (err: Option<int>)
      requires Valid()
      modifies this
      ensures Valid()
      ensures rows == InsertAll(old(rows), docs)
      ensures err == if |rows| == |old(rows)| + |docs| then None else Some(DuplicateKey)
    {
      var i := 0;
      var refused := false;
      ghost var start := rows;
      while i < |docs|
        invariant 0 <= i <= |docs|
        invariant rows == InsertAll(start, docs[..i])
        invariant Valid()
        invariant |rows| <= |start| + i
        invariant refused <==> |rows| < |start| + i
      {
        assert docs[..i + 1][..i] == docs[..i];
        InsertAllExtends(start, docs[..i + 1]);
        InsertAllKeepsCodesUnique(start, docs[..i + 1]);
        if HasCode(rows, docs[i].code) {
          refused := true;
        } else {
          rows := rows + [WithDefaults(docs[i])];
        }
        i := i + 1;
      }
      assert docs[..i] == docs;
      err := if refused then Some(DuplicateKey) else None;
    }
  }
}
