/** The idempotency store: one record per key, claimed once and moved along a fixed table. */
module Idempotency {
  import opened Domain
  import opened Trading

  datatype RecordStatus = Claimed | Submitted | Succeeded | ProtectionFailed | Rejected | Unknown

  datatype Record = Record(
    key: string,
    request: OrderRequest,
    status: RecordStatus,
    report: Option<Report>,
    reason: string,
    version: nat,
    createdAt: Time,
    updatedAt: Time)

  function Successors(status: RecordStatus): set<RecordStatus> {
    match status
    case Claimed => {Submitted, RecordStatus.Rejected}
    case Submitted => {Succeeded, ProtectionFailed, RecordStatus.Rejected, Unknown}
    case Unknown => {Succeeded, ProtectionFailed, RecordStatus.Rejected}
    case Succeeded => {}
    case ProtectionFailed => {}
    case Rejected => {}
  }

  type Records = map<string, Record>

  function NewRecord(request: OrderRequest, now: Time): Record {
    Record(request.key, request, Claimed, None, "", 1, now, now)
  }

  function Changed(record: Record, status: RecordStatus, now: Time, report: Option<Report>, reason: string): Record {
    record.(status := status, report := if report.Some? then report else record.report, reason := reason,
            version := record.version + 1, updatedAt := now)
  }

  /** The records after an update, or the error the store raises. */
  function Updated(records: Records, key: string, status: RecordStatus, now: Time, report: Option<Report>,
                   reason: string)
    : Result<Records>
  {
    if key !in records then Err("unknown idempotency key")
    else if status !in Successors(records[key].status) then Err("invalid idempotency transition")
    else Ok(records[key := Changed(records[key], status, now, report, reason)])
  }

  class InMemoryIdempotencyStore {
    var records: Records

    constructor ()
      ensures records == map[]
    {
      records := map[];
    }

    /** The first claim of a key creates its record; every later claim returns that record unchanged. */
    method Claim(request: OrderRequest, now: Time) returns (record: Record, claimed: bool)
      modifies this
      ensures claimed == (request.key !in old(records))
      ensures records == if claimed then old(records)[request.key := NewRecord(request, now)] else old(records)
      ensures request.key in records && record == records[request.key]
    {
      if request.key in records {
        return records[request.key], false;
      }
      record, claimed := NewRecord(request, now), true;
      records := records[request.key := record];
    }

    method Get(key: string) returns (record: Option<Record>)
      ensures record == if key in records then Some(records[key]) else None
    {
      return if key in records then Some(records[key]) else None;
    }

    /** Moves a record along the table; anything else is refused and changes nothing. */
    method Update(key: string, status: RecordStatus, now: Time, report: Option<Report>, reason: string)
      returns (r: Result<Record>)
      modifies this
      ensures var updated := Updated(old(records), key, status, now, report, reason);
              && r.Ok? == updated.Ok?
              && (r.Ok? ==> records == updated.value && key in records && r.value == records[key])
              && (r.Err? ==> records == old(records) && r.error == updated.error)
    {
      if key !in records {
        return Err("unknown idempotency key");
      }
      var current := records[key];
      if status !in Successors(current.status) {
        return Err("invalid idempotency transition");
      }
      var changed := Changed(current, status, now, report, reason);
      records := records[key := changed];
      return Ok(changed);
    }
  }

  // ---------------------------------------------------------------------------
  // What no caller can break
  // ---------------------------------------------------------------------------

  predicate IsTerminal(status: RecordStatus) {
    Successors(status) == {}
  }

  /** A record is filed under its request's key, and its version fits its status: no record ever passes version 4. */
  predicate RecordOk(key: string, record: Record) {
    && key == record.key == record.request.key
    && match record.status
       case Claimed => record.version == 1
       case Submitted => record.version == 2
       case Unknown => record.version == 3
       case Rejected => 2 <= record.version <= 4
       case _ => 3 <= record.version <= 4
  }

  ghost predicate RecordsOk(records: Records) {
    forall key :: key in records ==> RecordOk(key, records[key])
  }

  /** What may become of a record: its request and claim time stay, and a final status never changes. */
  predicate Follows(before: Record, after: Record) {
    && after.key == before.key && after.request == before.request && after.createdAt == before.createdAt
    && (after == before || (before.version < after.version && !IsTerminal(before.status) && after.status != Claimed))
  }

  ghost predicate Extends(before: Records, after: Records) {
    forall key :: key in before ==> key in after && Follows(before[key], after[key])
  }

  lemma FollowsComposes(a: Record, b: Record, c: Record)
    requires Follows(a, b) && Follows(b, c)
    ensures Follows(a, c)
  {
    hide IsTerminal;
  }

  lemma ExtendsComposes(a: Records, b: Records, c: Records)
    requires Extends(a, b) && Extends(b, c)
    ensures Extends(a, c)
  {
    hide Follows;
    forall key | key in a
      ensures key in c && Follows(a[key], c[key])
    {
      FollowsComposes(a[key], b[key], c[key]);
    }
  }

  lemma UpdateKeeps(records: Records, key: string, status: RecordStatus, now: Time, report: Option<Report>,
                    reason: string)
    requires RecordsOk(records) && Updated(records, key, status, now, report, reason).Ok?
    ensures RecordsOk(Updated(records, key, status, now, report, reason).value)
    ensures Extends(records, Updated(records, key, status, now, report, reason).value)
  {
    var current := records[key];
    assert RecordOk(key, current);
    assert !IsTerminal(current.status) by {
      assert status in Successors(current.status);
    }
    assert status != Claimed;
    assert RecordOk(key, Changed(current, status, now, report, reason));
    assert Follows(current, Changed(current, status, now, report, reason));
    hide RecordOk, Follows, Changed;
  }

  lemma ClaimKeeps(records: Records, request: OrderRequest, now: Time)
    requires RecordsOk(records) && request.key !in records
    ensures RecordsOk(records[request.key := NewRecord(request, now)])
    ensures Extends(records, records[request.key := NewRecord(request, now)])
  {
    assert RecordOk(request.key, NewRecord(request, now));
    hide RecordOk;
  }
}
