/** Restart recovery: the ledger is brought to what a healthy broker holds. */
module Reconciliation {
  import opened Domain
  import opened Trading
  import opened MockBroker

  datatype LedgerStatus = Open | Closed | Pending | Cancelled

  datatype Entry<T> = Entry(item: T, status: LedgerStatus, recovered: bool, updatedAt: Time)

  datatype Incident = Incident(code: string, ticket: string, detail: string)

  /** How one kind of ledger entry is labelled while it lives, once it is gone, and in incidents. */
  datatype Kind = Kind(live: LedgerStatus, dead: LedgerStatus, restored: (string, string), drifted: (string, string),
                       lost: (string, string))

  const POSITIONS := Kind(Open, LedgerStatus.Closed,
                          ("BROKER_POSITION_RECOVERED", "broker position restored to ledger"),
                          ("POSITION_DRIFT_REPAIRED", "broker values replaced ledger values"),
                          ("LEDGER_POSITION_MARKED_CLOSED", "position absent at healthy broker"))

  const ORDERS := Kind(LedgerStatus.Pending, LedgerStatus.Cancelled,
                       ("BROKER_ORDER_RECOVERED", "broker order restored to ledger"),
                       ("ORDER_DRIFT_REPAIRED", "broker values replaced ledger values"),
                       ("LEDGER_ORDER_MARKED_CANCELLED", "order absent at healthy broker"))

  predicate Distinct(keys: seq<string>) {
    forall i, j :: 0 <= i < j < |keys| ==> keys[i] != keys[j]
  }

  // ---------------------------------------------------------------------------
  // What reconciling does to one ticket
  // ---------------------------------------------------------------------------

  predicate Restores<T(==)>(entries: map<string, Entry<T>>, held: map<string, T>, kind: Kind, ticket: string) {
    ticket in held && (ticket !in entries || entries[ticket].status == kind.dead)
  }

  predicate Drifts<T(==)>(entries: map<string, Entry<T>>, held: map<string, T>, kind: Kind, ticket: string) {
    ticket in held && ticket in entries && entries[ticket].status != kind.dead && entries[ticket].item != held[ticket]
  }

  predicate Loses<T(==)>(entries: map<string, Entry<T>>, held: map<string, T>, kind: Kind, ticket: string) {
    ticket !in held && ticket in entries && entries[ticket].status == kind.live
  }

  function After<T(==)
    >(entries: map<string, Entry<T>>, held: map<string, T>, kind: Kind, now: Time, ticket: string): Entry<T>
    requires ticket in held || ticket in entries
  {
    if Restores(entries, held, kind, ticket) then Entry(held[ticket], kind.live, true, now)
    else if Drifts(entries, held, kind, ticket) then entries[ticket].(item := held[ticket], updatedAt := now)
    else if Loses(entries, held, kind, ticket) then entries[ticket].(status := kind.dead, updatedAt := now)
    else entries[ticket]
  }

  function Reconciled<T(==)
    >(entries: map<string, Entry<T>>, held: map<string, T>, kind: Kind, now: Time): map<string, Entry<T>>
  {
    map ticket | ticket in entries.Keys + held.Keys :: After(entries, held, kind, now, ticket)
  }

  function IncidentsAt<T(==)
    >(entries: map<string, Entry<T>>, held: map<string, T>, kind: Kind, ticket: string): seq<Incident>
  {
    if Restores(entries, held, kind, ticket) then [Incident(kind.restored.0, ticket, kind.restored.1)]
    else if Drifts(entries, held, kind, ticket) then [Incident(kind.drifted.0, ticket, kind.drifted.1)]
    else if Loses(entries, held, kind, ticket) then [Incident(kind.lost.0, ticket, kind.lost.1)]
    else []
  }

  function IncidentsOver<T(==)
    >(entries: map<string, Entry<T>>, held: map<string, T>, kind: Kind, tickets: seq<string>): seq<Incident>
  {
    if tickets == [] then []
    else
      var last := |tickets| - 1;
      IncidentsOver(entries, held, kind, tickets[..last]) + IncidentsAt(entries, held, kind, tickets[last])
  }

  /** The ledger's tickets that are absent at the broker, in ledger order; the broker's own tickets come first. */
  function Absent<T>(held: map<string, T>, tickets: seq<string>): seq<string> {
    if tickets == [] then []
    else
      var last := |tickets| - 1;
      Absent(held, tickets[..last]) + if tickets[last] in held then [] else [tickets[last]]
  }

  /**
   * The incidents of one run over one table: the broker's tickets in its order, then the absent ones in ledger order.
   */
  function TableIncidents<T(==)
    >(entries: map<string, Entry<T>>, order: seq<string>, held: map<string, T>, tickets: seq<string>, kind: Kind)
    : seq<Incident>
  {
    IncidentsOver(entries, held, kind, tickets) + IncidentsOver(entries, held, kind, Absent(held, order))
  }

  function Live<T(==)>(entries: map<string, Entry<T>>, kind: Kind): set<string> {
    set ticket | ticket in entries && entries[ticket].status == kind.live
  }

  // ---------------------------------------------------------------------------
  // Convergence
  // ---------------------------------------------------------------------------

  /** No broker ticket is filed under a status that belongs to the other kind of entry. */
  predicate WellFiled<T(==)>(entries: map<string, Entry<T>>, held: map<string, T>, kind: Kind) {
    forall ticket :: ticket in held && ticket in entries ==> entries[ticket].status in {kind.live, kind.dead}
  }

  /** The live tickets and their values are exactly the broker's. */
  predicate Mirrors<T(==)>(entries: map<string, Entry<T>>, held: map<string, T>, kind: Kind) {
    && Live(entries, kind) == held.Keys
    && forall ticket :: ticket in held ==> ticket in entries && entries[ticket].item == held[ticket]
  }

  lemma AfterFacts<T>(entries: map<string, Entry<T>>, held: map<string, T>, kind: Kind, now: Time, ticket: string)
    requires kind.live != kind.dead && (ticket in held || ticket in entries)
    ensures ticket in held ==> After(entries, held, kind, now, ticket).item == held[ticket]
    ensures After(entries, held, kind, now, ticket).status == kind.live <==>
            ticket in held && (ticket in entries ==> entries[ticket].status in {kind.live, kind.dead})
  {
  }

  /** Reconciling makes the ledger mirror the broker exactly when the broker's tickets are well filed. */
  lemma MirrorsIffWellFiled<T(!new)>(entries: map<string, Entry<T>>, held: map<string, T>, kind: Kind, now: Time)
    requires kind.live != kind.dead
    ensures Mirrors(Reconciled(entries, held, kind, now), held, kind) <==> WellFiled(entries, held, kind)
  {
    hide After;
    var after := Reconciled(entries, held, kind, now);
    forall ticket | ticket in after
      ensures ticket in held ==> after[ticket].item == held[ticket]
      ensures ticket in Live(after, kind) <==>
              ticket in held && (ticket in entries ==> entries[ticket].status in {kind.live, kind.dead})
    {
      AfterFacts(entries, held, kind, now, ticket);
    }
    if Mirrors(after, held, kind) {
      forall ticket | ticket in held && ticket in entries
        ensures entries[ticket].status in {kind.live, kind.dead}
      {
        assert ticket in Live(after, kind);
      }
    }
    if WellFiled(entries, held, kind) {
      assert forall ticket :: ticket in held ==> ticket in after;
      assert Live(after, kind) == held.Keys;
    }
  }

  /** A position whose ledger entry is filed as a cancelled order keeps that status, whatever the broker holds. */
  lemma MisfiledIsNotMirrored(position: Position, recovered: bool, filedAt: Time, now: Time)
    ensures var entries := map[position.ticket := Entry(position, LedgerStatus.Cancelled, recovered, filedAt)];
            var held := map[position.ticket := position];
            Reconciled(entries, held, POSITIONS, now) == entries && !Mirrors(entries, held, POSITIONS)
  {
    var entries := map[position.ticket := Entry(position, LedgerStatus.Cancelled, recovered, filedAt)];
    var held := map[position.ticket := position];
    assert Reconciled(entries, held, POSITIONS, now) == entries;
    assert position.ticket in held.Keys && position.ticket !in Live(entries, POSITIONS);
  }

  /** Every entry is live or dead of its own kind. */
  predicate Filed<T(==)>(entries: map<string, Entry<T>>, kind: Kind) {
    forall ticket :: ticket in entries ==> entries[ticket].status in {kind.live, kind.dead}
  }

  lemma FiledStays<T(!new)>(entries: map<string, Entry<T>>, held: map<string, T>, kind: Kind, now: Time)
    requires kind.live != kind.dead && Filed(entries, kind)
    ensures Filed(Reconciled(entries, held, kind, now), kind)
            && Mirrors(Reconciled(entries, held, kind, now), held, kind)
  {
    MirrorsIffWellFiled(entries, held, kind, now);
    hide Mirrors;
  }

  /** The ledger after healthy runs that found these holdings at these times. */
  function AfterRuns<T(==)>(entries: map<string, Entry<T>>, runs: seq<(map<string, T>, Time)>, kind: Kind)
    : map<string, Entry<T>>
  {
    if runs == [] then entries
    else
      var last := runs[|runs| - 1];
      Reconciled(AfterRuns(entries, runs[..|runs| - 1], kind), last.0, kind, last.1)
  }

  /**
   * A ledger that starts empty and is written only by reconciliation mirrors, after every healthy run, what that run
   * found at the broker, and still holds every ticket that any run found.
   */
  lemma {:induction false} OwnLedgerMirrors<T(!new)>(runs: seq<(map<string, T>, Time)>, kind: Kind)
    requires kind.live != kind.dead
    ensures var ledger := AfterRuns<T>(map[], runs, kind);
            && Filed(ledger, kind)
            && (runs != [] ==> Mirrors(ledger, runs[|runs| - 1].0, kind))
            && (forall ticket :: ticket in ledger <==> Found(runs, ticket))
  {
    if runs != [] {
      var front, last := runs[..|runs| - 1], runs[|runs| - 1];
      OwnLedgerMirrors(front, kind);
      var before := AfterRuns<T>(map[], front, kind);
      FiledStays(before, last.0, kind, last.1);
      hide Mirrors, Filed, After;
      forall ticket
        ensures Found(runs, ticket) <==> Found(front, ticket) || ticket in last.0
      {
        FoundGrows(front, last, ticket);
        assert runs == front + [last];
      }
    }
  }

  /** Some run found the ticket at the broker. */
  ghost predicate Found<T>(runs: seq<(map<string, T>, Time)>, ticket: string) {
    exists i :: 0 <= i < |runs| && ticket in runs[i].0
  }

  lemma FoundGrows<T>(runs: seq<(map<string, T>, Time)>, last: (map<string, T>, Time), ticket: string)
    ensures Found(runs + [last], ticket) <==> Found(runs, ticket) || ticket in last.0
  {
    assert (runs + [last])[|runs|] == last;
    if Found(runs, ticket) {
      var i :| 0 <= i < |runs| && ticket in runs[i].0;
      assert (runs + [last])[i] == runs[i];
    }
  }

  /** A second run against the same broker state finds nothing to do, at any later time. */
  lemma SecondRunIsSilent<T(!new)
    >(entries: map<string, Entry<T>>, held: map<string, T>, kind: Kind, now: Time, later: Time, tickets: seq<string>)
    requires kind.live != kind.dead
    ensures var after := Reconciled(entries, held, kind, now);
            && Reconciled(after, held, kind, later) == after && IncidentsOver(after, held, kind, tickets) == []
            && Restored(after, held, kind, tickets) == 0 && Lost(after, held, kind, tickets) == 0
  {
    var after := Reconciled(entries, held, kind, now);
    forall ticket | ticket in after
      ensures IncidentsAt(after, held, kind, ticket) == [] && After(after, held, kind, later, ticket) == after[ticket]
    {
      SilentAt(entries, held, kind, now, ticket);
      assert after[ticket] == After(entries, held, kind, now, ticket);
    }
    hide After;
    assert held.Keys <= after.Keys;
    assert Reconciled(after, held, kind, later) == after;
    forall ticket | ticket !in after
      ensures IncidentsAt(after, held, kind, ticket) == []
    {
    }
    NothingOver(after, held, kind, tickets);
  }

  lemma SilentAt<T(!new)>(entries: map<string, Entry<T>>, held: map<string, T>, kind: Kind, now: Time, ticket: string)
    requires kind.live != kind.dead && (ticket in held || ticket in entries)
    ensures var settled := After(entries, held, kind, now, ticket);
            ticket in held ==> settled.status != kind.dead && settled.item == held[ticket]
    ensures ticket !in held ==> After(entries, held, kind, now, ticket).status != kind.live
  {
  }

  lemma {:induction false} NothingOver<T(!new)
    >(entries: map<string, Entry<T>>, held: map<string, T>, kind: Kind, tickets: seq<string>)
    requires forall ticket :: IncidentsAt(entries, held, kind, ticket) == []
    ensures IncidentsOver(entries, held, kind, tickets) == []
    ensures Restored(entries, held, kind, tickets) == 0 && Lost(entries, held, kind, tickets) == 0
  {
    if tickets != [] {
      assert IncidentsAt(entries, held, kind, tickets[|tickets| - 1]) == [];
      NothingOver(entries, held, kind, tickets[..|tickets| - 1]);
    }
  }

  // ---------------------------------------------------------------------------
  // The ledger
  // ---------------------------------------------------------------------------

  /** A dictionary of entries that remembers the order in which its keys first arrived. */
  class LedgerTable<T(==)> {
    var entries: map<string, Entry<T>>
    var order: seq<string>

    constructor ()
      ensures Valid() && entries == map[]
    {
      entries, order := map[], [];
    }

    ghost predicate Valid()
      reads this
    {
      Distinct(order) && forall ticket :: ticket in order <==> ticket in entries
    }

    method Upsert(ticket: string, entry: Entry<T>)
      requires Valid()
      modifies this
      ensures Valid() && entries == old(entries)[ticket := entry]
      ensures order == if ticket in old(entries) then old(order) else old(order) + [ticket]
    {
      if ticket !in entries {
        order := order + [ticket];
      }
      entries := entries[ticket := entry];
    }
  }

  /** The entries while only some tickets have been dealt with. */
  ghost predicate Partly<T>(entries: map<string, Entry<T>>, before: map<string, Entry<T>>, held: map<string, T>,
                            kind: Kind, now: Time, done: set<string>)
  {
    && entries.Keys == before.Keys + (done * held.Keys)
    && forall ticket :: ticket in entries ==>
         entries[ticket] == if ticket in done then After(before, held, kind, now, ticket) else before[ticket]
  }

  lemma PartlyWrites<T>(entries: map<string, Entry<T>>, before: map<string, Entry<T>>, held: map<string, T>, kind: Kind,
                        now: Time, done: set<string>, ticket: string)
    requires Partly(entries, before, held, kind, now, done) && (ticket in held || ticket in before)
    ensures Partly(entries[ticket := After(before, held, kind, now, ticket)], before, held, kind, now, done + {ticket})
  {
    hide After;
  }

  lemma PartlySkips<T>(entries: map<string, Entry<T>>, before: map<string, Entry<T>>, held: map<string, T>, kind: Kind,
                       now: Time, done: set<string>, ticket: string)
    requires Partly(entries, before, held, kind, now, done) && ticket in before
    requires After(before, held, kind, now, ticket) == before[ticket]
    ensures Partly(entries, before, held, kind, now, done + {ticket})
  {
    hide After;
  }

  lemma Untouched<T>(entries: map<string, Entry<T>>, before: map<string, Entry<T>>, held: map<string, T>, kind: Kind,
                     now: Time, done: set<string>, ticket: string)
    requires Partly(entries, before, held, kind, now, done) && ticket !in done
    ensures ticket in entries <==> ticket in before
    ensures ticket in before ==> entries[ticket] == before[ticket]
  {
    hide After;
  }

  lemma PartlyAll<T>(entries: map<string, Entry<T>>, before: map<string, Entry<T>>, held: map<string, T>, kind: Kind,
                     now: Time, done: set<string>)
    requires Partly(entries, before, held, kind, now, done) && before.Keys + held.Keys <= done
    ensures entries == Reconciled(before, held, kind, now)
  {
    hide After;
  }

  function Weight(live: bool): int {
    if live then 1 else 0
  }

  /** Writing one entry changes the number of live tickets by what that entry was and became. */
  lemma LiveAfterWrite<T>(entries: map<string, Entry<T>>, kind: Kind, ticket: string, entry: Entry<T>)
    ensures |Live(entries[ticket := entry], kind)| ==
            |Live(entries, kind)| - Weight(ticket in Live(entries, kind)) + Weight(entry.status == kind.live)
  {
    var rest := Live(entries, kind) - {ticket};
    assert Live(entries[ticket := entry], kind) == if entry.status == kind.live then rest + {ticket} else rest;
    assert ticket in Live(entries, kind) ==> Live(entries, kind) == rest + {ticket};
    assert ticket !in Live(entries, kind) ==> Live(entries, kind) == rest;
  }

  /** Brings the entry of a ticket the broker holds to the broker's value. */
  method Adopt<T(==)>(table: LedgerTable<T>, local: map<string, Entry<T>>, held: map<string, T>, kind: Kind, now: Time,
                      ticket: string, ghost done: set<string>)
    returns (incidents: seq<Incident>, recovered: bool)
    requires table.Valid() && kind.live != kind.dead && ticket in held && ticket !in done
    requires Partly(table.entries, local, held, kind, now, done)
    modifies table
    ensures table.Valid() && Partly(table.entries, local, held, kind, now, done + {ticket})
    ensures incidents == IncidentsAt(local, held, kind, ticket) && recovered == Restores(local, held, kind, ticket)
    ensures |Live(table.entries, kind)| == |Live(old(table.entries), kind)| + Weight(recovered)
  {
    hide Partly, LedgerTable.Valid;
    incidents, recovered := [], false;
    ghost var settled := After(local, held, kind, now, ticket);
    Untouched(table.entries, local, held, kind, now, done, ticket);
    PartlyWrites(table.entries, local, held, kind, now, done, ticket);
    LiveAfterWrite(table.entries, kind, ticket, settled);
    if ticket !in local || local[ticket].status == kind.dead {
      table.Upsert(ticket, Entry(held[ticket], kind.live, true, now));
      incidents, recovered := [Incident(kind.restored.0, ticket, kind.restored.1)], true;
    } else if local[ticket].item != held[ticket] {
      table.Upsert(ticket, local[ticket].(item := held[ticket], updatedAt := now));
      incidents := [Incident(kind.drifted.0, ticket, kind.drifted.1)];
    } else {
      PartlySkips(table.entries, local, held, kind, now, done, ticket);
    }
  }

  /** Retires the entry of a live ticket that the broker no longer holds. */
  method Retire<T(==)>(table: LedgerTable<T>, local: map<string, Entry<T>>, held: map<string, T>, kind: Kind, now: Time,
                       ticket: string, ghost done: set<string>)
    returns (incidents: seq<Incident>, lost: bool)
    requires table.Valid() && kind.live != kind.dead && ticket in local && (ticket in held <==> ticket in done)
    requires Partly(table.entries, local, held, kind, now, done)
    modifies table
    ensures table.Valid() && Partly(table.entries, local, held, kind, now, done + {ticket})
    ensures incidents == (if ticket in held then [] else IncidentsAt(local, held, kind, ticket))
    ensures lost == Loses(local, held, kind, ticket)
    ensures |Live(table.entries, kind)| == |Live(old(table.entries), kind)| - Weight(lost)
  {
    hide Partly, LedgerTable.Valid;
    incidents, lost := [], false;
    if local[ticket].status == kind.live && ticket !in held {
      ghost var settled := After(local, held, kind, now, ticket);
      Untouched(table.entries, local, held, kind, now, done, ticket);
      PartlyWrites(table.entries, local, held, kind, now, done, ticket);
      LiveAfterWrite(table.entries, kind, ticket, settled);
      table.Upsert(ticket, local[ticket].(status := kind.dead, updatedAt := now));
      incidents, lost := [Incident(kind.lost.0, ticket, kind.lost.1)], true;
    } else if ticket in held {
      assert done + {ticket} == done;
    } else {
      PartlySkips(table.entries, local, held, kind, now, done, ticket);
    }
  }

  function Restored<T(==)>(entries: map<string, Entry<T>>, held: map<string, T>, kind: Kind, tickets: seq<string>): nat
  {
    if tickets == [] then 0
    else
      var last := |tickets| - 1;
      Restored(entries, held, kind, tickets[..last]) + if Restores(entries, held, kind, tickets[last]) then 1 else 0
  }

  function Lost<T(==)>(entries: map<string, Entry<T>>, held: map<string, T>, kind: Kind, tickets: seq<string>): nat {
    if tickets == [] then 0
    else
      var last := |tickets| - 1;
      Lost(entries, held, kind, tickets[..last]) + if Loses(entries, held, kind, tickets[last]) then 1 else 0
  }

  function SetOf(tickets: seq<string>): set<string> {
    set ticket | ticket in tickets
  }

  lemma SetGrows(tickets: seq<string>, i: nat)
    requires i < |tickets|
    ensures SetOf(tickets[..i + 1]) == SetOf(tickets[..i]) + {tickets[i]} && tickets[..i + 1][..i] == tickets[..i]
    ensures Distinct(tickets) ==> tickets[i] !in SetOf(tickets[..i])
  {
    assert tickets[..i + 1] == tickets[..i] + [tickets[i]];
  }

  /** The first pass: every ticket the broker holds is adopted. */
  method AdoptAll<T(==)>(table: LedgerTable<T>, held: map<string, T>, tickets: seq<string>, kind: Kind, now: Time)
    returns (incidents: seq<Incident>, recovered: nat)
    requires table.Valid() && kind.live != kind.dead && Distinct(tickets) && SetOf(tickets) == held.Keys
    modifies table
    ensures table.Valid() && Partly(table.entries, old(table.entries), held, kind, now, held.Keys)
    ensures incidents == IncidentsOver(old(table.entries), held, kind, tickets)
    ensures recovered == Restored(old(table.entries), held, kind, tickets)
    ensures |Live(table.entries, kind)| == |Live(old(table.entries), kind)| + recovered
  {
    hide Partly, LedgerTable.Valid, IncidentsAt, Live, SetOf, Distinct;
    var local := table.entries;
    incidents, recovered := [], 0;
    PartlyNone(local, held, kind, now);
    assert SetOf(tickets[..0]) == {} by {
      SetOfNone(tickets);
    }
    for i := 0 to |tickets|
      invariant table.Valid() && Partly(table.entries, local, held, kind, now, SetOf(tickets[..i]))
      invariant incidents == IncidentsOver(local, held, kind, tickets[..i])
      invariant recovered == Restored(local, held, kind, tickets[..i])
      invariant |Live(table.entries, kind)| == |Live(local, kind)| + recovered
    {
      SetGrows(tickets, i);
      assert tickets[i] in held by {
        Member(tickets, i);
      }
      var found, restored := Adopt(table, local, held, kind, now, tickets[i], SetOf(tickets[..i]));
      incidents := incidents + found;
      if restored {
        recovered := recovered + 1;
      }
    }
    assert tickets[..|tickets|] == tickets;
  }

  lemma Member(tickets: seq<string>, i: nat)
    requires i < |tickets|
    ensures tickets[i] in SetOf(tickets)
  {
  }

  lemma SetOfNone(tickets: seq<string>)
    ensures SetOf(tickets[..0]) == {}
  {
  }

  lemma PartlyNone<T>(entries: map<string, Entry<T>>, held: map<string, T>, kind: Kind, now: Time)
    ensures Partly(entries, entries, held, kind, now, {})
  {
  }

  /** The second pass: every live entry the broker does not hold is retired. */
  method RetireAll<T(==)
    >(table: LedgerTable<T>, local: map<string, Entry<T>>, order: seq<string>, held: map<string, T>, kind: Kind,
      now: Time)
    returns (incidents: seq<Incident>, dropped: nat)
    requires table.Valid() && kind.live != kind.dead && Distinct(order) && SetOf(order) == local.Keys
    requires Partly(table.entries, local, held, kind, now, held.Keys)
    modifies table
    ensures table.Valid() && table.entries == Reconciled(local, held, kind, now)
    ensures incidents == IncidentsOver(local, held, kind, Absent(held, order))
    ensures dropped == Lost(local, held, kind, order)
    ensures |Live(table.entries, kind)| == |Live(old(table.entries), kind)| - dropped
  {
    hide Partly, LedgerTable.Valid, IncidentsAt, Live, Distinct, Loses, Reconciled;
    incidents, dropped := [], 0;
    assert held.Keys + SetOf(order[..0]) == held.Keys;
    for i := 0 to |order|
      invariant table.Valid() && Partly(table.entries, local, held, kind, now, held.Keys + SetOf(order[..i]))
      invariant incidents == IncidentsOver(local, held, kind, Absent(held, order[..i]))
      invariant dropped == Lost(local, held, kind, order[..i])
      invariant |Live(table.entries, kind)| == |Live(old(table.entries), kind)| - dropped
    {
      SetGrows(order, i);
      assert order[i] in local by {
        Member(order, i);
      }
      ghost var done := held.Keys + SetOf(order[..i]);
      assert order[i] in held <==> order[i] in done;
      var found, lost := Retire(table, local, held, kind, now, order[i], done);
      AbsentGrows(local, held, kind, order, i);
      incidents := incidents + found;
      if lost {
        dropped := dropped + 1;
      }
      assert done + {order[i]} == held.Keys + SetOf(order[..i + 1]);
    }
    assert order[..|order|] == order;
    PartlyAll(table.entries, local, held, kind, now, held.Keys + SetOf(order));
  }

  lemma AbsentGrows<T>(entries: map<string, Entry<T>>, held: map<string, T>, kind: Kind, order: seq<string>, i: nat)
    requires i < |order|
    ensures IncidentsOver(entries, held, kind, Absent(held, order[..i + 1])) ==
            IncidentsOver(entries, held, kind, Absent(held, order[..i]))
            + if order[i] in held then [] else IncidentsAt(entries, held, kind, order[i])
  {
    hide IncidentsAt;
    assert order[..i + 1][..i] == order[..i];
    var absent := Absent(held, order[..i]);
    if order[i] in held {
      assert absent + [] == absent;
    } else {
      assert (absent + [order[i]])[..|absent|] == absent;
    }
  }

  // ---------------------------------------------------------------------------
  // The service
  // ---------------------------------------------------------------------------

  /** A broker's list as a dictionary by ticket; a repeated ticket keeps its last item. */
  function Indexed<T>(items: seq<T>, key: T -> string): map<string, T> {
    if items == [] then map[]
    else Indexed(items[..|items| - 1], key)[key(items[|items| - 1]) := items[|items| - 1]]
  }

  function KeyOrder<T>(items: seq<T>, key: T -> string): seq<string> {
    if items == [] then []
    else
      var before, ticket := KeyOrder(items[..|items| - 1], key), key(items[|items| - 1]);
      if ticket in before then before else before + [ticket]
  }

  lemma {:induction false} IndexFacts<T>(items: seq<T>, key: T -> string)
    ensures Distinct(KeyOrder(items, key)) && SetOf(KeyOrder(items, key)) == Indexed(items, key).Keys
    ensures forall i :: 0 <= i < |items| ==> key(items[i]) in Indexed(items, key)
    ensures forall ticket :: ticket in Indexed(items, key) ==>
              Indexed(items, key)[ticket] in items && key(Indexed(items, key)[ticket]) == ticket
  {
    if items != [] {
      var last := |items| - 1;
      IndexFacts(items[..last], key);
      assert items == items[..last] + [items[last]];
    }
  }

  method Index<T>(items: seq<T>, key: T -> string) returns (held: map<string, T>, tickets: seq<string>)
    ensures held == Indexed(items, key) && tickets == KeyOrder(items, key)
    ensures Distinct(tickets) && SetOf(tickets) == held.Keys
  {
    held, tickets := map[], [];
    for i := 0 to |items|
      invariant held == Indexed(items[..i], key) && tickets == KeyOrder(items[..i], key)
    {
      assert items[..i + 1][..i] == items[..i];
      if key(items[i]) !in tickets {
        tickets := tickets + [key(items[i])];
      }
      held := held[key(items[i]) := items[i]];
    }
    assert items[..|items|] == items;
    IndexFacts(items, key);
  }

  datatype ReconciliationReport = ReconciliationReport(
    healthy: bool,
    incidents: seq<Incident>,
    recoveredPositions: nat,
    recoveredOrders: nat,
    closedPositions: nat,
    cancelledOrders: nat)

  const DEFERRED := ReconciliationReport(false, [Incident("BROKER_UNAVAILABLE", "",
                                                          "reconciliation deferred; ledger unchanged")],
                                         0, 0, 0, 0)

  /** One table brought to the broker's holdings. */
  method ReconcileTable<T(==)>(table: LedgerTable<T>, items: seq<T>, key: T -> string, kind: Kind, now: Time)
    returns (incidents: seq<Incident>, recovered: nat, dropped: nat)
    requires table.Valid() && kind.live != kind.dead
    modifies table
    ensures var held := Indexed(items, key);
            && table.Valid() && table.entries == Reconciled(old(table.entries), held, kind, now)
            && incidents == TableIncidents(old(table.entries), old(table.order), held, KeyOrder(items, key), kind)
            && recovered == Restored(old(table.entries), held, kind, KeyOrder(items, key))
            && dropped == Lost(old(table.entries), held, kind, old(table.order))
    ensures |Live(table.entries, kind)| == |Live(old(table.entries), kind)| + recovered - dropped
  {
    var held, tickets := Index(items, key);
    var local, order := table.entries, table.order;
    assert SetOf(order) == local.Keys;
    hide Partly, LedgerTable.Valid, Reconciled, Live, IncidentsOver, Restored, Lost, Distinct, SetOf;
    var adopted, retired: seq<Incident>;
    adopted, recovered := AdoptAll(table, held, tickets, kind, now);
    retired, dropped := RetireAll(table, local, order, held, kind, now);
    incidents := adopted + retired;
  }

  class ReconciliationService {
    const broker: Broker
    const positions: LedgerTable<Position>
    const orders: LedgerTable<Order>

    constructor (broker: Broker, positions: LedgerTable<Position>, orders: LedgerTable<Order>)
      ensures this.broker == broker && this.positions == positions && this.orders == orders
    {
      this.broker, this.positions, this.orders := broker, positions, orders;
    }

    /**
     * Reconciles both tables. A broker that is down when its health is asked, or at either read, leaves the ledger
     * exactly as it was.
     */
    method Reconcile(health: Conditions, atPositions: Conditions, atOrders: Conditions, now: Time)
      returns (r: Result<ReconciliationReport>)
      requires positions.Valid() && orders.Valid()
      modifies positions, orders
      ensures positions.Valid() && orders.Valid()
      ensures !health.Up() ==> r == Ok(DEFERRED)
      ensures r.Err? <==> health.Up() && !(atPositions.Up() && atOrders.Up())
      ensures !health.Up() || r.Err? ==>
                positions.entries == old(positions.entries) && orders.entries == old(orders.entries)
      ensures health.Up() && r.Ok? ==>
                var held, waiting := Indexed(broker.positions, TicketOf), Indexed(broker.orders, OrderTicketOf);
                && r.value.healthy
                && positions.entries == Reconciled(old(positions.entries), held, POSITIONS, now)
                && orders.entries == Reconciled(old(orders.entries), waiting, ORDERS, now)
                && r.value.incidents
                   == TableIncidents(old(positions.entries), old(positions.order), held,
                                     KeyOrder(broker.positions, TicketOf), POSITIONS)
                      + TableIncidents(old(orders.entries), old(orders.order), waiting,
                                       KeyOrder(broker.orders, OrderTicketOf), ORDERS)
      ensures health.Up() && r.Ok? ==>
                var held, waiting := Indexed(broker.positions, TicketOf), Indexed(broker.orders, OrderTicketOf);
                && (Mirrors(positions.entries, held, POSITIONS) <==> WellFiled(old(positions.entries), held, POSITIONS))
                && (Mirrors(orders.entries, waiting, ORDERS) <==> WellFiled(old(orders.entries), waiting, ORDERS))
                && r.value.recoveredPositions
                   == Restored(old(positions.entries), held, POSITIONS, KeyOrder(broker.positions, TicketOf))
                && r.value.recoveredOrders
                   == Restored(old(orders.entries), waiting, ORDERS, KeyOrder(broker.orders, OrderTicketOf))
                && r.value.closedPositions == Lost(old(positions.entries), held, POSITIONS, old(positions.order))
                && r.value.cancelledOrders == Lost(old(orders.entries), waiting, ORDERS, old(orders.order))
      ensures health.Up() && r.Ok? && UniqueTickets(broker.positions) ==> Copies(positions.entries, broker.positions)
      ensures health.Up() && r.Ok? ==>
                && |Live(positions.entries, POSITIONS)|
                   == |Live(old(positions.entries), POSITIONS)| + r.value.recoveredPositions - r.value.closedPositions
                && |Live(orders.entries, ORDERS)|
                   == |Live(old(orders.entries), ORDERS)| + r.value.recoveredOrders - r.value.cancelledOrders
    {
      hide LedgerTable.Valid, Reconciled, Live, TableIncidents, Restored, Lost, Indexed, KeyOrder;
      hide Mirrors, WellFiled, Copies, UniqueTickets;
      ghost var held, waiting := Indexed(broker.positions, TicketOf), Indexed(broker.orders, OrderTicketOf);
      MirrorsIffWellFiled(positions.entries, held, POSITIONS, now);
      MirrorsIffWellFiled(orders.entries, waiting, ORDERS, now);
      ReconciledCopies(positions.entries, broker.positions, now);
      var state := health.HealthCheck();
      if !state.healthy || !state.connected {
        return Ok(DEFERRED);
      }
      var brokerPositions := broker.GetPositions(atPositions);
      if brokerPositions.Err? {
        return Err(brokerPositions.error);
      }
      var brokerOrders := broker.GetOrders(atOrders);
      if brokerOrders.Err? {
        return Err(brokerOrders.error);
      }
      var incidents, recovered, closed := ReconcileTable(positions, brokerPositions.value, TicketOf, POSITIONS, now);
      var more, restored, cancelled := ReconcileTable(orders, brokerOrders.value, OrderTicketOf, ORDERS, now);
      return Ok(ReconciliationReport(true, incidents + more, recovered, restored, closed, cancelled));
    }
  }

  function TicketOf(position: Position): string {
    position.ticket
  }

  function OrderTicketOf(order: Order): string {
    order.ticket
  }

  /** Every item of the broker is in the ledger with the broker's own values. */
  ghost predicate Copies(entries: map<string, Entry<Position>>, items: seq<Position>) {
    forall i :: 0 <= i < |items| ==> items[i].ticket in entries && entries[items[i].ticket].item == items[i]
  }

  lemma ReconciledCopies(entries: map<string, Entry<Position>>, items: seq<Position>, now: Time)
    ensures UniqueTickets(items) ==> Copies(Reconciled(entries, Indexed(items, TicketOf), POSITIONS, now), items)
  {
    hide UniqueTickets, Indexed, After;
    var held := Indexed(items, TicketOf);
    if UniqueTickets(items) {
      UniqueItemsIndexed(items);
      forall i | 0 <= i < |items|
        ensures Reconciled(entries, held, POSITIONS, now)[items[i].ticket].item == items[i]
      {
        AfterFacts(entries, held, POSITIONS, now, items[i].ticket);
      }
    }
  }

  /** Against a broker whose tickets are unique, the mirrored values are exactly the broker's positions. */
  lemma {:induction false} UniqueItemsIndexed(items: seq<Position>)
    requires UniqueTickets(items)
    ensures forall i :: 0 <= i < |items| ==>
              items[i].ticket in Indexed(items, TicketOf) && Indexed(items, TicketOf)[items[i].ticket] == items[i]
  {
    if items != [] {
      UniqueItemsIndexed(items[..|items| - 1]);
    }
  }

  /** Whether the broker answers the health check and each of the two reads of one reconciliation. */
  datatype Reach = Reach(health: Conditions, positions: Conditions, orders: Conditions)

  /**
   * Two reconciliations with nothing happening at the broker in between: the second finds nothing to report or change.
   */
  method ReconcileTwice(service: ReconciliationService, first: Reach, second: Reach, now: Time, later: Time)
    returns (r: Result<ReconciliationReport>, again: Result<ReconciliationReport>)
    requires service.positions.Valid() && service.orders.Valid()
    modifies service.positions, service.orders
    ensures service.positions.Valid() && service.orders.Valid()
    ensures first.health.Up() && r.Ok? && second.health.Up() && again.Ok? ==>
              again.value == ReconciliationReport(true, [], 0, 0, 0, 0)
    ensures first.health.Up() && r.Ok? ==>
              && service.positions.entries
                 == Reconciled(old(service.positions.entries), Indexed(service.broker.positions, TicketOf), POSITIONS,
                               now)
              && service.orders.entries
                 == Reconciled(old(service.orders.entries), Indexed(service.broker.orders, OrderTicketOf), ORDERS, now)
  {
    hide LedgerTable.Valid, Reconciled, Live, Restored, Lost, Indexed, KeyOrder;
    hide Mirrors, WellFiled, Copies, UniqueTickets, IncidentsOver, Absent;
    var positions, orders := service.positions, service.orders;
    ghost var held, waiting := Indexed(service.broker.positions, TicketOf),
        Indexed(service.broker.orders, OrderTicketOf);
    ghost var tickets, keys := KeyOrder(service.broker.positions, TicketOf),
        KeyOrder(service.broker.orders, OrderTicketOf);
    ghost var entries, waits := positions.entries, orders.entries;
    r := service.Reconcile(first.health, first.positions, first.orders, now);
    SecondRunIsSilent(entries, held, POSITIONS, now, later, tickets);
    SecondRunIsSilent(entries, held, POSITIONS, now, later, positions.order);
    SecondRunIsSilent(entries, held, POSITIONS, now, later, Absent(held, positions.order));
    SecondRunIsSilent(waits, waiting, ORDERS, now, later, keys);
    SecondRunIsSilent(waits, waiting, ORDERS, now, later, orders.order);
    SecondRunIsSilent(waits, waiting, ORDERS, now, later, Absent(waiting, orders.order));
    again := service.Reconcile(second.health, second.positions, second.orders, later);
  }
}
