/** Redis-backed leases: at most one unexpired owner, and a stale release never harms a newer one. */
module Lease {
  import opened Domain

  /** Server time is in milliseconds. */
  datatype Entry = Entry(token: string, expiresAt: int)

  function Live(entries: map<string, Entry>, key: string, now: int): Option<Entry> {
    if key in entries && now < entries[key].expiresAt then Some(entries[key]) else None
  }

  /** SET key token NX PX ttl: only where no live entry stands. */
  function SetIfAbsent(entries: map<string, Entry>, key: string, token: string, now: int, ttl: int)
    : (map<string, Entry>, bool)
  {
    if Live(entries, key, now).Some? then (entries, false) else (entries[key := Entry(token, now + ttl)], true)
  }

  /** The release script: delete only the entry that still carries this token. */
  function DeleteIfOwned(entries: map<string, Entry>, key: string, token: string, now: int)
    : (map<string, Entry>, bool)
  {
    var live := Live(entries, key, now);
    if live.Some? && live.value.token == token then (entries - {key}, true) else (entries, false)
  }

  /** What the network does to one command: the server may act although no reply arrives. */
  datatype Delivery = Delivered | LostRequest | LostReply

  class RedisServer {
    var entries: map<string, Entry>
    var now: int

    constructor ()
      ensures entries == map[] && now == 0
    {
      entries, now := map[], 0;
    }

    method Set(key: string, token: string, ttl: int, delivery: Delivery) returns (reply: Option<bool>)
      modifies this
      ensures now == old(now)
      ensures reply.Some? <==> delivery == Delivered
      ensures delivery == LostRequest ==> entries == old(entries)
      ensures delivery != LostRequest ==> entries == SetIfAbsent(old(entries), key, token, now, ttl).0
      ensures delivery == Delivered ==> reply.value == SetIfAbsent(old(entries), key, token, now, ttl).1
    {
      if delivery == LostRequest {
        return None;
      }
      var free := key !in entries || entries[key].expiresAt <= now;
      if free {
        entries := entries[key := Entry(token, now + ttl)];
      }
      return if delivery == Delivered then Some(free) else None;
    }

    method Release(key: string, token: string, delivery: Delivery) returns (reply: Option<bool>)
      modifies this
      ensures now == old(now)
      ensures reply.Some? <==> delivery == Delivered
      ensures delivery == LostRequest ==> entries == old(entries)
      ensures delivery != LostRequest ==> entries == DeleteIfOwned(old(entries), key, token, now).0
      ensures delivery == Delivered ==> reply.value == DeleteIfOwned(old(entries), key, token, now).1
    {
      if delivery == LostRequest {
        return None;
      }
      var owned := key in entries && now < entries[key].expiresAt && entries[key].token == token;
      if owned {
        entries := entries - {key};
      }
      return if delivery == Delivered then Some(owned) else None;
    }
  }

  datatype Grant = Grant(key: string, token: string)

  datatype RunStatus = Completed | Locked | LockUnavailable | Failed

  class LeaseManager {
    const client: RedisServer?
    const namespace: string

    constructor (client: RedisServer?, namespace: string)
      ensures this.client == client && this.namespace == namespace
    {
      this.client, this.namespace := client, namespace;
    }

    function KeyOf(name: string): string {
      namespace + ":lease:" + name
    }

    /** Grants a lease only on a delivered, successful SET; anything else is no lease. */
    method Acquire(name: string, token: string, ttlSeconds: int, delivery: Delivery) returns (r: Result<Option<Grant>>)
      modifies client
      ensures r.Err? <==> ttlSeconds < 1
      ensures r.Err? && client != null ==> client.entries == old(client.entries) && client.now == old(client.now)
      ensures r.Ok? && client == null ==> r.value.None?
      ensures r.Ok? && client != null ==>
                var (entries, granted) :=
                    SetIfAbsent(old(client.entries), KeyOf(name), token, old(client.now), ttlSeconds * 1000);
                && client.now == old(client.now)
                && client.entries == (if delivery == LostRequest then old(client.entries) else entries)
                && r.value == (if delivery == Delivered && granted then Some(Grant(KeyOf(name), token)) else None)
    {
      if ttlSeconds < 1 {
        return Err("lease TTL must be positive");
      }
      if client == null {
        return Ok(None);
      }
      var acquired := client.Set(KeyOf(name), token, ttlSeconds * 1000, delivery);
      return Ok(if acquired == Some(true) then Some(Grant(KeyOf(name), token)) else None);
    }

    /**
     * Runs an operation under a lease. `succeeds` is how the operation ends, `takes` how long it runs and `meanwhile`
     * the server's entries when it ends, after whatever other workers did. The lease is released on every path: its own
     * entry goes if it still stands, and every other entry, a successor's under the same key included, is left alone.
     */
    method Run(name: string, token: string, ttlSeconds: int, succeeds: bool, takes: nat, meanwhile: map<string, Entry>,
               acquireDelivery: Delivery, releaseDelivery: Delivery)
      returns (r: Result<RunStatus>)
      requires client != null ==>
                 Undisturbed(SetIfAbsent(client.entries, KeyOf(name), token, client.now, ttlSeconds * 1000).0,
                             meanwhile,
                             KeyOf(name), token, client.now + takes)
      modifies client
      ensures r.Err? <==> ttlSeconds < 1
      ensures r.Ok? && client == null ==> r.value == LockUnavailable
      ensures r.Ok? && r.value == Locked ==>
                Live(old(client.entries), KeyOf(name), old(client.now)).Some? || acquireDelivery != Delivered
      ensures r.Ok? && client != null && r.value in {Completed, Failed} ==>
                && Live(old(client.entries), KeyOf(name), old(client.now)).None?
                && (r.value == Completed <==> succeeds)
                && client.now == old(client.now) + takes
                && var overran := takes >= ttlSeconds * 1000;
                   forall k :: Live(client.entries, k, client.now) ==
                               if k == KeyOf(name) && !overran && releaseDelivery != LostRequest then None
                               else Live(meanwhile, k, client.now)
    {
      var lease := Acquire(name, token, ttlSeconds, acquireDelivery);
      if lease.Err? {
        return Err(lease.error);
      }
      if lease.value.None? {
        return Ok(if client == null then LockUnavailable else Locked);
      }
      client.now, client.entries := client.now + takes, meanwhile;
      var _ := client.Release(lease.value.value.key, token, releaseDelivery);
      return Ok(if succeeds then Completed else Failed);
    }
  }

  /**
   * What other workers can do to the entry of a token that is not theirs: let it stand while it lives, never write it.
   */
  predicate Undisturbed(before: map<string, Entry>, after: map<string, Entry>, key: string, token: string, now: int) {
    var mine, left := Live(before, key, now), Live(after, key, now);
    && (mine.Some? && mine.value.token == token ==> left == mine)
    && (left.Some? && left.value.token == token ==> mine == left)
  }

  // ---------------------------------------------------------------------------
  // Many workers
  // ---------------------------------------------------------------------------

  /** A worker that was told it owns a lease; `deadline` is when the server lets the entry expire. */
  datatype Owner = Owner(key: string, token: string, deadline: int)

  datatype System = System(entries: map<string, Entry>, now: int, owners: map<nat, Owner>, tokens: set<string>)

  datatype Event =
    | Tick(elapsed: nat)
    | Acquire(id: nat, key: string, token: string, ttlSeconds: int, delivery: Delivery)
    | Release(id: nat, delivery: Delivery)
    | Crash(id: nat)

  const EMPTY := System(map[], 0, map[], {})

  /** Tokens are random and never repeat: an event that would reuse one does not happen. */
  function Advance(sys: System, event: Event): System {
    match event
    case Tick(elapsed) => sys.(now := sys.now + elapsed)
    case Acquire(id, key, token, ttlSeconds, delivery) =>
      if ttlSeconds < 1 || id in sys.owners || token in sys.tokens then sys
      else
        var (entries, granted) := SetIfAbsent(sys.entries, key, token, sys.now, ttlSeconds * 1000);
        System(if delivery == LostRequest then sys.entries else entries,
               sys.now,
               if delivery == Delivered && granted
               then sys.owners[id := Owner(key, token, sys.now + ttlSeconds * 1000)] else sys.owners,
               sys.tokens + {token})
    case Release(id, delivery) =>
      if id !in sys.owners then sys
      else
        var owner := sys.owners[id];
        sys.(entries := if delivery == LostRequest then sys.entries
                        else DeleteIfOwned(sys.entries, owner.key, owner.token, sys.now).0,
             owners := sys.owners - {id})
    case Crash(id) => sys.(owners := sys.owners - {id})
  }

  function Ran(events: seq<Event>): System {
    if events == [] then EMPTY else Advance(Ran(events[..|events| - 1]), events[|events| - 1])
  }

  /** Until its deadline an owner's own entry stands; tokens tell owners apart. */
  ghost predicate SystemOk(sys: System) {
    && (forall id :: id in sys.owners ==> sys.owners[id].token in sys.tokens)
    && (forall k :: k in sys.entries ==> sys.entries[k].token in sys.tokens)
    && (forall id, other :: id in sys.owners && other in sys.owners && id != other ==>
          sys.owners[id].token != sys.owners[other].token)
    && (forall id :: id in sys.owners && sys.now < sys.owners[id].deadline ==>
          Live(sys.entries, sys.owners[id].key, sys.now) == Some(Entry(sys.owners[id].token, sys.owners[id].deadline)))
  }

  lemma AdvanceKeepsOk(sys: System, event: Event)
    requires SystemOk(sys)
    ensures SystemOk(Advance(sys, event))
  {
    if event.Acquire? {
      AcquireKeepsOk(sys, event);
    }
  }

  lemma AcquireKeepsOk(sys: System, event: Event)
    requires SystemOk(sys) && event.Acquire?
    ensures SystemOk(Advance(sys, event))
  {
    var sys' := Advance(sys, event);
    forall id | id in sys.owners && sys.now < sys.owners[id].deadline
      ensures Live(sys'.entries, sys.owners[id].key, sys.now) == Live(sys.entries, sys.owners[id].key, sys.now)
    {
    }
  }

  lemma {:induction false} RunOk(events: seq<Event>)
    ensures SystemOk(Ran(events))
  {
    hide SystemOk, Advance;
    if events == [] {
      EmptyOk();
    } else {
      RunOk(events[..|events| - 1]);
      AdvanceKeepsOk(Ran(events[..|events| - 1]), events[|events| - 1]);
    }
  }

  lemma EmptyOk()
    ensures SystemOk(EMPTY)
  {
  }

  /** In every run, with lost commands, lost replies, crashes and overruns, a name has at most one unexpired owner. */
  lemma OneUnexpiredOwner(events: seq<Event>, id: nat, other: nat)
    requires var sys := Ran(events);
             id in sys.owners && other in sys.owners && sys.owners[id].key == sys.owners[other].key
    requires var sys := Ran(events);
             sys.now < sys.owners[id].deadline && sys.now < sys.owners[other].deadline
    ensures id == other
  {
    RunOk(events);
    hide Ran;
  }

  /** Whoever releases, and however late, an unexpired lease of another worker stays where it is. */
  lemma ReleaseSparesOthers(events: seq<Event>, id: nat, other: nat, delivery: Delivery)
    requires var sys := Ran(events);
             id != other && other in sys.owners && sys.now < sys.owners[other].deadline
    ensures var sys, sys' := Ran(events), Advance(Ran(events), Release(id, delivery));
            && other in sys'.owners && sys'.owners[other] == sys.owners[other]
            && Live(sys'.entries, sys.owners[other].key, sys'.now)
               == Some(Entry(sys.owners[other].token, sys.owners[other].deadline))
  {
    RunOk(events);
    hide Ran;
    AdvanceKeepsOk(Ran(events), Release(id, delivery));
  }

  ghost predicate Untouched(sys: System, id: nat, o: Owner, before: map<string, Entry>) {
    && id in sys.owners && sys.owners[id] == o
    && (o.key in sys.entries && sys.entries[o.key].token == o.token ==>
          o.key in before && before[o.key] == sys.entries[o.key])
    && (o.key in before && before[o.key].token == o.token && sys.now < before[o.key].expiresAt ==>
          o.key in sys.entries && sys.entries[o.key] == before[o.key])
  }

  lemma UntouchedStays(sys: System, event: Event, id: nat, o: Owner, before: map<string, Entry>)
    requires SystemOk(sys) && Untouched(sys, id, o, before)
    requires !(event.Release? && event.id == id) && !(event.Crash? && event.id == id)
    ensures Untouched(Advance(sys, event), id, o, before)
  {
  }

  /** Whatever other workers do while an owner is at work, they leave its entry as an operation expects. */
  lemma {:induction false} OthersLeaveAlone(events: seq<Event>, id: nat, more: seq<Event>)
    requires id in Ran(events).owners
    requires forall i :: 0 <= i < |more| ==>
               !(more[i].Release? && more[i].id == id) && !(more[i].Crash? && more[i].id == id)
    ensures var sys, sys' := Ran(events), Ran(events + more);
            var o := sys.owners[id];
            Untouched(sys', id, o, sys.entries) && Undisturbed(sys.entries, sys'.entries, o.key, o.token, sys'.now)
  {
    var o := Ran(events).owners[id];
    if more == [] {
      assert events + more == events;
    } else {
      hide Advance, SystemOk;
      var front, all := more[..|more| - 1], events + more;
      OthersLeaveAlone(events, id, front);
      RunOk(events + front);
      assert all[..|all| - 1] == events + front && all[|all| - 1] == more[|more| - 1];
      UntouchedStays(Ran(events + front), more[|more| - 1], id, o, Ran(events).entries);
    }
  }

  /** An entry that belongs to no owner stands, and nobody has become an owner of its key since. */
  ghost predicate Blocked(sys: System, key: string, token: string, deadline: int, before: map<nat, Owner>) {
    sys.now < deadline ==>
      && Live(sys.entries, key, sys.now) == Some(Entry(token, deadline)) && token in sys.tokens
      && (forall id :: id in sys.owners ==> sys.owners[id].token != token)
      && (forall id :: id in sys.owners && sys.owners[id].key == key ==> id in before && before[id] == sys.owners[id])
  }

  lemma BlockedStays(sys: System, event: Event, key: string, token: string, deadline: int, before: map<nat, Owner>)
    requires Blocked(sys, key, token, deadline, before)
    ensures Blocked(Advance(sys, event), key, token, deadline, before)
  {
  }

  /**
   * A grant that reaches nobody still blocks the name: whatever happens next, before it expires its entry stands and
   * nobody becomes an owner of the key.
   */
  lemma {:induction false} LostGrantBlocks(events: seq<Event>, id: nat, key: string, token: string, ttlSeconds: int,
                                           more: seq<Event>)
    requires var sys := Ran(events);
             ttlSeconds >= 1 && id !in sys.owners && token !in sys.tokens && Live(sys.entries, key, sys.now).None?
    ensures var sys := Ran(events);
            Blocked(Ran(events + [Acquire(id, key, token, ttlSeconds, LostReply)] + more), key, token,
                    sys.now + ttlSeconds * 1000, sys.owners)
  {
    var sys, lost := Ran(events), Acquire(id, key, token, ttlSeconds, LostReply);
    var all := events + [lost] + more;
    if more == [] {
      RunOk(events);
      assert all[..|all| - 1] == events && all[|all| - 1] == lost;
    } else {
      hide Blocked, Advance, Live;
      var front := more[..|more| - 1];
      LostGrantBlocks(events, id, key, token, ttlSeconds, front);
      assert all[..|all| - 1] == events + [lost] + front && all[|all| - 1] == more[|more| - 1];
      BlockedStays(Ran(events + [lost] + front), more[|more| - 1], key, token, sys.now + ttlSeconds * 1000, sys.owners);
    }
  }

  /**
   * In every run, a delivered request for a key that somebody still owns is granted exactly when no live entry stands,
   * and then every owner it finds has overrun its lease.
   */
  lemma GrantedBesideIff(events: seq<Event>, id: nat, other: nat, token: string, ttlSeconds: int)
    requires var sys := Ran(events);
             ttlSeconds >= 1 && id !in sys.owners && other in sys.owners && token !in sys.tokens
    ensures var sys := Ran(events);
            var key := sys.owners[other].key;
            var sys' := Advance(sys, Acquire(id, key, token, ttlSeconds, Delivered));
            && (id in sys'.owners <==> Live(sys.entries, key, sys.now).None?)
            && (id in sys'.owners ==>
                  && other in sys'.owners && sys'.owners[other] == sys.owners[other]
                  && (forall owner :: owner in sys.owners && sys.owners[owner].key == key ==>
                        sys.owners[owner].deadline <= sys'.now < sys'.owners[id].deadline))
  {
    RunOk(events);
    hide Ran;
  }

  /** Ownership is only safe until the deadline: an operation that overruns its lease can run beside its successor. */
  lemma OverrunOverlaps()
    ensures var sys := Ran([Acquire(1, "job", "a", 1, Delivered), Tick(1000), Acquire(2, "job", "b", 1, Delivered)]);
            1 in sys.owners && 2 in sys.owners && sys.owners[1].key == sys.owners[2].key
            && sys.owners[1].deadline <= sys.now < sys.owners[2].deadline
  {
    var first, second, third := Acquire(1, "job", "a", 1, Delivered), Tick(1000), Acquire(2, "job", "b", 1, Delivered);
    assert [first, second, third][..2] == [first, second] && [first, second][..1] == [first] && [first][..0] == [];
    assert Ran([]) == EMPTY;
    var one := Ran([first]);
    assert one == System(map["job" := Entry("a", 1000)], 0, map[1 := Owner("job", "a", 1000)], {"a"});
    var two := Ran([first, second]);
    assert two == one.(now := 1000);
  }
}
