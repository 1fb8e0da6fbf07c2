/** The prepared-statement cache of one connection (src/oran-storage/statement_cache.cpp): an LRU
    list with an SQL index, statements lent out as leases, and orphans that outlive the cache. */
module StatementCache {
  import opened Core

  /** Identity of a cache entry (the source shares entries by pointer) and of a lease. */
  type Handle = nat
  type Lease = nat

  /** `bound` says that the statement may carry bindings or a cursor left by its last user. */
  datatype Entry = Entry(sql: string, leased: bool, orphaned: bool, bound: bool)

  datatype Stats = Stats(hits: nat, misses: nat, evictions: nat)

  /** `lastUse` records when each entry was last acquired: what "recently used" means. */
  datatype State = State(
    capacity: nat,
    store: map<Handle, Entry>,
    lru: seq<Handle>,
    bySql: map<string, Handle>,
    leases: map<Lease, Handle>,
    nextHandle: Handle,
    nextLease: Lease,
    stats: Stats,
    lastUse: map<Handle, nat>,
    clock: nat)

  /** What SQLite answers when a statement is prepared, reset or cleared. */
  datatype Answers = Answers(prepareOk: bool, resetOk: bool, clearOk: bool)

  // ---------------------------------------------------------------- sequences of handles

  predicate Distinct(s: seq<Handle>) {
    forall i, j :: 0 <= i < j < |s| ==> s[i] != s[j]
  }

  function Without(s: seq<Handle>, h: Handle): (r: seq<Handle>)
    ensures forall x :: x in r <==> x in s && x != h
  {
    if s == [] then [] else (if s[0] == h then [] else [s[0]]) + Without(s[1..], h)
  }

  lemma {:induction false} WithoutKeepsOrder(s: seq<Handle>, h: Handle, lastUse: map<Handle, nat>)
    requires ByRecency(s, lastUse)
    ensures ByRecency(Without(s, h), lastUse)
    ensures |Without(s, h)| <= |s|
  {
    if s != [] {
      var tail := s[1..];
      assert forall i :: 0 <= i < |tail| ==> tail[i] == s[i + 1];
      WithoutKeepsOrder(tail, h, lastUse);
      var rest := Without(tail, h);
      forall x | x in rest ensures x in lastUse && lastUse[s[0]] > lastUse[x] {
        var k :| 0 <= k < |tail| && tail[k] == x;
        assert s[k + 1] == x && s[0] in s && x in s;
      }
    }
  }

  lemma {:induction false} WithoutShrinks(s: seq<Handle>, h: Handle)
    requires h in s
    ensures |Without(s, h)| < |s|
  {
    if s[0] == h {
      WithoutNoLonger(s[1..], h);
    } else {
      WithoutShrinks(s[1..], h);
    }
  }

  lemma {:induction false} WithoutNoLonger(s: seq<Handle>, h: Handle)
    ensures |Without(s, h)| <= |s|
  {
    if s != [] {
      WithoutNoLonger(s[1..], h);
    }
  }

  lemma {:induction false} WithoutAt(s: seq<Handle>, i: nat)
    requires i < |s| && Distinct(s)
    ensures Without(s, s[i]) == s[..i] + s[i + 1..]
  {
    if i == 0 {
      WithoutAbsent(s[1..], s[0]);
    } else {
      assert Distinct(s[1..]) by {
        forall a, b | 0 <= a < b < |s[1..]| ensures s[1..][a] != s[1..][b] {
          assert s[a + 1] != s[b + 1];
        }
      }
      WithoutAt(s[1..], i - 1);
      assert s[0] != s[i];
      assert [s[0]] + s[1..][..i - 1] == s[..i];
      assert s[1..][i..] == s[i + 1..];
    }
  }

  lemma {:induction false} WithoutAbsent(s: seq<Handle>, h: Handle)
    requires h !in s
    ensures Without(s, h) == s
  {
    if s != [] {
      assert s[0] in s;
      WithoutAbsent(s[1..], h);
    }
  }

  /** Most recently used first; so entries are distinct. */
  predicate ByRecency(lru: seq<Handle>, lastUse: map<Handle, nat>) {
    && (forall h :: h in lru ==> h in lastUse)
    && (forall i, j :: 0 <= i < j < |lru| ==> lastUse[lru[i]] > lastUse[lru[j]])
  }

  // ---------------------------------------------------------------- invariant

  /** List and index hold the same entries, one per SQL text, none of them an orphan. */
  ghost predicate Indexed(s: State) {
    && (forall h :: h in s.lru ==> h in s.store && s.store[h].sql in s.bySql && s.bySql[s.store[h].sql] == h)
    && (forall q :: q in s.bySql ==> s.bySql[q] in s.lru && s.bySql[q] in s.store && s.store[s.bySql[q]].sql == q)
    && (forall h :: h in s.lru && h in s.store ==> !s.store[h].orphaned)
  }

  /** A live lease owns its statement: it is marked, and no other lease has it. */
  ghost predicate Owned(s: State) {
    && (forall l :: l in s.leases ==> s.leases[l] in s.store && s.store[s.leases[l]].leased)
    && (forall l, m :: l in s.leases && m in s.leases && s.leases[l] == s.leases[m] ==> l == m)
  }

  /** A cached entry is marked as leased only while a lease is live, and is clean otherwise. */
  ghost predicate Lendable(s: State) {
    && (forall h :: h in s.lru && h in s.store && s.store[h].leased ==> h in s.leases.Values)
    && (forall h :: h in s.lru && h in s.store && !s.store[h].leased ==> !s.store[h].bound)
  }

  ghost predicate Inv(s: State) {
    && |s.lru| <= s.capacity
    && Indexed(s) && Owned(s) && Lendable(s)
    && ByRecency(s.lru, s.lastUse)
    && (forall h :: h in s.store ==> h < s.nextHandle)
    && (forall l :: l in s.leases ==> l < s.nextLease)
    && (forall h :: h in s.lastUse ==> s.lastUse[h] < s.clock)
  }

  // ---------------------------------------------------------------- steps

  /** The last unleased entry of the list. */
  function Victim(store: map<Handle, Entry>, lru: seq<Handle>): (v: Option<Handle>)
    requires forall h :: h in lru ==> h in store
    ensures v.Some? ==> v.value in lru && !store[v.value].leased
    ensures v.None? ==> forall h :: h in lru ==> store[h].leased
  {
    if lru == [] then None
    else
      var last := lru[|lru| - 1];
      if !store[last].leased then Some(last) else Victim(store, lru[..|lru| - 1])
  }

  function Drop(s: State, h: Handle): State
    requires h in s.store
  {
    s.(lru := Without(s.lru, h), bySql := s.bySql - {s.store[h].sql})
  }

  function Lend(s: State, h: Handle, e: Entry): State {
    s.(store := s.store[h := e], leases := s.leases[s.nextLease := h], nextLease := s.nextLease + 1,
       lastUse := s.lastUse[h := s.clock], clock := s.clock + 1)
  }

  function Added(s: State, h: Handle, e: Entry): State {
    Lend(s, h, e).(lru := [h] + s.lru, bySql := s.bySql[e.sql := h])
  }

  function Evicting(s: State, victim: Handle): State
    requires victim in s.store
  {
    Drop(s, victim).(stats := s.stats.(evictions := s.stats.evictions + 1))
  }

  /** A hit: `h` is cached for the SQL and not lent out. */
  function AcquireHit(s: State, h: Handle, a: Answers): (State, Result<Lease>)
    requires h in s.store
  {
    if !a.resetOk || !a.clearOk then (Drop(s, h), Err(Storage))
    else
      (Lend(s, h, s.store[h].(leased := true, bound := false))
        .(lru := [h] + Without(s.lru, h), stats := s.stats.(hits := s.stats.hits + 1)),
       Ok(s.nextLease))
  }

  /** A miss whose statement was prepared. */
  function AcquireMiss(s: State, sql: string): (State, Result<Lease>)
    requires forall h :: h in s.lru ==> h in s.store
  {
    var h := s.nextHandle;
    var e := Entry(sql, true, false, false);
    var victim := Victim(s.store, s.lru);
    var t := s.(nextHandle := h + 1);
    if |s.lru| < s.capacity then
      (Added(t, h, e), Ok(s.nextLease))
    else if victim.None? then
      (Lend(t, h, e.(orphaned := true)), Ok(s.nextLease))
    else
      (Added(Evicting(t, victim.value), h, e), Ok(s.nextLease))
  }

  function Acquire(s: State, sql: string, a: Answers): (State, Result<Lease>)
    requires forall q :: q in s.bySql ==> s.bySql[q] in s.store
    requires forall h :: h in s.lru ==> h in s.store
  {
    if s.capacity == 0 then (s, Err(Conflict))
    else if sql == "" then (s, Err(InvalidArgument))
    else if sql in s.bySql then
      if s.store[s.bySql[sql]].leased then (s, Err(Conflict)) else AcquireHit(s, s.bySql[sql], a)
    else
      var t := s.(stats := s.stats.(misses := s.stats.misses + 1));
      if !a.prepareOk then (t, Err(Storage)) else AcquireMiss(t, sql)
  }

  function Release(s: State, lease: Lease, a: Answers): State
    requires lease in s.leases ==> s.leases[lease] in s.store
  {
    if lease !in s.leases then s
    else
      var h := s.leases[lease];
      var e := s.store[h];
      var t := s.(leases := s.leases - {lease});
      if e.orphaned then t
      else if !a.resetOk || !a.clearOk then
        if e.sql in s.bySql && s.bySql[e.sql] == h then Drop(t, h) else t
      else t.(store := s.store[h := e.(leased := false, bound := false)])
  }

  /** The user of a lease binds parameters and steps the statement. */
  function Use(s: State, lease: Lease): State
    requires lease in s.leases ==> s.leases[lease] in s.store
  {
    if lease !in s.leases then s
    else s.(store := s.store[s.leases[lease] := s.store[s.leases[lease]].(bound := true)])
  }

  /** Marks every leased entry of the list as an orphan. */
  function Orphaned(store: map<Handle, Entry>, lru: seq<Handle>): (r: map<Handle, Entry>)
    ensures r.Keys == store.Keys
    ensures forall h :: h in store ==>
      r[h] == (if h in lru && store[h].leased then store[h].(orphaned := true) else store[h])
    decreases |lru|
  {
    if lru == [] then store
    else
      var h := lru[0];
      Orphaned(if h in store && store[h].leased then store[h := store[h].(orphaned := true)] else store, lru[1..])
  }

  function Clear(s: State): State {
    s.(store := Orphaned(s.store, s.lru), lru := [], bySql := map[], stats := Stats(0, 0, 0))
  }

  datatype Event =
    | AcquireEvent(sql: string, answers: Answers)
    | ReleaseEvent(lease: Lease, answers: Answers)
    | UseEvent(lease: Lease)
    | ClearEvent

  function Step(s: State, e: Event): State
    requires forall q :: q in s.bySql ==> s.bySql[q] in s.store
    requires forall h :: h in s.lru ==> h in s.store
    requires forall l :: l in s.leases ==> s.leases[l] in s.store
  {
    match e
    case AcquireEvent(sql, answers) => Acquire(s, sql, answers).0
    case ReleaseEvent(lease, answers) => Release(s, lease, answers)
    case UseEvent(lease) => Use(s, lease)
    case ClearEvent => Clear(s)
  }

  function Empty(capacity: nat): State {
    State(capacity, map[], [], map[], map[], 0, 0, Stats(0, 0, 0), map[], 0)
  }

  // ---------------------------------------------------------------- every step keeps the invariant

  lemma LendKeepsOwned(s: State, h: Handle, e: Entry)
    requires Owned(s) && e.leased && (h in s.store ==> !s.store[h].leased) && s.nextLease !in s.leases
    ensures Owned(Lend(s, h, e))
    ensures forall g :: g in s.leases.Values || g == h ==> g in Lend(s, h, e).leases.Values
  {
    var t := Lend(s, h, e);
    assert s.nextLease in t.leases && t.leases[s.nextLease] == h;
    forall g | g in s.leases.Values ensures g in t.leases.Values {
      var l :| l in s.leases && s.leases[l] == g;
      assert l in t.leases && t.leases[l] == g;
    }
  }

  lemma DropKeepsIndexed(s: State, h: Handle)
    requires Indexed(s) && h in s.lru
    ensures Indexed(Drop(s, h))
  {
  }

  lemma DropKeepsInv(s: State, h: Handle)
    requires Inv(s) && h in s.lru
    ensures Inv(Drop(s, h)) && |Drop(s, h).lru| < s.capacity
  {
    DropKeepsIndexed(s, h);
    WithoutShrinks(s.lru, h);
    WithoutKeepsOrder(s.lru, h, s.lastUse);
  }

  /** `lru` reordered, with `h` lent out: what a hit does to the list and the entry. */
  lemma TouchKeepsIndexed(s: State, h: Handle, e: Entry)
    requires Indexed(s) && h in s.lru && e.sql == s.store[h].sql && !e.orphaned
    ensures Indexed(Lend(s, h, e).(lru := [h] + Without(s.lru, h)))
  {
  }

  lemma TouchIsNewest(lru: seq<Handle>, h: Handle, lastUse: map<Handle, nat>, clock: nat)
    requires ByRecency(lru, lastUse) && h in lru
    requires forall g :: g in lastUse ==> lastUse[g] < clock
    ensures ByRecency([h] + Without(lru, h), lastUse[h := clock])
    ensures |[h] + Without(lru, h)| <= |lru|
  {
    WithoutShrinks(lru, h);
    WithoutKeepsOrder(lru, h, lastUse);
  }

  lemma AcquireHitKeepsInv(s: State, h: Handle, a: Answers)
    requires Inv(s) && h in s.lru && !s.store[h].leased
    ensures Inv(AcquireHit(s, h, a).0)
  {
    if a.resetOk && a.clearOk {
      TouchKeepsInv(s, h, s.store[h].(leased := true, bound := false));
      StatsDoNotMatter(Touched(s, h, s.store[h].(leased := true, bound := false)), s.stats.(hits := s.stats.hits + 1));
    } else {
      DropKeepsInv(s, h);
    }
  }

  function Touched(s: State, h: Handle, e: Entry): State {
    Lend(s, h, e).(lru := [h] + Without(s.lru, h))
  }

  lemma TouchKeepsInv(s: State, h: Handle, e: Entry)
    requires Inv(s) && h in s.lru && !s.store[h].leased
    requires e == s.store[h].(leased := true, bound := false)
    ensures Inv(Touched(s, h, e))
  {
    LendKeepsOwned(s, h, e);
    TouchKeepsIndexed(s, h, e);
    TouchIsNewest(s.lru, h, s.lastUse, s.clock);
  }

  lemma AddKeepsIndexed(s: State, h: Handle, e: Entry)
    requires Indexed(s) && h !in s.store && e.sql !in s.bySql && !e.orphaned
    ensures Indexed(Lend(s, h, e).(lru := [h] + s.lru, bySql := s.bySql[e.sql := h]))
  {
    assert h !in s.lru;
  }

  lemma AddKeepsInv(s: State, h: Handle, e: Entry)
    requires Inv(s) && |s.lru| < s.capacity && h !in s.store && h < s.nextHandle
    requires e.sql !in s.bySql && e.leased && !e.orphaned
    ensures Inv(Added(s, h, e))
  {
    AddKeepsIndexed(s, h, e);
    LendKeepsOwned(s, h, e);
    AddedIsLendable(s, h, e);
    AddedIsNewest(s.lru, h, s.lastUse, s.clock);
  }

  lemma AddedIsNewest(lru: seq<Handle>, h: Handle, lastUse: map<Handle, nat>, clock: nat)
    requires ByRecency(lru, lastUse) && h !in lru
    requires forall g :: g in lastUse ==> lastUse[g] < clock
    ensures ByRecency([h] + lru, lastUse[h := clock])
  {
  }

  lemma AddedIsLendable(s: State, h: Handle, e: Entry)
    requires Lendable(s) && e.leased && s.nextLease !in s.leases && h !in s.store
    requires forall g :: g in s.lru ==> g in s.store
    requires forall g :: g in s.leases.Values || g == h ==> g in Lend(s, h, e).leases.Values
    ensures Lendable(Added(s, h, e))
  {
  }

  lemma OrphanKeepsInv(s: State, h: Handle, e: Entry)
    requires Inv(s) && h !in s.store && h < s.nextHandle && e.leased
    ensures Inv(Lend(s, h, e))
  {
    LendKeepsOwned(s, h, e);
    assert h !in s.lru;
  }

  lemma AcquireMissKeepsInv(s: State, sql: string)
    requires Inv(s) && sql !in s.bySql && s.capacity > 0
    ensures Inv(AcquireMiss(s, sql).0)
  {
    var h := s.nextHandle;
    var t := s.(nextHandle := h + 1);
    var e := Entry(sql, true, false, false);
    assert Inv(t) && h !in t.store;
    var victim := Victim(s.store, s.lru);
    if |s.lru| < s.capacity {
      AddKeepsInv(t, h, e);
    } else if victim.None? {
      OrphanKeepsInv(t, h, e.(orphaned := true));
    } else {
      EvictKeepsInv(t, victim.value, h, e);
    }
  }

  lemma EvictKeepsInv(s: State, victim: Handle, h: Handle, e: Entry)
    requires Inv(s) && victim in s.lru && h !in s.store && h < s.nextHandle
    requires e.sql !in s.bySql && e.leased && !e.orphaned
    ensures Inv(Added(Evicting(s, victim), h, e))
  {
    DropKeepsInv(s, victim);
    StatsDoNotMatter(Drop(s, victim), Evicting(s, victim).stats);
    AddKeepsInv(Evicting(s, victim), h, e);
  }

  lemma StatsDoNotMatter(s: State, stats: Stats)
    requires Inv(s)
    ensures Inv(s.(stats := stats))
  {
  }

  lemma ReturnedLease(s: State, lease: Lease)
    requires lease in s.leases
    ensures forall h :: h in s.leases.Values && h != s.leases[lease] ==> h in (s.leases - {lease}).Values
  {
    var fewer := s.leases - {lease};
    forall h | h in s.leases.Values && h != s.leases[lease] ensures h in fewer.Values {
      var l :| l in s.leases && s.leases[l] == h;
      assert l in fewer && fewer[l] == h;
    }
  }

  /** A lease whose entry is not in the list can simply end. */
  lemma EndLease(s: State, lease: Lease)
    requires Inv(s) && lease in s.leases && s.leases[lease] !in s.lru
    ensures Inv(s.(leases := s.leases - {lease}))
  {
    ReturnedLease(s, lease);
  }

  lemma ReturnKeepsInv(s: State, lease: Lease)
    requires Inv(s) && lease in s.leases
    ensures var h := s.leases[lease];
      Inv(s.(leases := s.leases - {lease}, store := s.store[h := s.store[h].(leased := false, bound := false)]))
  {
    ReturnedLease(s, lease);
  }

  lemma ReleaseKeepsInv(s: State, lease: Lease, a: Answers)
    requires Inv(s)
    ensures Inv(Release(s, lease, a))
  {
    if lease in s.leases {
      var h := s.leases[lease];
      var e := s.store[h];
      if !e.orphaned && a.resetOk && a.clearOk {
        ReturnKeepsInv(s, lease);
      } else if !e.orphaned && e.sql in s.bySql && s.bySql[e.sql] == h {
        DropKeepsInv(s, h);
        EndLease(Drop(s, h), lease);
      } else {
        EndLease(s, lease);
      }
    }
  }

  lemma AcquireKeepsInv(s: State, sql: string, a: Answers)
    requires Inv(s)
    ensures Inv(Acquire(s, sql, a).0)
  {
    if s.capacity > 0 && sql != "" {
      var t := s.(stats := s.stats.(misses := s.stats.misses + 1));
      if sql in s.bySql {
        if !s.store[s.bySql[sql]].leased {
          AcquireHitKeepsInv(s, s.bySql[sql], a);
          assert Acquire(s, sql, a) == AcquireHit(s, s.bySql[sql], a);
        }
      } else {
        StatsDoNotMatter(s, t.stats);
        if a.prepareOk {
          AcquireMissKeepsInv(t, sql);
          assert Acquire(s, sql, a) == AcquireMiss(t, sql);
        } else {
          assert Acquire(s, sql, a).0 == t;
        }
      }
    }
  }

  lemma ClearKeepsInv(s: State)
    requires Inv(s)
    ensures Inv(Clear(s))
  {
  }

  lemma UseKeepsInv(s: State, lease: Lease)
    requires Inv(s)
    ensures Inv(Use(s, lease))
  {
  }

  lemma StepKeepsInv(s: State, e: Event)
    requires Inv(s)
    ensures Inv(Step(s, e))
  {
    match e
    case AcquireEvent(sql, a) => AcquireKeepsInv(s, sql, a);
    case ReleaseEvent(lease, a) => ReleaseKeepsInv(s, lease, a);
    case UseEvent(lease) => UseKeepsInv(s, lease);
    case ClearEvent => ClearKeepsInv(s);
  }

  ghost function Run(s: State, events: seq<Event>): (r: State)
    requires Inv(s)
    ensures Inv(r)
    decreases |events|
  {
    if events == [] then s
    else
      StepKeepsInv(s, events[0]);
      Run(Step(s, events[0]), events[1..])
  }

  /** Under any interleaving of acquisitions, releases, uses and clears: the list and the SQL index
      are a bijection within capacity, no two live leases hold one statement, and a statement that
      is not lent out is clean. */
  lemma EveryRunIsSafe(capacity: nat, events: seq<Event>)
    ensures var s := Run(Empty(capacity), events);
      && |s.bySql| == |s.lru| <= capacity
      && |s.leases.Values| == |s.leases|
      && (forall q :: q in s.bySql ==> s.bySql[q] in s.lru && s.store[s.bySql[q]].sql == q)
      && (forall h :: h in s.lru ==> s.bySql[s.store[h].sql] == h)
      && (forall h :: h in s.lru && !s.store[h].leased ==> !s.store[h].bound)
  {
    var s := Run(Empty(capacity), events);
    RunKeepsCapacity(Empty(capacity), events);
    InjectiveSize(s.leases);
    IndexSize(s.lru, s.store, s.bySql, s.lastUse);
  }

  lemma StepKeepsCapacity(s: State, e: Event)
    requires Inv(s)
    ensures Step(s, e).capacity == s.capacity
  {
  }

  lemma {:induction false} RunKeepsCapacity(s: State, events: seq<Event>)
    requires Inv(s)
    ensures Run(s, events).capacity == s.capacity
    decreases |events|
  {
    if events != [] {
      StepKeepsInv(s, events[0]);
      StepKeepsCapacity(s, events[0]);
      RunKeepsCapacity(Step(s, events[0]), events[1..]);
    }
  }

  lemma {:induction false} InjectiveSize(leases: map<Lease, Handle>)
    requires forall l, m :: l in leases && m in leases && leases[l] == leases[m] ==> l == m
    ensures |leases.Values| == |leases|
    decreases leases.Keys
  {
    if leases.Keys == {} {
      assert leases.Values == {};
    } else {
      var l :| l in leases;
      var fewer := leases - {l};
      assert fewer.Keys == leases.Keys - {l};
      InjectiveSize(fewer);
      forall h | h in leases.Values - {leases[l]} ensures h in fewer.Values {
        var m :| m in leases && leases[m] == h;
        assert m in fewer && fewer[m] == h;
      }
      assert fewer.Values == leases.Values - {leases[l]};
    }
  }

  lemma {:induction false} IndexSize(lru: seq<Handle>, store: map<Handle, Entry>, bySql: map<string, Handle>,
                                     lastUse: map<Handle, nat>)
    requires ByRecency(lru, lastUse)
    requires forall h :: h in lru ==> h in store && store[h].sql in bySql && bySql[store[h].sql] == h
    requires forall q :: q in bySql ==> bySql[q] in lru && store[bySql[q]].sql == q
    ensures |bySql| == |lru|
    decreases |lru|
  {
    if lru == [] {
      assert bySql.Keys == {};
    } else {
      var h, rest := lru[0], lru[1..];
      assert h in lru;
      forall g | g in rest ensures g in lru && g != h {
        var k :| 0 <= k < |rest| && rest[k] == g;
        assert lru[k + 1] == g;
      }
      var fewer := bySql - {store[h].sql};
      IndexSize(rest, store, fewer, lastUse);
      assert fewer.Keys == bySql.Keys - {store[h].sql};
    }
  }

  // ---------------------------------------------------------------- what an acquisition grants and evicts

  /** A granted lease is new, is for the requested SQL, and its statement is clean and held by no
      other lease; every other lease and statement is as before. */
  lemma AcquireGrants(s: State, sql: string, a: Answers)
    requires Inv(s) && Acquire(s, sql, a).1.Ok?
    ensures Granted(s, Acquire(s, sql, a).0, sql, Acquire(s, sql, a).1.value)
  {
    if sql in s.bySql {
      var h := s.bySql[sql];
      NotLent(s, h);
      HitGrants(s, h, a);
      assert Acquire(s, sql, a) == AcquireHit(s, h, a);
    } else {
      NotLent(s, s.nextHandle);
      var t := s.(stats := s.stats.(misses := s.stats.misses + 1));
      MissGrants(s, t, sql);
      assert Acquire(s, sql, a) == AcquireMiss(t, sql);
    }
  }

  lemma HitGrants(s: State, h: Handle, a: Answers)
    requires h in s.store && s.nextLease !in s.leases && h !in s.leases.Values && AcquireHit(s, h, a).1.Ok?
    ensures Granted(s, AcquireHit(s, h, a).0, s.store[h].sql, AcquireHit(s, h, a).1.value)
  {
    LendGrants(s, s, h, s.store[h].(leased := true, bound := false));
  }

  ghost predicate Granted(s: State, t: State, sql: string, lease: Lease) {
    && lease !in s.leases && lease in t.leases && t.leases == s.leases[lease := t.leases[lease]]
    && t.leases[lease] !in s.leases.Values
    && t.leases[lease] in t.store
    && t.store[t.leases[lease]].sql == sql
    && t.store[t.leases[lease]].leased && !t.store[t.leases[lease]].bound
    && (forall h :: h in s.store && h != t.leases[lease] ==> h in t.store && t.store[h] == s.store[h])
  }

  lemma NotLent(s: State, h: Handle)
    requires Owned(s) && (h in s.store ==> !s.store[h].leased)
    ensures h !in s.leases.Values
  {
  }

  lemma LendGrants(s: State, t: State, h: Handle, e: Entry)
    requires t.leases == s.leases && t.store == s.store && t.nextLease !in s.leases && h !in s.leases.Values
    requires e.leased && !e.bound
    ensures Granted(s, Lend(t, h, e), e.sql, t.nextLease)
  {
  }

  /** Granted looks only at the leases and the statements. */
  lemma SameGrant(s: State, t: State, u: State, sql: string, lease: Lease)
    requires Granted(s, t, sql, lease) && u.leases == t.leases && u.store == t.store
    ensures Granted(s, u, sql, lease)
  {
  }

  lemma MissGrants(s: State, t: State, sql: string)
    requires t.leases == s.leases && t.store == s.store && t.nextLease !in s.leases
    requires t.nextHandle !in s.leases.Values && forall h :: h in t.lru ==> h in t.store
    ensures Granted(s, AcquireMiss(t, sql).0, sql, t.nextLease)
  {
    var e := Entry(sql, true, |t.lru| >= t.capacity && Victim(t.store, t.lru).None?, false);
    LendGrants(s, t, t.nextHandle, e);
    SameGrant(s, Lend(t, t.nextHandle, e), AcquireMiss(t, sql).0, sql, t.nextLease);
  }

  lemma AcquireRefuses(s: State, sql: string, a: Answers)
    requires Inv(s)
    ensures Acquire(s, sql, a).1.Err? <==>
      || s.capacity == 0 || sql == ""
      || (sql in s.bySql && (s.store[s.bySql[sql]].leased || !a.resetOk || !a.clearOk))
      || (sql !in s.bySql && !a.prepareOk)
    ensures Acquire(s, sql, a).1.Err? ==> Acquire(s, sql, a).0.leases == s.leases
  {
  }

  /** The entries a step removes from the cache without being asked about them. */
  ghost predicate Evicted(s: State, t: State, h: Handle) {
    h in s.lru && h !in t.lru
  }

  /** An acquisition evicts at most one entry, only when the cache is full: the least recently
      used one that is not lent out. */
  lemma OnlyLeastRecentIsEvicted(s: State, sql: string, a: Answers, h: Handle)
    requires Inv(s) && Evicted(s, Acquire(s, sql, a).0, h) && sql !in s.bySql
    ensures |s.lru| == s.capacity && !s.store[h].leased
    ensures forall g :: g in s.lru && g != h && !s.store[g].leased ==> s.lastUse[h] < s.lastUse[g]
    ensures forall g :: g in s.lru && g != h ==> g in Acquire(s, sql, a).0.lru
  {
    var victim := Victim(s.store, s.lru);
    assert victim == Some(h);
    VictimIsOldest(s.store, s.lru, s.lastUse);
  }

  lemma {:induction false} VictimIsOldest(store: map<Handle, Entry>, lru: seq<Handle>, lastUse: map<Handle, nat>)
    requires ByRecency(lru, lastUse) && (forall h :: h in lru ==> h in store) && Victim(store, lru).Some?
    ensures var h := Victim(store, lru).value;
      forall g :: g in lru && g != h && !store[g].leased ==> lastUse[h] < lastUse[g]
  {
    var init, last := lru[..|lru| - 1], lru[|lru| - 1];
    assert lru == init + [last];
    if !store[last].leased {
      forall g | g in lru && g != last ensures lastUse[last] < lastUse[g] {
        var k :| 0 <= k < |init| && lru[k] == g;
      }
    } else {
      VictimIsOldest(store, init, lastUse);
    }
  }

  // ---------------------------------------------------------------- the cache object

  class Cache {
    const capacity: nat
    var store: map<Handle, Entry>
    var lru: seq<Handle>
    var bySql: map<string, Handle>
    var leases: map<Lease, Handle>
    var nextHandle: Handle
    var nextLease: Lease
    var stats: Stats
    ghost var lastUse: map<Handle, nat>
    ghost var clock: nat

    ghost function View(): State
      reads this
    {
      State(capacity, store, lru, bySql, leases, nextHandle, nextLease, stats, lastUse, clock)
    }

    ghost predicate Valid()
      reads this
    {
      Inv(View())
    }

    constructor Open(capacity: nat)
      ensures Valid() && View() == Empty(capacity)
    {
      this.capacity := capacity;
      store, lru, bySql, leases := map[], [], map[], map[];
      nextHandle, nextLease, stats := 0, 0, Stats(0, 0, 0);
      lastUse, clock := map[], 0;
    }

    /** Unlinks an entry that is in the list. */
    method Unlink(h: Handle)
      requires h in lru && Distinct(lru)
      modifies this`lru
      ensures lru == Without(old(lru), h)
    {
      var i := 0;
      while i < |lru| && lru[i] != h
        invariant 0 <= i <= |lru| && h !in lru[..i]
      {
        i := i + 1;
      }
      assert lru[..|lru|] == lru;
      WithoutAt(lru, i);
      lru := lru[..i] + lru[i + 1..];
    }

    method FindVictim() returns (victim: Option<Handle>)
      requires forall h :: h in lru ==> h in store
      ensures victim == Victim(store, lru)
    {
      var i := |lru|;
      assert lru[..i] == lru;
      while i > 0
        invariant 0 <= i <= |lru|
        invariant Victim(store, lru) == Victim(store, lru[..i])
      {
        i := i - 1;
        assert lru[..i + 1][..i] == lru[..i];
        if !store[lru[i]].leased {
          return Some(lru[i]);
        }
      }
      return None;
    }

    method BuildLease(h: Handle, e: Entry) returns (lease: Lease)
      modifies this
      ensures View() == Lend(old(View()), h, e) && lease == old(nextLease)
    {
      store := store[h := e];
      lease := nextLease;
      leases := leases[lease := h];
      nextLease := nextLease + 1;
      lastUse, clock := lastUse[h := clock], clock + 1;
    }

    method AcquireStatement(sql: string, a: Answers) returns (r: Result<Lease>)
      requires Valid()
      modifies this
      ensures Valid()
      ensures (View(), r) == Acquire(old(View()), sql, a)
    {
      AcquireKeepsInv(View(), sql, a);
      r := LookUp(sql, a);
    }

    method LookUp(sql: string, a: Answers) returns (r: Result<Lease>)
      requires Distinct(lru) && forall h :: h in lru ==> h in store
      requires forall q :: q in bySql ==> bySql[q] in lru && bySql[q] in store && store[bySql[q]].sql == q
      modifies this
      ensures (View(), r) == Acquire(old(View()), sql, a)
    {
      if capacity == 0 {
        return Err(Conflict);
      }
      if sql == "" {
        return Err(InvalidArgument);
      }
      if sql in bySql {
        var h := bySql[sql];
        if store[h].leased {
          return Err(Conflict);
        }
        r := AcquireCached(h, a);
        return;
      }
      stats := stats.(misses := stats.misses + 1);
      if !a.prepareOk {
        return Err(Storage);
      }
      r := AcquirePrepared(sql);
    }

    method AcquireCached(h: Handle, a: Answers) returns (r: Result<Lease>)
      requires h in lru && h in store && Distinct(lru)
      modifies this
      ensures (View(), r) == AcquireHit(old(View()), h, a)
    {
      Unlink(h);
      if !a.resetOk || !a.clearOk {
        bySql := bySql - {store[h].sql};
        return Err(Storage);
      }
      lru := [h] + lru;
      stats := stats.(hits := stats.hits + 1);
      var lease := BuildLease(h, store[h].(leased := true, bound := false));
      return Ok(lease);
    }

    method AcquirePrepared(sql: string) returns (r: Result<Lease>)
      requires Distinct(lru) && forall h :: h in lru ==> h in store
      modifies this
      ensures (View(), r) == AcquireMiss(old(View()), sql)
    {
      var h := nextHandle;
      nextHandle := nextHandle + 1;
      var entry := Entry(sql, true, false, false);
      if |lru| >= capacity {
        var victim := FindVictim();
        if victim.None? {
          var orphan := BuildLease(h, entry.(orphaned := true));
          return Ok(orphan);
        }
        EvictEntry(victim.value);
      }
      var lease := Insert(h, entry);
      return Ok(lease);
    }

    method EvictEntry(h: Handle)
      requires h in lru && h in store && Distinct(lru)
      modifies this
      ensures View() == Evicting(old(View()), h)
    {
      Unlink(h);
      bySql := bySql - {store[h].sql};
      stats := stats.(evictions := stats.evictions + 1);
    }

    /** Puts a new entry at the front and lends it. */
    method Insert(h: Handle, entry: Entry) returns (lease: Lease)
      modifies this
      ensures View() == Added(old(View()), h, entry) && lease == old(nextLease)
    {
      lru := [h] + lru;
      bySql := bySql[entry.sql := h];
      lease := BuildLease(h, entry);
    }

    method ReleaseLease(lease: Lease, a: Answers)
      requires Valid()
      modifies this
      ensures Valid()
      ensures View() == Release(old(View()), lease, a)
    {
      ReleaseKeepsInv(View(), lease, a);
      if lease in leases {
        Return(lease, a);
      }
    }

    method Return(lease: Lease, a: Answers)
      requires lease in leases && leases[lease] in store && Distinct(lru)
      requires forall q :: q in bySql ==> bySql[q] in lru
      modifies this
      ensures View() == Release(old(View()), lease, a)
    {
      var h := leases[lease];
      var entry := store[h];
      leases := leases - {lease};
      if entry.orphaned {
        return;
      }
      if !a.resetOk || !a.clearOk {
        if entry.sql in bySql && bySql[entry.sql] == h {
          Unlink(h);
          bySql := bySql - {entry.sql};
        }
        return;
      }
      store := store[h := entry.(leased := false, bound := false)];
    }

    method ClearAll()
      requires Valid()
      modifies this
      ensures Valid()
      ensures View() == Clear(old(View()))
    {
      ClearKeepsInv(View());
      Reset();
    }

    method Reset()
      modifies this
      ensures View() == Clear(old(View()))
    {
      bySql := map[];
      EraseAll();
      stats := Stats(0, 0, 0);
    }

    method EraseAll()
      modifies this`store, this`lru
      ensures lru == [] && store == Orphaned(old(store), old(lru))
    {
      while lru != []
        invariant Orphaned(store, lru) == Orphaned(old(store), old(lru))
        decreases |lru|
      {
        var h := lru[0];
        if h in store && store[h].leased {
          store := store[h := store[h].(orphaned := true)];
        }
        lru := lru[1..];
      }
    }
  }
}
