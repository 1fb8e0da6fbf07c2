/** What a lease comes to (src/oran-storage/statement_cache.cpp): what an acquisition finds, what a
    release gives back, and what clearing leaves, field by field. */
module StatementCacheOutcomes {
  import opened Core
  import opened StatementCache

  /** The SQL is cached on statement `h`. */
  predicate Cached(s: State, sql: string, h: Handle) {
    h in s.lru && h in s.store && s.store[h].sql == sql && sql in s.bySql && s.bySql[sql] == h
  }

  /** The statement is cached, belongs to no lease, and carries nothing of its last user. */
  ghost predicate Idle(s: State, sql: string, h: Handle) {
    Cached(s, sql, h) && !s.store[h].leased && !s.store[h].bound && !s.store[h].orphaned && h !in s.leases.Values
  }

  /** The statement of a live lease is in the cache, unless it is an orphan; its SQL is not empty. */
  ghost predicate Placed(s: State) {
    forall l :: l in s.leases ==>
      && s.capacity > 0 && s.leases[l] in s.store && s.store[s.leases[l]].sql != ""
      && (s.store[s.leases[l]].orphaned || s.leases[l] in s.lru)
  }

  // ---------------------------------------------------------------- release

  /** No other lease, statement, index entry or count differs. */
  ghost predicate OnlyReleases(s: State, t: State, lease: Lease)
    requires lease in s.leases && s.leases[lease] in s.store
  {
    var h := s.leases[lease];
    && lease !in t.leases && (forall l :: l in s.leases && l != lease ==> l in t.leases && t.leases[l] == s.leases[l])
    && (forall l :: l in t.leases ==> l in s.leases)
    && t.store.Keys == s.store.Keys && (forall g :: g in s.store && g != h ==> t.store[g] == s.store[g])
    && (forall q :: q in s.bySql && q != s.store[h].sql ==> q in t.bySql && t.bySql[q] == s.bySql[q])
    && (forall q :: q in t.bySql ==> q in s.bySql)
    && (forall g :: g in s.lru && g != h <==> g in t.lru && g != h)
    && t.stats == s.stats && t.capacity == s.capacity
  }

  /** A release ends its lease and no other one. */
  lemma ReleaseEndsOneLease(s: State, lease: Lease, a: Answers)
    requires Inv(s) && lease in s.leases
    ensures OnlyReleases(s, Step(s, ReleaseEvent(lease, a)), lease)
  {
    var h := s.leases[lease];
    var fewer := s.(leases := s.leases - {lease});
    assert OnlyReleases(s, fewer, lease);
    if !s.store[h].orphaned && (!a.resetOk || !a.clearOk) && s.store[h].sql in s.bySql && s.bySql[s.store[h].sql] == h {
      assert OnlyReleases(s, Drop(fewer, h), lease);
    }
  }

  /** A clean release makes a cached statement available again, without what its user bound. */
  lemma CleanReleaseReturns(s: State, lease: Lease, a: Answers)
    requires Inv(s) && Placed(s) && lease in s.leases && !s.store[s.leases[lease]].orphaned
    requires a.resetOk && a.clearOk
    ensures Idle(Step(s, ReleaseEvent(lease, a)), s.store[s.leases[lease]].sql, s.leases[lease])
    ensures Step(s, ReleaseEvent(lease, a)).lru == s.lru && Step(s, ReleaseEvent(lease, a)).bySql == s.bySql
  {
    var h, t := s.leases[lease], Step(s, ReleaseEvent(lease, a));
    forall l | l in t.leases ensures t.leases[l] != h {
      assert l in s.leases && l != lease;
    }
  }

  /** After a failed reset or clear the statement is forgotten: its SQL will be prepared again. */
  lemma FailedReleaseForgets(s: State, lease: Lease, a: Answers)
    requires Inv(s) && Placed(s) && lease in s.leases && !s.store[s.leases[lease]].orphaned
    requires !a.resetOk || !a.clearOk
    ensures var t, h := Step(s, ReleaseEvent(lease, a)), s.leases[lease];
      s.store[h].sql !in t.bySql && h !in t.lru && t.store == s.store
  {
  }

  /** An orphan's release leaves the cache as it is: its SQL may belong to another statement by now. */
  lemma OrphanReleaseChangesNothing(s: State, lease: Lease, a: Answers)
    requires Inv(s) && lease in s.leases && s.store[s.leases[lease]].orphaned
    ensures var t := Step(s, ReleaseEvent(lease, a));
      t.store == s.store && t.lru == s.lru && t.bySql == s.bySql && t.leases == s.leases - {lease}
  {
  }

  lemma UnknownReleaseChangesNothing(s: State, lease: Lease, a: Answers)
    requires Inv(s) && lease !in s.leases
    ensures Step(s, ReleaseEvent(lease, a)) == s
  {
  }

  // ---------------------------------------------------------------- acquisition

  /** Acquiring the SQL of an idle statement lends out that statement: it becomes the most recent, and
      nothing is evicted. */
  lemma IdleIsHit(s: State, sql: string, h: Handle, a: Answers)
    requires Inv(s) && Idle(s, sql, h) && sql != "" && s.capacity > 0 && a.resetOk && a.clearOk
    ensures Acquire(s, sql, a).1 == Ok(s.nextLease)
    ensures var t := Step(s, AcquireEvent(sql, a));
      && t.leases == s.leases[s.nextLease := h] && Cached(t, sql, h) && t.lru[0] == h
      && t.store[h] == Entry(sql, true, false, false)
      && t.stats.hits == s.stats.hits + 1 && t.stats.misses == s.stats.misses && t.stats.evictions == s.stats.evictions
      && t.bySql == s.bySql && (forall g :: g in t.lru <==> g in s.lru)
      && (forall g :: g in s.store && g != h ==> g in t.store && t.store[g] == s.store[g])
  {
    assert s.bySql[sql] == h;
  }

  /** An idle statement that cannot be cleaned is forgotten, and nothing is lent. */
  lemma UncleanHitForgets(s: State, sql: string, h: Handle, a: Answers)
    requires Inv(s) && Idle(s, sql, h) && sql != "" && s.capacity > 0 && (!a.resetOk || !a.clearOk)
    ensures Acquire(s, sql, a).1 == Err(Storage)
    ensures var t := Step(s, AcquireEvent(sql, a));
      && sql !in t.bySql && (forall g :: g in t.lru <==> g in s.lru && g != h)
      && t.leases == s.leases && t.store == s.store && t.stats == s.stats
  {
    assert s.bySql[sql] == h;
  }

  /** While its statement is lent out an SQL cannot be acquired again, and nothing changes. */
  lemma LentIsRefused(s: State, sql: string, a: Answers)
    requires Inv(s) && s.capacity > 0 && sql != "" && sql in s.bySql && s.store[s.bySql[sql]].leased
    ensures Acquire(s, sql, a) == (s, Err(Conflict))
  {
  }

  /** SQL that is not cached is prepared: the statement is cached if there is room or an idle one can
      make way, and is an orphan otherwise. */
  lemma UncachedIsPrepared(s: State, sql: string, a: Answers)
    requires s.capacity > 0 && sql != "" && sql !in s.bySql && a.prepareOk
    requires forall q :: q in s.bySql ==> s.bySql[q] in s.store
    requires forall g :: g in s.lru ==> g in s.store && g < s.nextHandle
    ensures Acquire(s, sql, a).1 == Ok(s.nextLease)
    ensures LendsNew(s, Acquire(s, sql, a).0, sql)
  {
    var t := s.(stats := Stats(s.stats.hits, s.stats.misses + 1, s.stats.evictions));
    assert Acquire(s, sql, a) == AcquireMiss(t, sql);
    MissIsPrepared(s, t, sql);
  }

  /** The new lease is for a new statement; the miss is counted. */
  ghost predicate LendsNew(s: State, t: State, sql: string)
    requires forall g :: g in s.lru ==> g in s.store
  {
    && t.leases == s.leases[s.nextLease := s.nextHandle] && s.nextHandle in t.store
    && t.stats.misses == s.stats.misses + 1 && t.stats.hits == s.stats.hits
    && Prepared(s, t, sql, s.nextHandle)
  }

  lemma MissIsPrepared(s: State, t: State, sql: string)
    requires forall g :: g in s.lru ==> g in s.store && g < s.nextHandle
    requires t == s.(stats := Stats(s.stats.hits, s.stats.misses + 1, s.stats.evictions))
    ensures AcquireMiss(t, sql).1 == Ok(s.nextLease)
    ensures LendsNew(s, AcquireMiss(t, sql).0, sql)
  {
    var victim := Victim(t.store, t.lru);
    if |s.lru| >= s.capacity && victim.Some? {
      MissEvicts(t, sql, victim.value);
      assert Replaces(s, AcquireMiss(t, sql).0, victim.value, sql, s.nextHandle);
    }
  }

  lemma MissEvicts(s: State, sql: string, g: Handle)
    requires forall x :: x in s.lru ==> x in s.store && x < s.nextHandle
    requires |s.lru| >= s.capacity && Victim(s.store, s.lru) == Some(g)
    ensures var t := AcquireMiss(s, sql).0;
      && t.stats == s.stats.(evictions := s.stats.evictions + 1) && s.nextHandle in t.store
      && t.store[s.nextHandle] == Entry(sql, true, false, false)
      && Cached(t, sql, s.nextHandle) && t.lru[0] == s.nextHandle
      && g in s.lru && !s.store[g].leased && Replaces(s, t, g, sql, s.nextHandle)
  {
  }

  ghost predicate Prepared(s: State, t: State, sql: string, h: Handle)
    requires h in t.store && forall g :: g in s.lru ==> g in s.store
  {
    var room := |s.lru| < s.capacity;
    var lent := forall g :: g in s.lru ==> s.store[g].leased;
    && t.store[h] == Entry(sql, true, !room && lent, false)
    && (room ==> t.lru == [h] + s.lru && t.bySql == s.bySql[sql := h] && t.stats.evictions == s.stats.evictions)
    && (!room && lent ==> t.lru == s.lru && t.bySql == s.bySql && t.stats.evictions == s.stats.evictions)
    && (!room && !lent ==>
          && Cached(t, sql, h) && t.lru[0] == h && t.stats.evictions == s.stats.evictions + 1
          && exists g :: g in s.lru && !s.store[g].leased && Replaces(s, t, g, sql, h))
  }

  /** Of the cached statements exactly `g` has made way for `h`. */
  ghost predicate Replaces(s: State, t: State, g: Handle, sql: string, h: Handle)
    requires g in s.store
  {
    && t.bySql == (s.bySql - {s.store[g].sql})[sql := h]
    && forall x :: x in t.lru <==> x == h || (x in s.lru && x != g)
  }

  /** What SQLite cannot prepare is only counted. */
  lemma UnpreparedIsCounted(s: State, sql: string, a: Answers)
    requires Inv(s) && s.capacity > 0 && sql != "" && sql !in s.bySql && !a.prepareOk
    ensures Acquire(s, sql, a).1 == Err(Storage)
    ensures var t := Step(s, AcquireEvent(sql, a));
      t.leases == s.leases && t.store == s.store && t.lru == s.lru && t.bySql == s.bySql
      && t.stats == Stats(s.stats.hits, s.stats.misses + 1, s.stats.evictions)
  {
  }

  // ---------------------------------------------------------------- from release to acquisition

  /** What is cleanly released is what the next acquisition of its SQL gets. */
  lemma ReleasedIsReused(s: State, lease: Lease, a: Answers, b: Answers)
    requires Inv(s) && Placed(s) && lease in s.leases && !s.store[s.leases[lease]].orphaned
    requires a.resetOk && a.clearOk && b.resetOk && b.clearOk
    ensures Returns(s, lease, a, b)
  {
    var t, h := Step(s, ReleaseEvent(lease, a)), s.leases[lease];
    StepKeepsInv(s, ReleaseEvent(lease, a));
    CleanReleaseReturns(s, lease, a);
    IdleIsHit(t, s.store[h].sql, h, b);
  }

  // ---------------------------------------------------------------- use and clear

  lemma UseBinds(s: State, lease: Lease)
    requires Inv(s) && lease in s.leases
    ensures var t, h := Step(s, UseEvent(lease)), s.leases[lease];
      && h in t.store && t.store[h].bound && t.store[h].sql == s.store[h].sql && t.store[h].leased
      && (forall g :: g in s.store && g != h ==> g in t.store && t.store[g] == s.store[g])
      && t.leases == s.leases && t.lru == s.lru && t.bySql == s.bySql && t.stats == s.stats
  {
  }

  /** Clearing empties list, index and counts; every lease goes on with its own statement, which is an
      orphan from then on. */
  lemma ClearOrphansLeases(s: State)
    requires Inv(s) && Placed(s)
    ensures var t := Step(s, ClearEvent);
      && t.lru == [] && t.bySql == map[] && t.stats == Stats(0, 0, 0) && t.leases == s.leases
      && (forall l :: l in s.leases ==>
            && s.leases[l] in t.store && t.store[s.leases[l]].orphaned && t.store[s.leases[l]].leased
            && t.store[s.leases[l]].sql == s.store[s.leases[l]].sql
            && t.store[s.leases[l]].bound == s.store[s.leases[l]].bound)
  {
  }

  // ---------------------------------------------------------------- over runs

  lemma MissKeepsPlaced(s: State, sql: string)
    requires Placed(s) && Owned(s) && s.capacity > 0 && sql != ""
    requires forall g :: g in s.lru ==> g in s.store
    requires forall g :: g in s.store ==> g < s.nextHandle
    ensures Placed(AcquireMiss(s, sql).0)
  {
    var t := AcquireMiss(s, sql).0;
    forall l | l in t.leases
      ensures t.leases[l] in t.store && t.store[t.leases[l]].sql != ""
      ensures t.store[t.leases[l]].orphaned || t.leases[l] in t.lru
    {
      if l in s.leases && l != s.nextLease {
        assert s.leases[l] in s.store && s.store[s.leases[l]].leased;
      }
    }
  }

  lemma AcquireKeepsPlaced(s: State, sql: string, a: Answers)
    requires Inv(s) && Placed(s)
    ensures Placed(Step(s, AcquireEvent(sql, a)))
  {
    if s.capacity > 0 && sql != "" && sql !in s.bySql {
      var t := s.(stats := s.stats.(misses := s.stats.misses + 1));
      assert Placed(t);
      MissKeepsPlaced(t, sql);
    }
  }

  lemma ReleaseKeepsPlaced(s: State, lease: Lease, a: Answers)
    requires Inv(s) && Placed(s)
    ensures Placed(Step(s, ReleaseEvent(lease, a)))
  {
  }

  lemma StepKeepsPlaced(s: State, e: Event)
    requires Inv(s) && Placed(s)
    ensures Placed(Step(s, e))
  {
    match e
    case AcquireEvent(sql, a) => AcquireKeepsPlaced(s, sql, a);
    case ReleaseEvent(lease, a) => ReleaseKeepsPlaced(s, lease, a);
    case UseEvent(_) =>
    case ClearEvent => ClearOrphansLeases(s);
  }

  lemma {:induction false} RunKeepsPlaced(s: State, events: seq<Event>)
    requires Inv(s) && Placed(s)
    ensures Placed(Run(s, events)) && Inv(Run(s, events))
    decreases |events|
  {
    if events != [] {
      StepKeepsInv(s, events[0]);
      StepKeepsPlaced(s, events[0]);
      RunKeepsPlaced(Step(s, events[0]), events[1..]);
    }
  }

  /** After any use of the cache, whatever statement is cleanly released is what the next acquisition
      of its SQL gets, unless the cache was cleared or full of leases when it was acquired. */
  lemma EveryReleaseReturns(capacity: nat, events: seq<Event>, lease: Lease, a: Answers, b: Answers)
    requires lease in Run(Empty(capacity), events).leases
    requires a.resetOk && a.clearOk && b.resetOk && b.clearOk
    ensures var s := Run(Empty(capacity), events);
      s.store[s.leases[lease]].orphaned || Returns(s, lease, a, b)
  {
    RunKeepsPlaced(Empty(capacity), events);
    var s := Run(Empty(capacity), events);
    if !s.store[s.leases[lease]].orphaned {
      ReleasedIsReused(s, lease, a, b);
    }
  }

  /** Releasing the lease and acquiring its SQL again lends out the same statement. */
  ghost predicate Returns(s: State, lease: Lease, a: Answers, b: Answers)
    requires Inv(s) && lease in s.leases
  {
    var t, h := Step(s, ReleaseEvent(lease, a)), s.leases[lease];
    && Inv(t) && lease !in t.leases
    && Acquire(t, s.store[h].sql, b).1 == Ok(t.nextLease)
    && Acquire(t, s.store[h].sql, b).0.leases == t.leases[t.nextLease := h]
  }
}
