// Recovery by alternating reconcile passes and drains, and what stranded ids do to it: the
// scan counts the rows that the queue then refuses, so enough of them at the head of the
// ledger keep every later job waiting.

module Recovery {
  import opened Ids
  import opened Jobs
  import opened Queue
  import opened Ledger
  import opened Reconcile
  import opened Handler
  import opened Drain

  predicate Settled(row: JobRecord) {
    row.status.Quarantined? || Terminal(row.status)
  }

  ghost predicate AllExpired(rows: map<Uuid, JobRecord>, now: nat) {
    forall j :: j in rows && rows[j].status.Running? ==> LeaseExpired(rows[j], now)
  }

  // How many ready rows of the prefix are stuck in processing.
  function StuckCount(order: seq<Uuid>, rows: map<Uuid, JobRecord>, now: nat, stuck: set<Uuid>): nat
    requires forall j :: j in order ==> j in rows
  {
    if order == [] then 0
    else (if order[0] in stuck && Claimable(Touch(rows[order[0]], now).status) then 1 else 0) + StuckCount(order[1..], rows, now, stuck)
  }

  // The i-th row of the ledger stands behind a whole batch of stuck ready rows.
  predicate Blocked(t: Table, now: nat, limit: nat, stuck: set<Uuid>, i: nat)
    requires Listed(t) && i < |t.order|
  {
    StuckCount(t.order[..i], t.rows, now, stuck) >= limit
  }

  // ----- counting -----

  // Past the moment all leases are over, time makes no difference to what is ready.
  lemma TouchLater(row: JobRecord, now: nat, time: nat)
    requires (row.status.Running? ==> LeaseExpired(row, now)) && now <= time
    ensures Touch(row, time).status == Touch(row, now).status && !Touch(row, time).status.Running?
    ensures row.status.Running? ==> LeaseExpired(row, time)
  {
  }

  predicate SameReadiness(before: JobRecord, after: JobRecord, now: nat, time: nat) {
    Claimable(Touch(before, now).status) == Claimable(Touch(after, time).status)
  }

  lemma {:induction false} StuckFrame(order: seq<Uuid>, rows: map<Uuid, JobRecord>, rows': map<Uuid, JobRecord>, now: nat, time: nat, stuck: set<Uuid>)
    requires forall j :: j in order ==> j in rows && j in rows'
    requires forall j :: j in order && j in stuck ==> SameReadiness(rows[j], rows'[j], now, time)
    ensures StuckCount(order, rows, now, stuck) == StuckCount(order, rows', time, stuck)
  {
    if order != [] {
      StuckFrame(order[1..], rows, rows', now, time, stuck);
    }
  }

  lemma {:induction false} StuckAreReady(order: seq<Uuid>, rows: map<Uuid, JobRecord>, now: nat, stuck: set<Uuid>)
    requires forall j :: j in order ==> j in rows
    ensures StuckCount(order, rows, now, stuck) <= |Ready(order, rows, now)|
  {
    if order != [] {
      StuckAreReady(order[1..], rows, now, stuck);
    }
  }

  // When the first m ready rows are all stuck, at least m are.
  lemma {:induction false} StuckAtLeast(order: seq<Uuid>, rows: map<Uuid, JobRecord>, now: nat, stuck: set<Uuid>, m: nat)
    requires forall j :: j in order ==> j in rows && rows[j].Id() == j
    requires m <= |Ready(order, rows, now)|
    requires forall k :: 0 <= k < m ==> Ready(order, rows, now)[k].Id() in stuck
    ensures StuckCount(order, rows, now, stuck) >= m
  {
    if order != [] && m > 0 {
      var job := Touch(rows[order[0]], now);
      var rest := Ready(order[1..], rows, now);
      if Claimable(job.status) {
        assert Ready(order, rows, now) == [job] + rest;
        assert Ready(order, rows, now)[0] == job;
        TouchSame(rows[order[0]], now);
        assert order[0] in stuck;
        assert forall k :: 0 <= k < m - 1 ==> rest[k] == Ready(order, rows, now)[k + 1];
        StuckAtLeast(order[1..], rows, now, stuck, m - 1);
      } else {
        assert Ready(order, rows, now) == rest;
        StuckAtLeast(order[1..], rows, now, stuck, m);
      }
    }
  }

  // The ready rows, cut at the i-th row of the ledger.
  lemma ReadyCut(t: Table, now: nat, i: nat)
    requires TableOk(t) && i <= |t.order|
    ensures Listed(t) && (forall j :: j in t.order[..i] ==> j in t.rows) && (forall j :: j in t.order[i..] ==> j in t.rows)
    ensures Ready(t.order, t.rows, now) == Ready(t.order[..i], t.rows, now) + Ready(t.order[i..], t.rows, now)
  {
    assert t.order[..i] + t.order[i..] == t.order;
    ReadyAppend(t.order[..i], t.order[i..], t.rows, now);
  }

  lemma ReadyHead(order: seq<Uuid>, rows: map<Uuid, JobRecord>, now: nat)
    requires order != [] && forall j :: j in order ==> j in rows
    ensures var job := Touch(rows[order[0]], now);
            Claimable(job.status) ==> Ready(order, rows, now) != [] && Ready(order, rows, now)[0] == job
  {
  }

  // If the i-th row is ready, it comes after those before it.
  lemma NextIsReady(t: Table, now: nat, i: nat)
    requires TableOk(t) && i < |t.order| && Claimable(Touch(t.rows[t.order[i]], now).status)
    ensures forall j :: j in t.order[..i] ==> j in t.rows
    ensures var ready, k := Ready(t.order, t.rows, now), |Ready(t.order[..i], t.rows, now)|;
            k < |ready| && ready[k].Id() == t.order[i]
  {
    hide RowOk, Touch;
    ReadyCut(t, now, i);
    ReadyHead(t.order[i..], t.rows, now);
    TouchSame(t.rows[t.order[i]], now);
  }

  // ----- one pass -----

  // A row behind a whole batch of ready rows is not visited and not a candidate.
  lemma BehindBatch(t: Table, now: nat, limit: nat, i: nat)
    requires TableOk(t) && limit > 0 && i < |t.order| && |Ready(t.order[..i], t.rows, now)| >= limit
    ensures var (t', candidates) := ListCandidates(t, now, limit);
            && t'.rows.Keys == t.rows.Keys && t'.rows[t.order[i]] == t.rows[t.order[i]]
            && forall c :: c in candidates ==> c.Id() != t.order[i]
  {
    hide RowOk, Touch, ListCandidates;
    CandidatesAreFirstReady(t, now, limit);
    ReadyCut(t, now, i);
    var before, j := Ready(t.order[..i], t.rows, now), t.order[i];
    if i > 0 {
      VisitedIsLeast(t.order, t.rows, now, limit, i);
    }
    ReadyMembers(t.order[..i], t.rows, now);
    forall c | c in ListCandidates(t, now, limit).1
      ensures c.Id() != j
    {
      assert c in before;
    }
  }

  // A row with fewer ready rows before it than the batch holds is visited.
  lemma WithinBatch(t: Table, now: nat, limit: nat, i: nat)
    requires TableOk(t) && i < |t.order| && |Ready(t.order[..i], t.rows, now)| < limit
    ensures var t' := ListCandidates(t, now, limit).0;
            t'.rows.Keys == t.rows.Keys && t'.rows[t.order[i]] == Touch(t.rows[t.order[i]], now)
  {
    hide RowOk, Touch, ListCandidates;
    CandidatesAreFirstReady(t, now, limit);
    var v := Visited(t.order, t.rows, now, limit);
    if v <= i {
      VisitedSome(t.order, t.rows, now, limit);
      VisitedIsLeast(t.order, t.rows, now, limit, v);
      assert t.order[..i] == t.order[..v] + t.order[v..i];
      ReadyAppend(t.order[..v], t.order[v..i], t.rows, now);
      assert false;
    }
  }

  lemma VisitedSome(order: seq<Uuid>, rows: map<Uuid, JobRecord>, now: nat, want: int)
    requires order != [] && forall j :: j in order ==> j in rows
    ensures Visited(order, rows, now, want) > 0
  {
  }

  // When a pass wakes nothing, a row that is neither stuck nor blocked is settled by it.
  lemma IdlePassSettles(t: Table, now: nat, limit: nat, stuck: set<Uuid>, i: nat)
    requires TableOk(t) && limit > 0 && i < |t.order| && AllExpired(t.rows, now) && t.order[i] !in stuck
    requires ReconcileOnce(t, Wake([], stuck), now, limit).2 == 0 && !Blocked(t, now, limit, stuck, i)
    ensures var t' := ReconcileOnce(t, Wake([], stuck), now, limit).0; t.order[i] in t'.rows && Settled(t'.rows[t.order[i]])
  {
    hide RowOk, Touch, ListCandidates, RequeueAll, StuckCount;
    var ready, before := Ready(t.order, t.rows, now), Ready(t.order[..i], t.rows, now);
    PassIsIdleIff(t, Wake([], stuck), now, limit);
    ReadyCut(t, now, i);
    if |before| >= limit {
      forall k | 0 <= k < limit
        ensures before[k].Id() in stuck
      {
        assert before[k] == ready[k];
      }
      StuckAtLeast(t.order[..i], t.rows, now, stuck, limit);
      assert false;
    }
    WithinBatch(t, now, limit, i);
    var job := Touch(t.rows[t.order[i]], now);
    TouchLater(t.rows[t.order[i]], now, now);
    if Claimable(job.status) {
      NextIsReady(t, now, i);
      assert false;
    }
  }

  lemma TouchSame(row: JobRecord, now: nat)
    ensures Touch(row, now).Id() == row.Id()
  {
  }

  // ----- the loop -----

  // What recovery may do to a row.
  predicate RecoveryRow(before: JobRecord, after: JobRecord) {
    && after.info == before.info
    && (Settled(before) ==> after == before)
    && (after.status.Quarantined? ==> before.status.Quarantined?)
  }

  // A stuck row keeps its attempts and stays as ready as it was.
  predicate StuckRow(before: JobRecord, after: JobRecord, now: nat) {
    after.attemptCount == before.attemptCount && SameReadiness(before, after, now, now)
  }

  ghost predicate Recovering(t0: Table, t: Table, now: nat, limit: nat, stuck: set<Uuid>) {
    && TableOk(t0) && TableOk(t) && t.order == t0.order && t.rows.Keys == t0.rows.Keys
    && AllExpired(t0.rows, now) && AllExpired(t.rows, now)
    && (forall j :: j in t0.rows ==> RecoveryRow(t0.rows[j], t.rows[j]) && (j in stuck ==> StuckRow(t0.rows[j], t.rows[j], now)))
    && (forall i :: 0 <= i < |t.order| && t.order[i] !in stuck && Blocked(t0, now, limit, stuck, i) ==>
          t.rows[t.order[i]] == t0.rows[t.order[i]])
  }

  // Every job that is neither stuck nor blocked is settled, every blocked one is as it was,
  // and a stuck one has not been attempted again and is not settled if it was ready.
  ghost predicate Recovered(t0: Table, t: Table, now: nat, limit: nat, stuck: set<Uuid>) {
    && TableOk(t0) && TableOk(t) && t.order == t0.order && t.rows.Keys == t0.rows.Keys
    && (forall j :: j in t0.rows ==> t.rows[j].info == t0.rows[j].info && (Settled(t0.rows[j]) ==> t.rows[j] == t0.rows[j]))
    && (forall i :: 0 <= i < |t.order| && t.order[i] !in stuck ==>
         if Blocked(t0, now, limit, stuck, i) then t.rows[t.order[i]] == t0.rows[t.order[i]] else Settled(t.rows[t.order[i]]))
    && (forall j :: j in t0.rows && j in stuck ==>
         && t.rows[j].attemptCount == t0.rows[j].attemptCount
         && (Claimable(Touch(t0.rows[j], now).status) ==> !Settled(t.rows[j])))
  }

  // A job that is not stuck is left unsettled if and only if it was unsettled and stands
  // behind a whole batch of stuck ready rows.
  lemma UnsettledIff(t0: Table, t: Table, now: nat, limit: nat, stuck: set<Uuid>, i: nat)
    requires Recovered(t0, t, now, limit, stuck) && i < |t0.order| && t0.order[i] !in stuck
    ensures t0.order[i] in t.rows && t0.order[i] in t0.rows
    ensures !Settled(t.rows[t0.order[i]]) <==> !Settled(t0.rows[t0.order[i]]) && Blocked(t0, now, limit, stuck, i)
  {
    hide RowOk;
    assert t0.order[i] in t0.order;
  }

  // With nothing stuck, everything is settled.
  lemma NothingStuck(t0: Table, t: Table, now: nat, limit: nat)
    requires Recovered(t0, t, now, limit, {}) && limit > 0
    ensures forall j :: j in t.rows ==> Settled(t.rows[j])
  {
    hide RowOk, Settled;
    forall j | j in t.rows
      ensures Settled(t.rows[j])
    {
      var i :| 0 <= i < |t.order| && t.order[i] == j;
      NoneStuck(t0.order[..i], t0.rows, now);
    }
  }

  lemma {:induction false} NoneStuck(order: seq<Uuid>, rows: map<Uuid, JobRecord>, now: nat)
    requires forall j :: j in order ==> j in rows
    ensures StuckCount(order, rows, now, {}) == 0
  {
    if order != [] {
      NoneStuck(order[1..], rows, now);
    }
  }

  lemma RecoveryBegins(t: Table, now: nat, limit: nat, stuck: set<Uuid>)
    requires TableOk(t) && AllExpired(t.rows, now)
    ensures Recovering(t, t, now, limit, stuck)
  {
  }

  // What is blocked stays blocked, and nothing else becomes so.
  lemma BlockedSame(t0: Table, t: Table, now: nat, time: nat, limit: nat, stuck: set<Uuid>, i: nat)
    requires Recovering(t0, t, now, limit, stuck) && now <= time && i < |t.order|
    ensures Blocked(t, time, limit, stuck, i) == Blocked(t0, now, limit, stuck, i)
  {
    hide RowOk, Touch, StuckCount;
    forall j | j in t0.order[..i] && j in stuck
      ensures j in t0.rows && j in t.rows && SameReadiness(t0.rows[j], t.rows[j], now, time)
    {
      assert j in t0.order;
      TouchLater(t.rows[j], now, time);
    }
    StuckFrame(t0.order[..i], t0.rows, t.rows, now, time, stuck);
  }

  lemma TouchForRecovery(row: JobRecord, now: nat, time: nat)
    requires (row.status.Running? ==> LeaseExpired(row, now)) && now <= time
    ensures var after := Touch(row, time);
            && RecoveryRow(row, after) && Remaining(after) <= Remaining(row)
            && StuckRow(row, after, now) && (after.status.Running? ==> after == row)
  {
  }

  lemma RecoveryRowThen(a: JobRecord, b: JobRecord, c: JobRecord, now: nat)
    requires RecoveryRow(a, b) && RecoveryRow(b, c)
    ensures RecoveryRow(a, c)
    ensures StuckRow(a, b, now) && StuckRow(b, c, now) ==> StuckRow(a, c, now)
  {
  }

  // The rows after a pass.
  lemma PassRows(t0: Table, t: Table, now: nat, time: nat, limit: nat, stuck: set<Uuid>)
    requires Recovering(t0, t, now, limit, stuck) && now <= time && limit > 0
    ensures var t' := ListCandidates(t, time, limit).0;
            Recovering(t0, t', now, limit, stuck) && TotalRemaining(t.order, t'.rows) <= TotalRemaining(t.order, t.rows)
  {
    hide RowOk, Touch, ListCandidates, StuckCount, Remaining, RecoveryRow, StuckRow, TotalRemaining;
    CandidateFacts(t, time, limit);
    var t' := ListCandidates(t, time, limit).0;
    forall j | j in t.rows
      ensures RecoveryRow(t0.rows[j], t'.rows[j]) && Remaining(t'.rows[j]) <= Remaining(t.rows[j])
      ensures j in stuck ==> StuckRow(t0.rows[j], t'.rows[j], now)
      ensures t'.rows[j].status.Running? ==> LeaseExpired(t'.rows[j], now)
    {
      TouchForRecovery(t.rows[j], now, time);
      RowItself(t.rows[j], now);
      RecoveryRowThen(t0.rows[j], t.rows[j], t'.rows[j], now);
    }
    forall i | 0 <= i < |t.order| && t.order[i] !in stuck && Blocked(t0, now, limit, stuck, i)
      ensures t'.rows[t.order[i]] == t0.rows[t.order[i]]
    {
      BlockedSame(t0, t, now, time, limit, stuck, i);
      assert forall j :: j in t.order[..i] ==> j in t.order;
      StuckAreReady(t.order[..i], t.rows, time, stuck);
      BehindBatch(t, time, limit, i);
    }
    TotalMonotone(t.order, t.rows, t'.rows);
  }

  lemma RowItself(row: JobRecord, now: nat)
    ensures RecoveryRow(row, row) && StuckRow(row, row, now)
  {
  }

  // What a pass queues is neither stuck nor blocked.
  lemma PassWakes(t0: Table, t: Table, now: nat, time: nat, limit: nat, stuck: set<Uuid>)
    requires Recovering(t0, t, now, limit, stuck) && now <= time && limit > 0
    ensures var (t', q', n) := ReconcileOnce(t, Wake([], stuck), time, limit);
            && WakeOk(q') && q'.processing == stuck && |q'.pending| == n
            && (forall x :: x in q'.pending ==> CanClaim(t', x) && x !in stuck)
            && (forall i :: 0 <= i < |t.order| && t.order[i] in q'.pending ==> !Blocked(t0, now, limit, stuck, i))
  {
    hide RowOk, Touch, ListCandidates, StuckCount, RequeueAll;
    ReconcileRestoresWakes(t, Wake([], stuck), time, limit);
    CandidateFacts(t, time, limit);
    var candidates := ListCandidates(t, time, limit).1;
    RequeueFacts(Wake([], stuck), candidates);
    forall i | 0 <= i < |t.order| && Blocked(t0, now, limit, stuck, i)
      ensures t.order[i] !in ReconcileOnce(t, Wake([], stuck), time, limit).1.pending
    {
      BlockedSame(t0, t, now, time, limit, stuck, i);
      assert forall j :: j in t.order[..i] ==> j in t.order;
      StuckAreReady(t.order[..i], t.rows, time, stuck);
      BehindBatch(t, time, limit, i);
    }
  }

  // When it queues nothing, recovery is complete.
  lemma PassEnds(t0: Table, t: Table, now: nat, time: nat, limit: nat, stuck: set<Uuid>)
    requires Recovering(t0, t, now, limit, stuck) && now <= time && limit > 0
    requires ReconcileOnce(t, Wake([], stuck), time, limit).2 == 0
    ensures var (t', q', _) := ReconcileOnce(t, Wake([], stuck), time, limit);
            q' == Wake([], stuck) && Recovered(t0, t', now, limit, stuck)
  {
    hide RowOk, Touch, ListCandidates, StuckCount, RequeueAll, Settled;
    PassRows(t0, t, now, time, limit, stuck);
    ReconcileRestoresWakes(t, Wake([], stuck), time, limit);
    var t' := ReconcileOnce(t, Wake([], stuck), time, limit).0;
    assert AllExpired(t.rows, time) by {
      forall j | j in t.rows && t.rows[j].status.Running?
        ensures LeaseExpired(t.rows[j], time)
      {
        TouchLater(t.rows[j], now, time);
      }
    }
    forall i | 0 <= i < |t.order| && t.order[i] !in stuck && !Blocked(t0, now, limit, stuck, i)
      ensures Settled(t'.rows[t.order[i]])
    {
      BlockedSame(t0, t, now, time, limit, stuck, i);
      IdlePassSettles(t, time, limit, stuck, i);
    }
    forall j | j in t0.rows && j in stuck && Claimable(Touch(t0.rows[j], now).status)
      ensures !Settled(t'.rows[j])
    {
      ReadyUnsettled(t'.rows[j], now);
    }
  }

  lemma ReadyUnsettled(row: JobRecord, now: nat)
    requires Claimable(Touch(row, now).status)
    ensures !Settled(row)
  {
  }

  lemma RecoveryPass(t0: Table, t: Table, now: nat, time: nat, limit: nat, stuck: set<Uuid>)
    requires Recovering(t0, t, now, limit, stuck) && now <= time && limit > 0
    ensures var (t', q', n) := ReconcileOnce(t, Wake([], stuck), time, limit);
            && Recovering(t0, t', now, limit, stuck)
            && WakeOk(q') && q'.processing == stuck && |q'.pending| == n
            && (forall x :: x in q'.pending ==> CanClaim(t', x) && x !in stuck)
            && (forall i :: 0 <= i < |t.order| && t.order[i] in q'.pending ==> !Blocked(t0, now, limit, stuck, i))
            && TotalRemaining(t.order, t'.rows) <= TotalRemaining(t.order, t.rows)
            && (n == 0 ==> q' == Wake([], stuck) && Recovered(t0, t', now, limit, stuck))
  {
    hide Recovering, Recovered, TotalRemaining, ListCandidates, RequeueAll;
    OrderOf(t0, t, now, limit, stuck);
    PassRows(t0, t, now, time, limit, stuck);
    PassWakes(t0, t, now, time, limit, stuck);
    if ReconcileOnce(t, Wake([], stuck), time, limit).2 == 0 {
      PassEnds(t0, t, now, time, limit, stuck);
    }
  }

  lemma OrderOf(t0: Table, t: Table, now: nat, limit: nat, stuck: set<Uuid>)
    requires Recovering(t0, t, now, limit, stuck)
    ensures TableOk(t0) && TableOk(t) && Listed(t0) && Listed(t) && t.order == t0.order && t.rows.Keys == t0.rows.Keys
  {
  }

  lemma SameInfo(before: Table, after: Table, t0: Table, now: nat, limit: nat, stuck: set<Uuid>)
    requires Recovering(t0, before, now, limit, stuck) && Recovering(t0, after, now, limit, stuck)
    ensures after.rows.Keys == before.rows.Keys && forall j :: j in before.rows ==> after.rows[j].info == before.rows[j].info
  {
  }

  lemma DrainedRowRecovers(a: JobRecord, b: JobRecord, c: JobRecord, now: nat)
    requires RecoveryRow(a, b) && Claimable(b.status) && Terminal(c.status) && c.info == b.info
    ensures RecoveryRow(a, c) && !c.status.Running?
  {
  }

  lemma RecoveryDrain(st: Setting, t0: Table, w: World, w': World, now: nat, limit: nat)
    requires Recovering(t0, w.ledger, now, limit, w.queue.processing) && Drained(st, w, w') && w.queue.pending != []
    requires forall x :: x in w.queue.pending ==> CanClaim(w.ledger, x) && x !in w.queue.processing
    requires Listed(t0) && w.ledger.order == t0.order
    requires forall i :: 0 <= i < |t0.order| && t0.order[i] in w.queue.pending ==> !Blocked(t0, now, limit, w.queue.processing, i)
    ensures Recovering(t0, w'.ledger, now, limit, w.queue.processing)
    ensures TotalRemaining(w'.ledger.order, w'.ledger.rows) < TotalRemaining(w.ledger.order, w.ledger.rows)
  {
    hide Drained, RecoveryRow, Remaining, RowOk, StuckRow, StuckCount;
    var id := w.queue.pending[0];
    assert id in w.queue.pending && CanClaim(w.ledger, id);
    RowAt(w.ledger, id);
    DrainedRows(st, w, w');
    forall j | j in t0.rows
      ensures RecoveryRow(t0.rows[j], w'.ledger.rows[j]) && (w'.ledger.rows[j].status.Running? ==> w'.ledger.rows[j] == w.ledger.rows[j])
    {
      if w'.ledger.rows[j] != w.ledger.rows[j] {
        DrainedRowRecovers(t0.rows[j], w.ledger.rows[j], w'.ledger.rows[j], now);
      }
    }
    DrainedTotal(w.ledger.order, w.ledger.rows, w'.ledger.rows, id);
  }
}
