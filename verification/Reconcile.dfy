// One reconcile pass (worker.py): list the candidates of the ledger, offer each
// that the wake queue is missing.

module Reconcile {
  import opened Basics
  import opened Ids
  import opened Jobs
  import opened Queue
  import opened Ledger

  function RequeueAll(q: Wake, jobs: seq<JobRecord>): (r: (Wake, nat))
    decreases |jobs|
  {
    if jobs == [] then (q, 0)
    else if !Claimable(jobs[0].status) then RequeueAll(q, jobs[1..])
    else
      var (q', added) := RequeueIfMissing(q, jobs[0].Id());
      var (q'', n) := RequeueAll(q', jobs[1..]);
      (q'', n + if added then 1 else 0)
  }

  function ReconcileOnce(t: Table, q: Wake, now: nat, limit: nat): (Table, Wake, nat)
    requires Listed(t)
  {
    var (t', candidates) := ListCandidates(t, now, limit);
    var (q', n) := RequeueAll(q, candidates);
    (t', q', n)
  }

  // Requeueing only appends, in order, the claimable candidates that were missing.
  lemma {:induction false} RequeueFacts(q: Wake, jobs: seq<JobRecord>)
    requires WakeOk(q)
    requires forall c :: c in jobs ==> Claimable(c.status)
    ensures var (q', n) := RequeueAll(q, jobs);
            && WakeOk(q') && q'.processing == q.processing
            && |q'.pending| == |q.pending| + n && q'.pending[..|q.pending|] == q.pending
            && (forall x :: x in q'.pending <==> x in q.pending || (x !in q.processing && exists c :: c in jobs && c.Id() == x))
            && (n == 0 ==> q' == q)
    decreases |jobs|
  {
    if jobs != [] {
      var (q1, added) := RequeueIfMissing(q, jobs[0].Id());
      RequeueFacts(q1, jobs[1..]);
      var (q', n) := RequeueAll(q, jobs);
      assert q'.pending[..|q.pending|] == q'.pending[..|q1.pending|][..|q.pending|];
      forall x | x in q'.pending
        ensures x in q.pending || (x !in q.processing && exists c :: c in jobs && c.Id() == x)
      {
        if x !in q1.pending {
          var c :| c in jobs[1..] && c.Id() == x;
          assert c in jobs;
        } else if x !in q.pending {
          assert jobs[0].Id() == x;
        }
      }
      forall x | x !in q.processing && exists c :: c in jobs && c.Id() == x
        ensures x in q'.pending
      {
        var c :| c in jobs && c.Id() == x;
        assert c == jobs[0] || c in jobs[1..];
      }
    }
  }

  lemma {:induction false} RequeueNothing(q: Wake, jobs: seq<JobRecord>)
    requires forall c :: c in jobs ==> Holds(q, c.Id())
    ensures RequeueAll(q, jobs) == (q, 0)
  {
    if jobs != [] {
      RequeueNothing(q, jobs[1..]);
    }
  }

  function JobIds(jobs: seq<JobRecord>): seq<Uuid> {
    seq(|jobs|, i requires 0 <= i < |jobs| => jobs[i].Id())
  }

  // The ids that the queue is missing, in order.
  function Unheld(q: Wake, ids: seq<Uuid>): seq<Uuid> {
    if ids == [] then [] else (if Holds(q, ids[0]) then [] else [ids[0]]) + Unheld(q, ids[1..])
  }

  lemma {:induction false} UnheldFrame(q: Wake, q': Wake, ids: seq<Uuid>)
    requires forall x :: x in ids ==> (Holds(q, x) <==> Holds(q', x))
    ensures Unheld(q, ids) == Unheld(q', ids)
  {
    if ids != [] {
      UnheldFrame(q, q', ids[1..]);
    }
  }

  lemma {:induction false} UnheldAll(q: Wake, ids: seq<Uuid>)
    requires forall x :: x in ids ==> !Holds(q, x)
    ensures Unheld(q, ids) == ids
  {
    if ids != [] {
      UnheldAll(q, ids[1..]);
    }
  }

  // Distinct candidates are appended in their order, those already held left out.
  lemma {:induction false} RequeueInOrder(q: Wake, jobs: seq<JobRecord>)
    requires NoDup(JobIds(jobs)) && forall c :: c in jobs ==> Claimable(c.status)
    ensures var added := Unheld(q, JobIds(jobs));
            RequeueAll(q, jobs) == (Wake(q.pending + added, q.processing), |added|)
    decreases |jobs|
  {
    if jobs != [] {
      var ids, rest := JobIds(jobs), JobIds(jobs[1..]);
      assert ids == [jobs[0].Id()] + rest;
      assert ids[1..] == rest && ids[0] !in rest by {
        assert forall i :: 0 <= i < |rest| ==> rest[i] == ids[i + 1];
      }
      var q1 := RequeueIfMissing(q, ids[0]).0;
      UnheldFrame(q, q1, rest);
      RequeueInOrder(q1, jobs[1..]);
      Regroup(q.pending, if Holds(q, ids[0]) then [] else [ids[0]], Unheld(q, rest));
      assert jobs[0] in jobs && Unheld(q, ids) == (if Holds(q, ids[0]) then [] else [ids[0]]) + Unheld(q, rest);
      assert q1.pending == q.pending + (if Holds(q, ids[0]) then [] else [ids[0]]);
    } else {
      assert q.pending + [] == q.pending;
    }
  }

  lemma ReadyIds(t: Table, now: nat)
    requires TableOk(t)
    ensures NoDup(JobIds(Ready(t.order, t.rows, now)))
  {
    hide RowOk, Touch;
    var ready := Ready(t.order, t.rows, now);
    ReadyMembers(t.order, t.rows, now);
    ReadyNoDup(t.order, t.rows, now);
    forall i, k | 0 <= i < k < |ready|
      ensures ready[i].Id() != ready[k].Id()
    {
      assert ready[i] in ready && ready[k] in ready;
    }
  }

  // One pass appends, of the first `limit` ready rows, those that the queue is missing, in
  // insertion order, and counts them.
  lemma PassAppends(t: Table, q: Wake, now: nat, limit: nat)
    requires TableOk(t)
    ensures var ready := Ready(t.order, t.rows, now);
            var added := Unheld(q, JobIds(ready)[..Min(limit, |ready|)]);
            && ReconcileOnce(t, q, now, limit).1 == Wake(q.pending + added, q.processing)
            && ReconcileOnce(t, q, now, limit).2 == |added|
  {
    hide RowOk, Ready, Touch, ListCandidates, RequeueAll;
    var ready := Ready(t.order, t.rows, now);
    var n := Min(limit, |ready|);
    CandidatesAreFirstReady(t, now, limit);
    CandidateFacts(t, now, limit);
    ReadyIds(t, now);
    assert JobIds(ready[..n]) == JobIds(ready)[..n];
    RequeueInOrder(q, ready[..n]);
  }

  // After one pass each of the first `limit` ready rows, in insertion order, is
  // claimable in the ledger and held by the queue, whatever the queue had lost; the
  // count is the number of ids that were added.
  lemma ReconcileRestoresWakes(t: Table, q: Wake, now: nat, limit: nat)
    requires TableOk(t) && WakeOk(q)
    ensures var ready := Ready(t.order, t.rows, now);
            var (t', q', n) := ReconcileOnce(t, q, now, limit);
            && TableOk(t') && WakeOk(q')
            && (forall i :: 0 <= i < Min(limit, |ready|) ==>
                 && ready[i].Id() in t'.rows && t'.rows[ready[i].Id()] == ready[i] && Claimable(ready[i].status)
                 && Holds(q', ready[i].Id()))
            && q'.processing == q.processing && |q'.pending| == |q.pending| + n
            && (forall x :: x in q'.pending && x !in q.pending ==> x in t'.rows && Claimable(t'.rows[x].status))
            && (forall x :: x in q.pending ==> x in q'.pending)
            && (n == 0 ==> q' == q)
  {
    CandidatesAreFirstReady(t, now, limit);
    CandidateFacts(t, now, limit);
    var candidates := ListCandidates(t, now, limit).1;
    RequeueFacts(q, candidates);
    var ready := Ready(t.order, t.rows, now);
    forall i | 0 <= i < Min(limit, |ready|)
      ensures ready[i] in candidates
    {
      assert candidates[i] == ready[i];
    }
  }

  // A ready row is held after a pass if and only if it was held before or is among the
  // first `limit` ready rows; being processed counts, whether or not a handler is alive.
  lemma ReadyHeldIff(t: Table, q: Wake, now: nat, limit: nat, i: nat)
    requires TableOk(t) && WakeOk(q) && i < |Ready(t.order, t.rows, now)|
    ensures var ready := Ready(t.order, t.rows, now);
            Holds(ReconcileOnce(t, q, now, limit).1, ready[i].Id()) <==> Holds(q, ready[i].Id()) || i < limit
  {
    hide RowOk, Ready, ListCandidates, RequeueAll;
    var ready := Ready(t.order, t.rows, now);
    CandidatesAreFirstReady(t, now, limit);
    CandidateFacts(t, now, limit);
    var candidates := ListCandidates(t, now, limit).1;
    RequeueFacts(q, candidates);
    ReadyMembers(t.order, t.rows, now);
    ReadyNoDup(t.order, t.rows, now);
    assert ready[i] in ready;
    if i < limit {
      assert candidates[i] == ready[i];
    } else {
      forall c | c in candidates
        ensures c.Id() != ready[i].Id()
      {
        var k :| 0 <= k < |candidates| && candidates[k] == c;
        assert ready[k] in ready && ready[k] == c;
      }
    }
  }

  // A pass requeues nothing if and only if all of the first `limit` ready rows are held:
  // rows in processing, even of handlers long dead, keep every later row waiting.
  lemma PassIsIdleIff(t: Table, q: Wake, now: nat, limit: nat)
    requires TableOk(t) && WakeOk(q)
    ensures var ready := Ready(t.order, t.rows, now);
            ReconcileOnce(t, q, now, limit).2 == 0 <==> forall i :: 0 <= i < Min(limit, |ready|) ==> Holds(q, ready[i].Id())
  {
    hide RowOk, Ready, ListCandidates, RequeueAll;
    var ready := Ready(t.order, t.rows, now);
    CandidatesAreFirstReady(t, now, limit);
    ReconcileRestoresWakes(t, q, now, limit);
    if forall i :: 0 <= i < Min(limit, |ready|) ==> Holds(q, ready[i].Id()) {
      RequeueNothing(q, ListCandidates(t, now, limit).1);
    }
  }

  // Reconciling again at the same moment requeues nothing and changes nothing.
  lemma ReconcileIsIdempotent(t: Table, q: Wake, now: nat, limit: nat)
    requires TableOk(t) && WakeOk(q)
    ensures var (t', q', _) := ReconcileOnce(t, q, now, limit);
            && Listed(t')
            && ReconcileOnce(t', q', now, limit) == (t', q', 0)
  {
    CandidateFacts(t, now, limit);
    ScanAgain(t.order, t.rows, now, limit, []);
    var (t', candidates) := ListCandidates(t, now, limit);
    assert ListCandidates(t', now, limit) == (t', candidates);
    RequeueFacts(q, candidates);
    RequeueNothing(RequeueAll(q, candidates).0, candidates);
  }
}
