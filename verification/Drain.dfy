// What draining the queue does to the ledger: the termination measure, and the runs
// that the draw and the replies to a job force.

module Drain {
  import opened Basics
  import opened Ids
  import opened Jobs
  import opened Queue
  import opened Ledger
  import opened Faults
  import opened Handler
  import opened Outcomes

  // Attempts a row may still start.
  function Remaining(row: JobRecord): nat {
    if Terminal(row.status) then 0 else row.AttemptsRemaining()
  }

  function TotalRemaining(order: seq<Uuid>, rows: map<Uuid, JobRecord>): nat
    requires forall j :: j in order ==> j in rows
  {
    if order == [] then 0 else Remaining(rows[order[0]]) + TotalRemaining(order[1..], rows)
  }

  lemma {:induction false} TotalMonotone(order: seq<Uuid>, rows: map<Uuid, JobRecord>, rows': map<Uuid, JobRecord>)
    requires forall j :: j in order ==> j in rows && j in rows' && Remaining(rows'[j]) <= Remaining(rows[j])
    ensures TotalRemaining(order, rows') <= TotalRemaining(order, rows)
    ensures (exists j :: j in order && Remaining(rows'[j]) < Remaining(rows[j]))
            ==> TotalRemaining(order, rows') < TotalRemaining(order, rows)
  {
    if order != [] {
      TotalMonotone(order[1..], rows, rows');
    }
  }

  // ----- what a job goes through -----

  // A worker and what surrounds it: the oracle stands for the inference service, its reply to
  // the n-th attempt of a job.
  datatype Setting = Setting(cfg: Config, policy: FaultPolicy, oracle: (Uuid, nat) -> Reply)

  function HistoryOf(attempts: seq<JobAttempt>, id: Uuid): seq<JobAttempt> {
    if attempts == [] then []
    else
      var last := attempts[|attempts| - 1];
      HistoryOf(attempts[..|attempts| - 1], id) + (if last.jobId == id then [last] else [])
  }

  // The n-th attempt at a stored PDF while these slots are held by others.
  function EndingAt(st: Setting, held: set<nat>, j: Uuid, n: nat): Ending {
    EndingOf(st.policy, j, LeastFree(held, 0, st.cfg.slots).None?, true, st.oracle(j, n))
  }

  // The history rows of the attempts after the n0-th up to the n-th.
  function Trail(st: Setting, held: set<nat>, j: Uuid, n0: nat, n: nat): seq<JobAttempt>
    requires n0 <= n
  {
    if n == n0 then [] else Trail(st, held, j, n0, n - 1) + EntryOf(EndingAt(st, held, j, n), j, n)
  }

  // What attempts in this setting made of a row: each but the last was to be tried again, and
  // the last is what the row tells.
  predicate Follows(st: Setting, held: set<nat>, row0: JobRecord, row: JobRecord, history0: seq<JobAttempt>, history: seq<JobAttempt>) {
    && row.info == row0.info && row0.attemptCount <= row.attemptCount
    && history == history0 + Trail(st, held, row.Id(), row0.attemptCount, row.attemptCount)
    && (forall n :: row0.attemptCount < n < row.attemptCount ==> Again(EndingAt(st, held, row.Id(), n)))
    && if row.attemptCount == row0.attemptCount then row == row0
       else LastAttempt(EndingAt(st, held, row.Id(), row.attemptCount), row)
  }

  predicate Again(e: Ending) {
    e.Faulted? && e.again
  }

  predicate LastAttempt(e: Ending, row: JobRecord) {
    !e.Broken? && row.status == StatusOf(e, row.attemptCount <= row.info.maxRetries) && row.resultSummary == Some(ReasonOf(e))
  }

  // One crash-free process_one of a popped id, as the drain loop sees it.
  ghost predicate DrainStep(st: Setting, w: World, w': World, id: Uuid) {
    && TableOk(w'.ledger) && WakeOk(w'.queue) && w'.held == w.held
    && w'.ledger.order == w.ledger.order && w'.ledger.rows.Keys == w.ledger.rows.Keys
    && (forall j :: j in w.ledger.rows && j != id ==> w'.ledger.rows[j] == w.ledger.rows[j])
    && w'.queue.processing == w.queue.processing - {id}
    && (forall j :: j != id ==> HistoryOf(w'.attempts, j) == HistoryOf(w.attempts, j))
    && (if CanClaim(w.ledger, id) then
          && DrainedRow(st, w.held, id, w.ledger.rows[id], w'.ledger.rows[id], HistoryOf(w.attempts, id), HistoryOf(w'.attempts, id))
          && Remaining(w'.ledger.rows[id]) < Remaining(w.ledger.rows[id])
          && w'.queue.pending == (if w'.ledger.rows[id].status.Retry? then w.queue.pending + [id] else w.queue.pending)
        else
          && w'.ledger == w.ledger && w'.attempts == w.attempts
          && w'.queue.pending == w.queue.pending)
  }

  // One more attempt of the job.
  predicate DrainedRow(st: Setting, held: set<nat>, id: Uuid, before: JobRecord, after: JobRecord,
                       history: seq<JobAttempt>, history': seq<JobAttempt>) {
    && after.info == before.info && after.attemptCount == before.attemptCount + 1
    && (Terminal(after.status) || after.status.Retry?)
    && LastAttempt(EndingAt(st, held, id, after.attemptCount), after)
    && history' == history + EntryOf(EndingAt(st, held, id, after.attemptCount), id, after.attemptCount)
  }

  lemma HistoryExtend(attempts: seq<JobAttempt>, more: seq<JobAttempt>, j: Uuid)
    requires |more| <= 1
    ensures HistoryOf(attempts + more, j) == HistoryOf(attempts, j) + (if more != [] && more[0].jobId == j then more else [])
  {
    if more == [] {
      assert attempts + more == attempts;
    } else {
      assert (attempts + more)[..|attempts|] == attempts && more == [more[0]];
    }
  }

  // One more attempt of a claimable row.
  lemma FollowsOn(st: Setting, held: set<nat>, row0: JobRecord, before: JobRecord, after: JobRecord,
                  history0: seq<JobAttempt>, history: seq<JobAttempt>, history': seq<JobAttempt>)
    requires Claimable(before.status) && Follows(st, held, row0, before, history0, history)
    requires DrainedRow(st, held, before.Id(), before, after, history, history')
    ensures Follows(st, held, row0, after, history0, history')
  {
    hide EndingAt, EntryOf;
    var id, n0, n := before.Id(), row0.attemptCount, before.attemptCount;
    if n > n0 {
      assert Again(EndingAt(st, held, id, n));
    }
    Regroup(history0, Trail(st, held, id, n0, n), EntryOf(EndingAt(st, held, id, n + 1), id, n + 1));
  }

  lemma ProcessOneDrains(st: Setting, w: World, id: Uuid, env: Env)
    requires TableOk(w.ledger) && WakeOk(w.queue) && id in w.queue.processing
    requires !Raises(st.cfg, w, id, env.inp)
    requires CanClaim(w.ledger, id) ==>
               env.inp == Inputs(Choose(st.policy, id), true, st.oracle(id, w.ledger.rows[id].attemptCount + 1))
    ensures DrainStep(st, w, Handler.ProcessOne(st.cfg, w, id, env), id)
  {
    hide ProcessOne, RowOk, EndingOf, StatusOf, EntryOf, Choose, LeastFree;
    var w' := Handler.ProcessOne(st.cfg, w, id, env);
    ProcessOneEffect(st.cfg, w, id, env);
    if CanClaim(w.ledger, id) {
      RowAt(w.ledger, id);
      ProcessOneSettles(st.cfg, w, id, env);
      AttemptEnds(st.cfg, st.policy, w, id, env);
      var before, after := w.ledger.rows[id], w'.ledger.rows[id];
      var entry := EntryOf(EndingAt(st, w.held, id, after.attemptCount), id, after.attemptCount);
      EntryIs(EndingAt(st, w.held, id, after.attemptCount), id, after.attemptCount);
      forall j
        ensures HistoryOf(w'.attempts, j) == HistoryOf(w.attempts, j) + (if j == id then entry else [])
      {
        HistoryExtend(w.attempts, entry, j);
      }
      AttemptUsed(before, after);
    } else {
      ProcessOneIdle(st.cfg, w, id, env);
      AcknowledgeFacts(w.queue, id);
    }
  }

  lemma EntryIs(e: Ending, id: Uuid, n: nat)
    ensures |EntryOf(e, id, n)| <= 1 && forall a :: a in EntryOf(e, id, n) ==> a.jobId == id
  {
  }

  lemma AttemptUsed(before: JobRecord, after: JobRecord)
    requires Claimable(before.status) && RowOk(before) && SettledRow(before, after)
    ensures Remaining(after) < Remaining(before)
  {
  }

  // A drain that was given a claimable row used up attempts.
  lemma DrainedTotal(order: seq<Uuid>, rows: map<Uuid, JobRecord>, rows': map<Uuid, JobRecord>, id: Uuid)
    requires forall j :: j in order ==> j in rows && j in rows' && (rows'[j] == rows[j] || Terminal(rows'[j].status))
    requires id in order && Claimable(rows[id].status) && RowOk(rows[id]) && Terminal(rows'[id].status)
    ensures TotalRemaining(order, rows') < TotalRemaining(order, rows)
  {
    TotalMonotone(order, rows, rows');
  }

  // ----- the drain loop -----

  // The job was waiting for this drain.
  predicate Waiting(w: World, j: Uuid) {
    j in w.queue.pending && CanClaim(w.ledger, j)
  }

  ghost predicate SameTable(w0: World, w: World) {
    TableOk(w.ledger) && w.ledger.order == w0.ledger.order && w.ledger.rows.Keys == w0.ledger.rows.Keys && w.held == w0.held
  }

  // A row that was not waiting is untouched; a waiting one is terminal, or claimable and
  // pending, and its attempts follow its draw and the replies it got.
  ghost predicate DrainRow(st: Setting, w0: World, w: World, j: Uuid)
    requires j in w0.ledger.rows && j in w.ledger.rows
  {
    if Waiting(w0, j) then
      && (Terminal(w.ledger.rows[j].status) || (Claimable(w.ledger.rows[j].status) && j in w.queue.pending))
      && Follows(st, w0.held, w0.ledger.rows[j], w.ledger.rows[j], HistoryOf(w0.attempts, j), HistoryOf(w.attempts, j))
    else w.ledger.rows[j] == w0.ledger.rows[j] && HistoryOf(w.attempts, j) == HistoryOf(w0.attempts, j)
  }

  ghost predicate Draining(st: Setting, w0: World, w: World) {
    && SameTable(w0, w) && WakeOk(w.queue) && w.queue.processing == w0.queue.processing
    && (forall j :: j in w0.ledger.rows ==> DrainRow(st, w0, w, j))
    && (forall x :: x in w.queue.pending ==> x in w0.queue.pending)
  }

  // What a complete drain achieves.
  ghost predicate Drained(st: Setting, w0: World, w: World) {
    && SameTable(w0, w) && w.queue == Wake([], w0.queue.processing)
    && (forall j :: j in w0.ledger.rows && !Waiting(w0, j) ==>
         w.ledger.rows[j] == w0.ledger.rows[j] && HistoryOf(w.attempts, j) == HistoryOf(w0.attempts, j))
    && (forall j :: j in w0.ledger.rows && Waiting(w0, j) ==>
         && Terminal(w.ledger.rows[j].status)
         && Follows(st, w0.held, w0.ledger.rows[j], w.ledger.rows[j], HistoryOf(w0.attempts, j), HistoryOf(w.attempts, j)))
  }

  lemma DrainBegins(st: Setting, w: World)
    requires TableOk(w.ledger) && WakeOk(w.queue)
    ensures Draining(st, w, w)
  {
    forall j
      ensures HistoryOf(w.attempts, j) + [] == HistoryOf(w.attempts, j)
    {
    }
  }

  lemma DrainRowContinues(st: Setting, w0: World, w: World, w1: World, w': World, id: Uuid, j: Uuid)
    requires j in w0.ledger.rows && w.ledger.rows.Keys == w0.ledger.rows.Keys && DrainRow(st, w0, w, j)
    requires w1.ledger == w.ledger && w1.attempts == w.attempts && DrainStep(st, w1, w', id)
    requires forall x :: x in w.queue.pending ==> x == id || x in w1.queue.pending
    requires id in w0.queue.pending && w.ledger.rows[j].Id() == j && w1.held == w0.held
    ensures DrainRow(st, w0, w', j)
  {
    hide Remaining, TableOk, WakeOk, Follows, LastAttempt, EndingAt, EntryOf, HistoryOf;
    var before, after := w.ledger.rows[j], w'.ledger.rows[j];
    assert CanClaim(w.ledger, j) <==> Claimable(before.status);
    if j == id && CanClaim(w.ledger, id) {
      FollowsOn(st, w0.held, w0.ledger.rows[j], before, after, HistoryOf(w0.attempts, j), HistoryOf(w.attempts, j), HistoryOf(w'.attempts, j));
    }
  }

  // The queue after one id has been drained.
  lemma DrainedQueue(st: Setting, w: World, w': World, id: Uuid)
    requires WakeOk(w.queue) && w.queue.pending != [] && id == w.queue.pending[0]
    requires DrainStep(st, w.(queue := PopWake(w.queue).0), w', id)
    ensures id in w.queue.pending && WakeOk(w'.queue) && w'.queue.processing == w.queue.processing
    ensures forall x :: x in w'.queue.pending ==> x in w.queue.pending
    ensures forall x :: x in w.queue.pending ==> x == id || x in PopWake(w.queue).0.pending
    ensures |w'.queue.pending| < |w.queue.pending| || CanClaim(w.ledger, id)
  {
    hide TableOk, Remaining;
    assert id in w.queue.pending && id !in w.queue.processing;
  }

  lemma DrainContinues(st: Setting, w0: World, w: World, w': World)
    requires Draining(st, w0, w) && w.queue.pending != []
    requires DrainStep(st, w.(queue := PopWake(w.queue).0), w', w.queue.pending[0])
    ensures Draining(st, w0, w')
    ensures TotalRemaining(w'.ledger.order, w'.ledger.rows) < TotalRemaining(w.ledger.order, w.ledger.rows)
            || (w'.ledger == w.ledger && |w'.queue.pending| < |w.queue.pending|)
  {
    var id, w1 := w.queue.pending[0], w.(queue := PopWake(w.queue).0);
    DrainStepTable(st, w1, w', id);
    hide DrainRow, RowOk, WakeOk, DrainStep, TableOk;
    DrainedQueue(st, w, w', id);
    DrainingFacts(st, w0, w);
    forall j | j in w0.ledger.rows
      ensures DrainRow(st, w0, w', j)
    {
      DrainRowContinues(st, w0, w, w1, w', id, j);
    }
    DrainStepTotal(st, w1, w', id);
  }

  lemma DrainStepTable(st: Setting, w: World, w': World, id: Uuid)
    requires DrainStep(st, w, w', id)
    ensures SameTable(w, w')
  {
  }

  lemma DrainStepTotal(st: Setting, w: World, w': World, id: Uuid)
    requires TableOk(w.ledger) && DrainStep(st, w, w', id)
    ensures TotalRemaining(w'.ledger.order, w'.ledger.rows) < TotalRemaining(w.ledger.order, w.ledger.rows)
            || (w'.ledger == w.ledger && w'.queue.pending == w.queue.pending)
  {
    hide Remaining, RowOk;
    TotalMonotone(w.ledger.order, w.ledger.rows, w'.ledger.rows);
  }

  lemma DrainEnds(st: Setting, w0: World, w: World)
    requires Draining(st, w0, w) && w.queue.pending == []
    ensures Drained(st, w0, w)
  {
    hide RowOk, WakeOk;
    forall j | j in w0.ledger.rows
      ensures DrainRow(st, w0, w, j)
    {
    }
  }

  // If everything claimable was waiting and nothing was RUNNING, nothing is left to run.
  lemma DrainedCompletely(st: Setting, w0: World, w: World)
    requires Drained(st, w0, w)
    requires forall j :: j in w0.ledger.rows ==> !w0.ledger.rows[j].status.Running? && (CanClaim(w0.ledger, j) ==> j in w0.queue.pending)
    ensures forall j :: j in w.ledger.rows ==> w.ledger.rows[j].status.Quarantined? || Terminal(w.ledger.rows[j].status)
  {
    forall j | j in w.ledger.rows
      ensures w.ledger.rows[j].status.Quarantined? || Terminal(w.ledger.rows[j].status)
    {
      if !Waiting(w0, j) {
        assert w.ledger.rows[j] == w0.ledger.rows[j];
      }
    }
  }

  lemma DrainedRows(st: Setting, w0: World, w: World)
    requires Drained(st, w0, w)
    ensures SameTable(w0, w)
    ensures forall j :: j in w0.ledger.rows ==>
              w.ledger.rows[j] == w0.ledger.rows[j]
              || (Waiting(w0, j) && Terminal(w.ledger.rows[j].status) && w.ledger.rows[j].info == w0.ledger.rows[j].info)
    ensures forall j :: Waiting(w0, j) ==> Terminal(w.ledger.rows[j].status)
  {
    forall j | j in w0.ledger.rows
      ensures w.ledger.rows[j] == w0.ledger.rows[j]
              || (Waiting(w0, j) && Terminal(w.ledger.rows[j].status) && w.ledger.rows[j].info == w0.ledger.rows[j].info)
    {
      if !Waiting(w0, j) {
        assert w.ledger.rows[j] == w0.ledger.rows[j];
      }
    }
  }

  // Projections of the loop predicates.
  lemma DrainingFacts(st: Setting, w0: World, w: World)
    requires Draining(st, w0, w)
    ensures TableOk(w.ledger) && Listed(w.ledger) && WakeOk(w.queue)
    ensures w.queue.pending != [] ==> WakeOk(PopWake(w.queue).0) && w.queue.pending[0] in PopWake(w.queue).0.processing
    ensures forall j :: j in w.ledger.rows ==> w.ledger.rows[j].Id() == j
  {
    hide DrainRow;
    if w.queue.pending != [] {
      assert w.queue.pending[0] in w.queue.pending;
    }
  }

  lemma DrainStepInfo(st: Setting, w: World, w': World, id: Uuid)
    requires DrainStep(st, w, w', id)
    ensures w'.ledger.rows.Keys == w.ledger.rows.Keys
    ensures forall j :: j in w.ledger.rows ==> w'.ledger.rows[j].info == w.ledger.rows[j].info
  {
  }

  lemma DrainedFacts(st: Setting, w0: World, w: World)
    requires Drained(st, w0, w)
    ensures w.queue == Wake([], w0.queue.processing) && w.held == w0.held && w.ledger.rows.Keys == w0.ledger.rows.Keys
    ensures forall j :: j in w0.ledger.rows ==> w.ledger.rows[j].info == w0.ledger.rows[j].info
  {
    forall j | j in w0.ledger.rows
      ensures w.ledger.rows[j].info == w0.ledger.rows[j].info
    {
      if !Waiting(w0, j) {
        assert w.ledger.rows[j] == w0.ledger.rows[j];
      }
    }
  }

  // ----- what a drain makes of a waiting job, by its draw -----

  lemma {:induction false} TrailAt(st: Setting, held: set<nat>, j: Uuid, n0: nat, n: nat)
    requires n0 <= n && forall k :: n0 < k <= n ==> |EntryOf(EndingAt(st, held, j, k), j, k)| == 1
    ensures |Trail(st, held, j, n0, n)| == n - n0
    ensures forall k :: n0 < k <= n ==> [Trail(st, held, j, n0, n)[k - n0 - 1]] == EntryOf(EndingAt(st, held, j, k), j, k)
  {
    hide EntryOf, EndingAt;
    if n > n0 {
      TrailAt(st, held, j, n0, n - 1);
    }
  }

  lemma {:induction false} TrailNone(st: Setting, held: set<nat>, j: Uuid, n0: nat, n: nat)
    requires n0 <= n && forall k :: n0 < k <= n ==> EntryOf(EndingAt(st, held, j, k), j, k) == []
    ensures Trail(st, held, j, n0, n) == []
  {
    hide EntryOf, EndingAt;
    if n > n0 {
      TrailNone(st, held, j, n0, n - 1);
    }
  }

  predicate EndsAs(row: JobRecord, status: JobStatus, n: nat, summary: string) {
    row.status == status && row.attemptCount == n && row.resultSummary == Some(summary)
  }

  predicate Grows(h0: seq<JobAttempt>, h: seq<JobAttempt>, more: int) {
    |h| == |h0| + more && h0 <= h
  }

  // Timed out at every attempt up to the ceiling, with a history row for each.
  predicate TimesOut(before: JobRecord, after: JobRecord, h0: seq<JobAttempt>, h: seq<JobAttempt>) {
    var n0, ceiling := before.attemptCount, before.info.maxRetries + 1;
    && EndsAs(after, DeadLetter, ceiling, "injected timeout") && Grows(h0, h, ceiling - n0)
    && forall k :: |h0| <= k < |h| ==> h[k] == JobAttempt(before.Id(), n0 + 1 + k - |h0|, "timeout", Some("injected timeout"))
  }

  // Failed for good at the next attempt.
  predicate FailsOnce(before: JobRecord, after: JobRecord, h0: seq<JobAttempt>, h: seq<JobAttempt>) {
    var n := before.attemptCount + 1;
    EndsAs(after, DeadLetter, n, "injected failure") && h == h0 + [JobAttempt(before.Id(), n, "failure", Some("injected failure"))]
  }

  // Found no slot at any attempt, and left no history row.
  predicate FindsNoSlot(before: JobRecord, after: JobRecord, h0: seq<JobAttempt>, h: seq<JobAttempt>) {
    EndsAs(after, DeadLetter, before.info.maxRetries + 1, "inference capacity exhausted") && h == h0
  }

  predicate RowTells(row: JobAttempt, j: Uuid, n: nat, reply: Reply) {
    match reply
    case Summary(_) => row == JobAttempt(j, n, "succeeded", None)
    case Error(kind, message) => row == JobAttempt(j, n, KindName(kind), Some(message))
    case Escapes => false
  }

  // Went at every attempt as the inference service had it, up to the first reply that is no
  // retryable error or up to the ceiling, with a history row for each.
  predicate GoesByReplies(oracle: (Uuid, nat) -> Reply, before: JobRecord, after: JobRecord, h0: seq<JobAttempt>, h: seq<JobAttempt>) {
    var j, n0, n, ceiling := before.Id(), before.attemptCount, after.attemptCount, before.info.maxRetries + 1;
    && n0 < n <= ceiling && Grows(h0, h, n - n0)
    && (forall k :: |h0| <= k < |h| ==> RowTells(h[k], j, n0 + 1 + k - |h0|, oracle(j, n0 + 1 + k - |h0|)))
    && (forall i :: n0 < i < n ==> oracle(j, i).Error? && !oracle(j, i).kind.Fatal?)
    && match oracle(j, n)
       case Summary(text) => EndsAs(after, Succeeded, n, text)
       case Error(kind, message) => EndsAs(after, DeadLetter, n, message) && (kind.Fatal? || n == ceiling)
       case Escapes => false
  }

  // A drain of a waiting job by its draw, whatever attempts the job had before: below the
  // timeout rate it times out until the ceiling; from there to the sum of the rates its next
  // attempt is its last; above that no fault is injected, and the slots and the replies decide.
  lemma DrainedByDraw(st: Setting, w0: World, w: World, j: Uuid)
    requires Drained(st, w0, w) && TableOk(w0.ledger) && Waiting(w0, j) && forall id, n :: !st.oracle(id, n).Escapes?
    ensures j in w.ledger.rows
    ensures var before, after, h0, h := w0.ledger.rows[j], w.ledger.rows[j], HistoryOf(w0.attempts, j), HistoryOf(w.attempts, j);
            var draw := st.policy.draw(st.policy.seed, j);
            if draw < st.policy.timeoutRate then TimesOut(before, after, h0, h)
            else if draw < st.policy.timeoutRate + st.policy.failureRate then FailsOnce(before, after, h0, h)
            else if forall s :: 0 <= s < st.cfg.slots ==> s in w0.held then FindsNoSlot(before, after, h0, h)
            else GoesByReplies(st.oracle, before, after, h0, h)
  {
    hide Trail, TableOk, Drained, HistoryOf, TimesOut, FailsOnce, FindsNoSlot, GoesByReplies, Follows, RowOk, EndingAt;
    DrainedFollows(st, w0, w, j);
    var draw, h0, h := st.policy.draw(st.policy.seed, j), HistoryOf(w0.attempts, j), HistoryOf(w.attempts, j);
    if draw < st.policy.timeoutRate {
      FollowsTimeouts(st, w0.held, w0.ledger.rows[j], w.ledger.rows[j], h0, h);
    } else if draw < st.policy.timeoutRate + st.policy.failureRate {
      FollowsFailure(st, w0.held, w0.ledger.rows[j], w.ledger.rows[j], h0, h);
    } else if forall s :: 0 <= s < st.cfg.slots ==> s in w0.held {
      FollowsNoSlot(st, w0.held, w0.ledger.rows[j], w.ledger.rows[j], h0, h);
    } else {
      FollowsReplies(st, w0.held, w0.ledger.rows[j], w.ledger.rows[j], h0, h);
    }
  }

  // A row that went on to its end.
  predicate WentOn(st: Setting, held: set<nat>, row0: JobRecord, row: JobRecord, h0: seq<JobAttempt>, h: seq<JobAttempt>) {
    Follows(st, held, row0, row, h0, h) && row0.attemptCount < row.attemptCount && Terminal(row.status) && RowOk(row)
  }

  lemma DrainedFollows(st: Setting, w0: World, w: World, j: Uuid)
    requires Drained(st, w0, w) && TableOk(w0.ledger) && Waiting(w0, j)
    ensures j in w.ledger.rows && w.ledger.rows[j].Id() == j
    ensures WentOn(st, w0.held, w0.ledger.rows[j], w.ledger.rows[j], HistoryOf(w0.attempts, j), HistoryOf(w.attempts, j))
  {
    hide HistoryOf, LastAttempt, EndingAt, Trail;
  }

  lemma FollowsTimeouts(st: Setting, held: set<nat>, row0: JobRecord, row: JobRecord, h0: seq<JobAttempt>, h: seq<JobAttempt>)
    requires WentOn(st, held, row0, row, h0, h) && st.policy.draw(st.policy.seed, row.Id()) < st.policy.timeoutRate
    ensures TimesOut(row0, row, h0, h)
  {
    hide Trail;
    var j, n0 := row.Id(), row0.attemptCount;
    TrailAt(st, held, j, n0, row.attemptCount);
    forall k | |h0| <= k < |h|
      ensures h[k] == JobAttempt(j, n0 + 1 + k - |h0|, "timeout", Some("injected timeout"))
    {
      var i := n0 + 1 + k - |h0|;
      assert [h[k]] == EntryOf(EndingAt(st, held, j, i), j, i);
    }
  }

  lemma FollowsFailure(st: Setting, held: set<nat>, row0: JobRecord, row: JobRecord, h0: seq<JobAttempt>, h: seq<JobAttempt>)
    requires WentOn(st, held, row0, row, h0, h)
    requires var draw := st.policy.draw(st.policy.seed, row.Id());
             st.policy.timeoutRate <= draw < st.policy.timeoutRate + st.policy.failureRate
    ensures FailsOnce(row0, row, h0, h)
  {
    hide Trail;
    var j, n0, n := row.Id(), row0.attemptCount, row.attemptCount;
    assert !Again(EndingAt(st, held, j, n0 + 1));
    TrailAt(st, held, j, n0, n);
    assert Trail(st, held, j, n0, n) == [JobAttempt(j, n, "failure", Some("injected failure"))];
  }

  predicate Undisturbed(p: FaultPolicy, j: Uuid) {
    var draw := p.draw(p.seed, j);
    !(draw < p.timeoutRate) && !(draw < p.timeoutRate + p.failureRate)
  }

  lemma FollowsNoSlot(st: Setting, held: set<nat>, row0: JobRecord, row: JobRecord, h0: seq<JobAttempt>, h: seq<JobAttempt>)
    requires WentOn(st, held, row0, row, h0, h) && Undisturbed(st.policy, row.Id())
    requires forall s :: 0 <= s < st.cfg.slots ==> s in held
    ensures FindsNoSlot(row0, row, h0, h)
  {
    hide Trail;
    TrailNone(st, held, row.Id(), row0.attemptCount, row.attemptCount);
    assert h0 + [] == h0;
  }

  lemma FollowsReplies(st: Setting, held: set<nat>, row0: JobRecord, row: JobRecord, h0: seq<JobAttempt>, h: seq<JobAttempt>)
    requires WentOn(st, held, row0, row, h0, h) && Undisturbed(st.policy, row.Id())
    requires !forall s :: 0 <= s < st.cfg.slots ==> s in held
    requires forall n :: !st.oracle(row.Id(), n).Escapes?
    ensures GoesByReplies(st.oracle, row0, row, h0, h)
  {
    hide Trail, KindName;
    var j, n0, n := row.Id(), row0.attemptCount, row.attemptCount;
    TrailAt(st, held, j, n0, n);
    forall k | |h0| <= k < |h|
      ensures RowTells(h[k], j, n0 + 1 + k - |h0|, st.oracle(j, n0 + 1 + k - |h0|))
    {
      var i := n0 + 1 + k - |h0|;
      assert [h[k]] == EntryOf(EndingAt(st, held, j, i), j, i);
    }
    forall i | n0 < i < n
      ensures st.oracle(j, i).Error? && !st.oracle(j, i).kind.Fatal?
    {
      assert Again(EndingAt(st, held, j, i));
    }
  }
}
