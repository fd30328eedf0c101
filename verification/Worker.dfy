// The worker (worker.py): process_one and reconcile_once on the ledger and queue
// objects, the drain loop, and recovery from the ledger alone.

module Worker {
  import opened Basics
  import opened Ids
  import opened Jobs
  import opened Queue
  import opened Ledger
  import opened Reconcile
  import opened Storage
  import opened Faults
  import opened Handler
  import opened Drain
  import opened Recovery
  import opened Sequential

  class Worker {
    const jobs: InMemoryJobRepository
    const queue: InMemoryJobQueue
    const storage: InMemoryObjectStorage
    const policy: FaultPolicy
    const owner: string
    const leaseSeconds: nat
    const batchSize: nat

    constructor (jobs: InMemoryJobRepository, queue: InMemoryJobQueue, storage: InMemoryObjectStorage, policy: FaultPolicy,
                 owner: string, leaseSeconds: nat, batchSize: nat)
      ensures this.jobs == jobs && this.queue == queue && this.storage == storage && this.policy == policy
      ensures this.owner == owner && this.leaseSeconds == leaseSeconds && this.batchSize == batchSize
    {
      this.jobs, this.queue, this.storage, this.policy := jobs, queue, storage, policy;
      this.owner, this.leaseSeconds, this.batchSize := owner, leaseSeconds, batchSize;
    }

    ghost function Cfg(): Config {
      Config(owner, leaseSeconds, jobs.slots)
    }

    // The worker with the inference service that surrounds it.
    ghost function With(oracle: (Uuid, nat) -> Reply): Setting {
      Setting(Cfg(), policy, oracle)
    }

    ghost function Snapshot(): World
      reads jobs, queue
    {
      World(jobs.jobs, queue.Contents(), jobs.Held(), jobs.attempts)
    }

    predicate StoredFor(id: Uuid)
      reads jobs, storage
    {
      id in jobs.jobs.rows && jobs.jobs.rows[id].info.objectKey in storage.objects
    }

    // Save, record, acknowledge, and enqueue again if the row is RETRY.
    method Settle(updated: JobRecord, attempt: Option<JobAttempt>, ghost since: nat)
      modifies jobs`jobs, jobs`attempts, queue
      ensures Snapshot() == Handler.Settle(old(Snapshot()), Saving(updated, attempt, None, since))
    {
      jobs.Save(updated);
      if attempt.Some? {
        jobs.RecordAttempt(attempt.value);
      }
      queue.Ack(updated.Id());
      if updated.status.Retry? {
        queue.Offer(updated.Id());
      }
    }

    // The part under an inference slot, which is freed on every exit. `reply` is what the
    // inference call does if it is reached.
    method Infer(claimed: JobRecord, slot: nat, doneAt: nat, reply: Reply) returns (raised: bool)
      requires claimed.status.Running?
      modifies jobs`jobs, jobs`attempts, jobs`held, queue
      ensures raised == (claimed.info.objectKey !in storage.objects || reply.Escapes?)
      ensures var pc := AfterInference(claimed, slot, doneAt, claimed.info.objectKey in storage.objects, reply);
              Snapshot() == if raised then old(Snapshot()).(held := old(Snapshot()).held - {slot}) else Handler.Settle(old(Snapshot()), pc)
    {
      var content := storage.GetBytes(claimed.info.objectKey);
      raised := content.None? || reply.Escapes?;
      if !raised {
        match reply
        case Summary(text) =>
          Settle(CompleteSuccess(claimed, text, doneAt).job, Some(JobAttempt(claimed.Id(), claimed.attemptCount, "succeeded", None)), doneAt);
        case Error(kind, message) =>
          var updated := if kind.TimedOut? || kind.RateLimited? || kind.Transient? then CompleteRetryableFailure(claimed, message, doneAt).job
                         else CompleteTerminalFailure(claimed, message, doneAt).job;
          Settle(updated, Some(JobAttempt(claimed.Id(), claimed.attemptCount, KindName(kind), Some(message))), doneAt);
      }
      jobs.ReleaseInferenceSlot(slot);
    }

    // `raised` tells that an exception other than InferenceError left the method.
    method ProcessOne(id: Uuid, claimAt: nat, doneAt: nat, reply: Reply) returns (raised: bool)
      requires id in jobs.jobs.rows ==> jobs.jobs.rows[id].Id() == id
      modifies jobs`jobs, jobs`attempts, jobs`held, queue
      ensures var inp := Inputs(Choose(policy, id), old(StoredFor(id)), reply);
              && Snapshot() == Handler.ProcessOne(Cfg(), old(Snapshot()), id, Env(claimAt, doneAt, inp))
              && raised == Raises(Cfg(), old(Snapshot()), id, inp)
    {
      hide Handler.ProcessOne, Handler.Settle, CompleteRetryableFailure, CompleteTerminalFailure, AfterInference;
      ghost var env := Env(claimAt, doneAt, Inputs(Choose(policy, id), StoredFor(id), reply));
      ghost var before := Snapshot();
      var won := jobs.ClaimJob(id, owner, claimAt, leaseSeconds);
      if won.None? {
        queue.Ack(id);
        ProcessOneIdle(Cfg(), before, id, env);
        return false;
      }
      var claimed := won.value;
      ProcessOneResolves(Cfg(), before, id, env);
      var outcome := Choose(policy, claimed.Id());
      if outcome.Timeout? {
        CompletionFacts(claimed, "injected timeout", doneAt);
        var updated := CompleteRetryableFailure(claimed, "injected timeout", doneAt).job;
        Settle(updated, Some(JobAttempt(claimed.Id(), claimed.attemptCount, "timeout", Some("injected timeout"))), doneAt);
        return false;
      }
      if outcome.Failure? {
        CompletionFacts(claimed, "injected failure", doneAt);
        var updated := CompleteTerminalFailure(claimed, "injected failure", doneAt).job;
        Settle(updated, Some(JobAttempt(claimed.Id(), claimed.attemptCount, "failure", Some("injected failure"))), doneAt);
        return false;
      }
      var slot := jobs.AcquireInferenceSlot();
      if slot.None? {
        assert jobs.Held() == before.held;
        CompletionFacts(claimed, "inference capacity exhausted", doneAt);
        var updated := CompleteRetryableFailure(claimed, "inference capacity exhausted", doneAt).job;
        Settle(updated, None, doneAt);
        return false;
      }
      raised := Infer(claimed, slot.value, doneAt, reply);
    }

    method ReconcileOnce(now: nat) returns (requeued: nat)
      requires TableOk(jobs.jobs)
      modifies jobs`jobs, queue
      ensures (jobs.jobs, queue.Contents(), requeued) == Reconcile.ReconcileOnce(old(jobs.jobs), old(queue.Contents()), now, batchSize)
    {
      var candidates := jobs.ListReconcileCandidates(now, batchSize);
      requeued := 0;
      ghost var goal := RequeueAll(queue.Contents(), candidates);
      var i := 0;
      while i < |candidates|
        invariant 0 <= i <= |candidates|
        invariant jobs.jobs == ListCandidates(old(jobs.jobs), now, batchSize).0
        invariant var (q, n) := RequeueAll(queue.Contents(), candidates[i..]); goal == (q, requeued + n)
      {
        var job := candidates[i];
        assert candidates[i..][1..] == candidates[i + 1..];
        if Claimable(job.status) {
          var added := queue.Requeue(job.Id());
          if added {
            requeued := requeued + 1;
          }
        }
        i := i + 1;
      }
    }

    // Every row's PDF is in the object store.
    predicate AllStored()
      reads jobs, storage
    {
      forall j :: j in jobs.jobs.rows ==> jobs.jobs.rows[j].info.objectKey in storage.objects
    }

    // Pop one id and process it to the end; any time may pass in between.
    method DrainOne(from: nat, oracle: (Uuid, nat) -> Reply) returns (now: nat, ghost env: Env)
      requires TableOk(jobs.jobs) && WakeOk(queue.Contents()) && queue.pending != []
      requires AllStored() && forall id, n :: !oracle(id, n).Escapes?
      modifies jobs`jobs, jobs`attempts, jobs`held, queue
      ensures from <= env.claimAt <= env.doneAt == now
      ensures var w, id := old(Snapshot()), old(queue.pending)[0];
              var popped := w.(queue := PopWake(w.queue).0);
              && Snapshot() == Handler.ProcessOne(Cfg(), popped, id, env)
              && DrainStep(With(oracle), popped, Snapshot(), id)
    {
      hide DrainStep, Handler.ProcessOne, RowOk;
      ghost var w := Snapshot();
      assert queue.pending[0] in queue.pending;
      var id := queue.Pop();
      var waited: nat, worked: nat := *, *;
      var claimAt := from + waited;
      now := claimAt + worked;
      var attempt := if id.value in jobs.jobs.rows then jobs.jobs.rows[id.value].attemptCount + 1 else 0;
      var raised := ProcessOne(id.value, claimAt, now, oracle(id.value, attempt));
      env := Env(claimAt, now, Inputs(Choose(policy, id.value), id.value in w.ledger.rows, oracle(id.value, attempt)));
      ProcessOneDrains(With(oracle), w.(queue := PopWake(w.queue).0), id.value, env);
    }

    // Pop and process until nothing is pending. The deeds say what was done when.
    method DrainQueue(from: nat, oracle: (Uuid, nat) -> Reply) returns (now: nat, ghost deeds: seq<Deed>)
      requires TableOk(jobs.jobs) && WakeOk(queue.Contents())
      requires AllStored() && forall id, n :: !oracle(id, n).Escapes?
      modifies jobs`jobs, jobs`attempts, jobs`held, queue
      ensures Drained(With(oracle), old(Snapshot()), Snapshot())
      ensures Work(Cfg(), batchSize, old(Snapshot()), deeds) == Some(Snapshot()) && Timely(deeds, from, now)
    {
      hide TableOk, WakeOk, Draining, Drained, DrainStep, Handler.ProcessOne, Work, Timely, Do, TotalRemaining;
      ghost var w0 := Snapshot();
      now, deeds := from, [];
      WorkNothing(Cfg(), batchSize, w0, from);
      DrainBegins(With(oracle), w0);
      DrainingFacts(With(oracle), w0, w0);
      while queue.pending != []
        invariant Draining(With(oracle), w0, Snapshot()) && AllStored() && Listed(jobs.jobs)
        invariant Work(Cfg(), batchSize, w0, deeds) == Some(Snapshot()) && Timely(deeds, from, now)
        decreases TotalRemaining(jobs.jobs.order, jobs.jobs.rows), |queue.pending|
      {
        ghost var w := Snapshot();
        DrainingFacts(With(oracle), w0, w);
        ghost var env: Env, before := *, now;
        now, env := DrainOne(now, oracle);
        Handle(Cfg(), batchSize, w0, deeds, w, env, from, before);
        deeds := deeds + [Handled(env)];
        DrainContinues(With(oracle), w0, w, Snapshot());
        DrainingFacts(With(oracle), w0, Snapshot());
        DrainStepInfo(With(oracle), w.(queue := PopWake(w.queue).0), Snapshot(), w.queue.pending[0]);
      }
      DrainEnds(With(oracle), w0, Snapshot());
    }

    // One reconcile pass and, if it woke something, the drain of what it woke.
    method RecoverOnce(ghost t0: Table, ghost now: nat, at: nat, oracle: (Uuid, nat) -> Reply)
      returns (n: nat, end: nat, ghost deeds: seq<Deed>)
      requires Recovering(t0, jobs.jobs, now, batchSize, queue.processing) && now <= at && queue.pending == [] && batchSize > 0
      requires AllStored() && forall id, n :: !oracle(id, n).Escapes?
      modifies jobs`jobs, jobs`attempts, jobs`held, queue
      ensures queue.Contents() == old(queue.Contents()) && jobs.Held() == old(jobs.Held()) && AllStored()
      ensures if n == 0 then Recovered(t0, jobs.jobs, now, batchSize, queue.processing)
              else Recovering(t0, jobs.jobs, now, batchSize, queue.processing)
                   && TotalRemaining(jobs.jobs.order, jobs.jobs.rows) < old(TotalRemaining(jobs.jobs.order, jobs.jobs.rows))
      ensures Work(Cfg(), batchSize, old(Snapshot()), deeds) == Some(Snapshot()) && Timely(deeds, at, end)
    {
      hide WakeOk, Drained, RowOk, TotalRemaining, Recovered, Recovering, Work, Timely, Do, Reconcile.ReconcileOnce, Blocked;
      ghost var before, stuck := Snapshot(), queue.processing;
      OrderOf(t0, jobs.jobs, now, batchSize, stuck);
      WorkNothing(Cfg(), batchSize, before, at);
      Tidy(Cfg(), batchSize, before, [], before, at, at, at);
      end, deeds := at, [] + [Reconciled(at)];
      RecoveryPass(t0, jobs.jobs, now, at, batchSize, stuck);
      n := ReconcileOnce(at);
      SameInfo(before.ledger, jobs.jobs, t0, now, batchSize, stuck);
      if n > 0 {
        ghost var mid := Snapshot();
        OrderOf(t0, jobs.jobs, now, batchSize, stuck);
        ghost var drained: seq<Deed>;
        end, drained := DrainQueue(at, oracle);
        WorkMore(Cfg(), batchSize, before, deeds, drained, at, at, end);
        deeds := deeds + drained;
        DrainedFacts(With(oracle), mid, Snapshot());
        RecoveryDrain(With(oracle), t0, mid, Snapshot(), now, batchSize);
      }
    }

    // Recovery with the pending ids lost, no handler alive and every lease over: alternating
    // reconcile passes with drains terminates, whatever the batch size and whatever ids are
    // stuck in processing, and ends with every job quarantined or terminal that is not stuck
    // itself nor stands behind a whole batch of stuck ready rows.
    method Recover(now: nat, oracle: (Uuid, nat) -> Reply) returns (end: nat, ghost deeds: seq<Deed>)
      requires TableOk(jobs.jobs) && queue.pending == [] && batchSize > 0
      requires AllStored() && forall id, n :: !oracle(id, n).Escapes?
      requires AllExpired(jobs.jobs.rows, now)
      modifies jobs`jobs, jobs`attempts, jobs`held, queue
      ensures Recovered(old(jobs.jobs), jobs.jobs, now, batchSize, queue.processing)
      ensures queue.Contents() == old(queue.Contents()) && jobs.Held() == old(jobs.Held()) && AllStored()
      ensures Work(Cfg(), batchSize, old(Snapshot()), deeds) == Some(Snapshot()) && Timely(deeds, now, end)
    {
      hide WakeOk, RowOk, TotalRemaining, Recovered, Recovering, Work, Timely, Do;
      ghost var t0, w0 := jobs.jobs, Snapshot();
      end, deeds := now, [];
      WorkNothing(Cfg(), batchSize, w0, now);
      RecoveryBegins(t0, now, batchSize, queue.processing);
      OrderOf(t0, jobs.jobs, now, batchSize, queue.processing);
      while true
        invariant Recovering(t0, jobs.jobs, now, batchSize, queue.processing) && Listed(jobs.jobs)
        invariant queue.Contents() == old(queue.Contents()) && jobs.Held() == old(jobs.Held())
        invariant AllStored() && end >= now
        invariant Work(Cfg(), batchSize, w0, deeds) == Some(Snapshot()) && Timely(deeds, now, end)
        decreases TotalRemaining(jobs.jobs.order, jobs.jobs.rows)
      {
        var waited: nat :| true;
        var at := end + waited;
        TimelyLater(deeds, now, end, at);
        ghost var round: seq<Deed>;
        var n;
        n, end, round := RecoverOnce(t0, now, at, oracle);
        TimelyOrders(round, at, end);
        WorkMore(Cfg(), batchSize, w0, deeds, round, now, at, end);
        deeds := deeds + round;
        if n == 0 {
          return;
        }
        OrderOf(t0, jobs.jobs, now, batchSize, queue.processing);
      }
    }
  }
}
