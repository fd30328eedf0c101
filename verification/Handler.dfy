// The worker's handler for one wake item (`Worker.process_one`), written as a program
// counter and one step per await. The sequential worker runs the steps to the end;
// the protocol interleaves them.

module Handler {
  import opened Basics
  import opened Ids
  import opened Jobs
  import opened Queue
  import opened Ledger
  import opened Faults

  datatype World = World(ledger: Table, queue: Wake, held: set<nat>, attempts: seq<JobAttempt>)

  datatype Config = Config(owner: string, leaseSeconds: nat, slots: nat)

  datatype ErrorKind = TimedOut | RateLimited | Transient | Fatal

  // What `extract` does: answer, raise an InferenceError, or let another exception escape.
  datatype Reply = Summary(text: string) | Error(kind: ErrorKind, message: string) | Escapes

  // Everything a handler learns from outside the ledger and the queue.
  datatype Inputs = Inputs(outcome: FaultOutcome, stored: bool, reply: Reply)

  datatype Pc =
    | Popped(id: Uuid)
    | Working(claimed: JobRecord, since: nat)
    | InSlot(claimed: JobRecord, taken: nat, since: nat)
    | Saving(updated: JobRecord, attempt: Option<JobAttempt>, slot: Option<nat>, since: nat)
    | Recording(updated: JobRecord, entry: JobAttempt, slot: Option<nat>)
    | Acking(id: Uuid, again: bool, slot: Option<nat>)
    | Enqueueing(id: Uuid, slot: Option<nat>)
    | Releasing(taken: nat)
    | Done

  predicate PcOk(pc: Pc) {
    match pc
    case Working(claimed, _) => claimed.status.Running?
    case InSlot(claimed, _, _) => claimed.status.Running?
    case _ => true
  }

  function KindName(k: ErrorKind): string {
    match k
    case TimedOut => "timeout"
    case RateLimited => "rate_limit"
    case Transient => "transient"
    case Fatal => "terminal"
  }

  function Free(slot: Option<nat>): Pc {
    if slot.Some? then Releasing(slot.value) else Done
  }

  // The two injected faults, then the slot; `since` is when the phase began.
  function AfterWork(cfg: Config, w: World, claimed: JobRecord, now: nat, outcome: FaultOutcome): (World, Pc)
    requires claimed.status.Running?
  {
    match outcome
    case Timeout =>
      (w, Saving(CompleteRetryableFailure(claimed, "injected timeout", now).job,
                 Some(JobAttempt(claimed.Id(), claimed.attemptCount, "timeout", Some("injected timeout"))), None, now))
    case Failure =>
      (w, Saving(CompleteTerminalFailure(claimed, "injected failure", now).job,
                 Some(JobAttempt(claimed.Id(), claimed.attemptCount, "failure", Some("injected failure"))), None, now))
    case Success =>
      match LeastFree(w.held, 0, cfg.slots)
      case None =>
        (w, Saving(CompleteRetryableFailure(claimed, "inference capacity exhausted", now).job, None, None, now))
      case Some(s) => (w.(held := w.held + {s}), InSlot(claimed, s, now))
  }

  // Reading the PDF and the inference call, under a slot.
  function AfterInference(claimed: JobRecord, slot: nat, now: nat, stored: bool, reply: Reply): (pc: Pc)
    requires claimed.status.Running?
    ensures if stored && !reply.Escapes? then pc.Saving? && pc.slot == Some(slot) else pc == Releasing(slot)
  {
    if !stored || reply.Escapes? then Releasing(slot)
    else match reply
      case Summary(text) =>
        Saving(CompleteSuccess(claimed, text, now).job,
               Some(JobAttempt(claimed.Id(), claimed.attemptCount, "succeeded", None)), Some(slot), now)
      case Error(kind, message) =>
        Saving(if kind.Fatal? then CompleteTerminalFailure(claimed, message, now).job
               else CompleteRetryableFailure(claimed, message, now).job,
               Some(JobAttempt(claimed.Id(), claimed.attemptCount, KindName(kind), Some(message))), Some(slot), now)
      case Escapes => Releasing(slot)
  }

  function HandlerStep(cfg: Config, w: World, pc: Pc, now: nat, inp: Inputs): (r: (World, Pc))
    requires PcOk(pc)
    ensures PcOk(r.1)
  {
    match pc
    case Popped(id) =>
      (match ClaimRow(w.ledger, id, cfg.owner, now, cfg.leaseSeconds)
       case (_, None) => (w, Acking(id, false, None))
       case (ledger, Some(claimed)) => (w.(ledger := ledger), Working(claimed, now)))
    case Working(claimed, _) => AfterWork(cfg, w, claimed, now, inp.outcome)
    case InSlot(claimed, slot, _) => (w, AfterInference(claimed, slot, now, inp.stored, inp.reply))
    case Saving(updated, attempt, slot, _) =>
      (w.(ledger := Put(w.ledger, updated)),
       if attempt.Some? then Recording(updated, attempt.value, slot)
       else Acking(updated.Id(), updated.status.Retry?, slot))
    case Recording(updated, attempt, slot) =>
      (w.(attempts := w.attempts + [attempt]), Acking(updated.Id(), updated.status.Retry?, slot))
    case Acking(id, again, slot) =>
      (w.(queue := Acknowledge(w.queue, id)), if again then Enqueueing(id, slot) else Free(slot))
    case Enqueueing(id, slot) => (w.(queue := Enqueue(w.queue, id)), Free(slot))
    case Releasing(slot) => (w.(held := w.held - {slot}), Done)
    case Done => (w, Done)
  }

  function Rank(pc: Pc): nat {
    match pc
    case Popped(_) => 8
    case Working(_, _) => 7
    case InSlot(_, _, _) => 6
    case Saving(_, _, _, _) => 5
    case Recording(_, _, _) => 4
    case Acking(_, _, _) => 3
    case Enqueueing(_, _) => 2
    case Releasing(_) => 1
    case Done => 0
  }

  // A handler running alone: the claim happens at `claimAt`, the rest at `doneAt`.
  datatype Env = Env(claimAt: nat, doneAt: nat, inp: Inputs)

  function Moment(pc: Pc, env: Env): nat {
    if pc.Popped? then env.claimAt else env.doneAt
  }

  function RunHandler(cfg: Config, w: World, pc: Pc, env: Env): World
    requires PcOk(pc)
    decreases Rank(pc)
  {
    if pc.Done? then w
    else var (w', pc') := HandlerStep(cfg, w, pc, Moment(pc, env), env.inp);
         RunHandler(cfg, w', pc', env)
  }

  function ProcessOne(cfg: Config, w: World, id: Uuid, env: Env): World {
    RunHandler(cfg, w, Popped(id), env)
  }

  // An exception other than InferenceError leaves process_one.
  predicate Raises(cfg: Config, w: World, id: Uuid, inp: Inputs) {
    && CanClaim(w.ledger, id) && inp.outcome.Success?
    && LeastFree(w.held, 0, cfg.slots).Some?
    && (!inp.stored || inp.reply.Escapes?)
  }

  // The handler finds every slot taken.
  predicate NoCapacity(cfg: Config, w: World, inp: Inputs) {
    inp.outcome.Success? && LeastFree(w.held, 0, cfg.slots).None?
  }

  // From the save on: the row, the history, the wake item and the slot.
  function SettleQueue(q: Wake, id: Uuid, again: bool): Wake {
    if again then Enqueue(Acknowledge(q, id), id) else Acknowledge(q, id)
  }

  function Settle(w: World, pc: Pc): World
    requires pc.Saving?
  {
    World(Put(w.ledger, pc.updated), SettleQueue(w.queue, pc.updated.Id(), pc.updated.status.Retry?),
          if pc.slot.Some? then w.held - {pc.slot.value} else w.held,
          if pc.attempt.Some? then w.attempts + [pc.attempt.value] else w.attempts)
  }

  lemma SavingSettles(cfg: Config, w: World, pc: Pc, env: Env)
    requires pc.Saving?
    ensures RunHandler(cfg, w, pc, env) == Settle(w, pc)
  {
    var id, retry := pc.updated.Id(), pc.updated.status.Retry?;
    var acking := Acking(id, retry, pc.slot);
    var w1 := w.(ledger := Put(w.ledger, pc.updated));
    var w2 := if pc.attempt.Some? then w1.(attempts := w.attempts + [pc.attempt.value]) else w1;
    assert RunHandler(cfg, w, pc, env) == RunHandler(cfg, w2, acking, env) by {
      if pc.attempt.Some? {
        assert RunHandler(cfg, w1, Recording(pc.updated, pc.attempt.value, pc.slot), env) == RunHandler(cfg, w2, acking, env);
      }
    }
    var w3 := w2.(queue := Acknowledge(w.queue, id));
    var w4 := if retry then w3.(queue := Enqueue(w3.queue, id)) else w3;
    assert RunHandler(cfg, w2, acking, env) == RunHandler(cfg, w4, Free(pc.slot), env) by {
      if retry {
        assert RunHandler(cfg, w3, Enqueueing(id, pc.slot), env) == RunHandler(cfg, w4, Free(pc.slot), env);
      }
    }
    if pc.slot.Some? {
      assert RunHandler(cfg, w4, Releasing(pc.slot.value), env)
          == RunHandler(cfg, w4.(held := w4.held - {pc.slot.value}), Done, env);
    }
  }

  // A popped id that is settled leaves processing and pends again iff it is to retry.
  lemma SettleQueueFacts(q: Wake, id: Uuid, again: bool)
    requires WakeOk(q) && id in q.processing
    ensures SettleQueue(q, id, again) == Wake(if again then q.pending + [id] else q.pending, q.processing - {id})
  {
    AcknowledgeFacts(q, id);
  }

  // The row after a settled attempt of `before`.
  predicate SettledRow(before: JobRecord, after: JobRecord) {
    && before.info == after.info && after.attemptCount == before.attemptCount + 1
    && (after.status.Succeeded? || after.status.Retry? || after.status.DeadLetter?)
    && (RowOk(before) ==> RowOk(after))
  }

  // The handler state at which a claimed attempt saves (or, after an escape, frees its slot).
  function Resolve(cfg: Config, w: World, claimed: JobRecord, env: Env): (r: (World, Pc))
    requires claimed.status.Running?
    ensures PcOk(r.1)
  {
    var (w', pc) := AfterWork(cfg, w, claimed, env.doneAt, env.inp.outcome);
    if pc.InSlot? then (w', AfterInference(claimed, pc.taken, env.doneAt, env.inp.stored, env.inp.reply)) else (w', pc)
  }

  lemma RunsToResolve(cfg: Config, w: World, id: Uuid, env: Env)
    requires CanClaim(w.ledger, id)
    ensures var (ledger, c) := ClaimRow(w.ledger, id, cfg.owner, env.claimAt, cfg.leaseSeconds);
            var (w', pc) := Resolve(cfg, w.(ledger := ledger), c.value, env);
            ProcessOne(cfg, w, id, env) == RunHandler(cfg, w', pc, env)
  {
    var (ledger, c) := ClaimRow(w.ledger, id, cfg.owner, env.claimAt, cfg.leaseSeconds);
    var ws := w.(ledger := ledger);
    assert ProcessOne(cfg, w, id, env) == RunHandler(cfg, ws, Working(c.value, env.claimAt), env);
    var (w2, pc2) := AfterWork(cfg, ws, c.value, env.doneAt, env.inp.outcome);
    assert ProcessOne(cfg, w, id, env) == RunHandler(cfg, w2, pc2, env);
  }

  // Resolving touches nothing but the slots, and ends holding at most the slot it took.
  predicate ResolvedWorld(cfg: Config, w: World, w': World, pc: Pc, inp: Inputs) {
    && w'.ledger == w.ledger && w'.queue == w.queue && w'.attempts == w.attempts
    && (if inp.outcome.Success? && LeastFree(w.held, 0, cfg.slots).Some? && (!inp.stored || inp.reply.Escapes?) then
          pc.Releasing? && w'.held - {pc.taken} == w.held
        else
          pc.Saving? && (if pc.slot.Some? then w'.held - {pc.slot.value} else w'.held) == w.held)
  }

  predicate ResolvedRow(claimed: JobRecord, updated: JobRecord, outcome: FaultOutcome) {
    && updated.Id() == claimed.Id() && updated.info == claimed.info && updated.attemptCount == claimed.attemptCount
    && (updated.status.Succeeded? || updated.status.Retry? || updated.status.DeadLetter?)
    && (RowOk(claimed) ==> RowOk(updated))
    && (outcome.Timeout? ==>
         !updated.status.Succeeded? && (updated.status.Retry? <==> claimed.attemptCount <= claimed.info.maxRetries))
    && (outcome.Failure? ==> updated.status.DeadLetter?)
  }

  predicate ResolvedEntry(cfg: Config, w: World, claimed: JobRecord, attempt: Option<JobAttempt>, inp: Inputs) {
    if NoCapacity(cfg, w, inp) then attempt.None?
    else attempt.Some? && attempt.value.jobId == claimed.Id() && attempt.value.attemptNumber == claimed.attemptCount
  }

  lemma ResolveKeeps(cfg: Config, w: World, claimed: JobRecord, env: Env)
    requires claimed.status.Running?
    ensures var (w', pc) := Resolve(cfg, w, claimed, env); ResolvedWorld(cfg, w, w', pc, env.inp)
  {
  }

  lemma ResolveRow(cfg: Config, w: World, claimed: JobRecord, env: Env)
    requires claimed.status.Running?
    ensures var pc := Resolve(cfg, w, claimed, env).1; pc.Saving? ==> ResolvedRow(claimed, pc.updated, env.inp.outcome)
  {
    hide RowOk, CompleteSuccess, CompleteRetryableFailure, CompleteTerminalFailure;
    match env.inp.outcome
    case Timeout => CompletionFacts(claimed, "injected timeout", env.doneAt);
    case Failure => CompletionFacts(claimed, "injected failure", env.doneAt);
    case Success =>
      CompletionFacts(claimed, "inference capacity exhausted", env.doneAt);
      match env.inp.reply
      case Summary(text) => CompletionFacts(claimed, text, env.doneAt);
      case Error(_, message) => CompletionFacts(claimed, message, env.doneAt);
      case Escapes =>
  }

  // The three completions of a RUNNING row.
  lemma CompletionFacts(claimed: JobRecord, text: string, now: nat)
    requires claimed.status.Running?
    ensures CompleteSuccess(claimed, text, now).Ok? && ResolvedRow(claimed, CompleteSuccess(claimed, text, now).job, Success)
    ensures CompleteRetryableFailure(claimed, text, now).Ok? && ResolvedRow(claimed, CompleteRetryableFailure(claimed, text, now).job, Timeout)
    ensures CompleteTerminalFailure(claimed, text, now).Ok? && ResolvedRow(claimed, CompleteTerminalFailure(claimed, text, now).job, Failure)
  {
    hide ResolvedRow;
    SuccessFacts(claimed, text, now);
    RetryableFacts(claimed, text, now);
    TerminalFacts(claimed, text, now);
  }

  lemma SuccessFacts(claimed: JobRecord, text: string, now: nat)
    requires claimed.status.Running?
    ensures ResolvedRow(claimed, CompleteSuccess(claimed, text, now).job, Success)
  {
  }

  lemma RetryableFacts(claimed: JobRecord, text: string, now: nat)
    requires claimed.status.Running?
    ensures ResolvedRow(claimed, CompleteRetryableFailure(claimed, text, now).job, Timeout)
  {
  }

  lemma TerminalFacts(claimed: JobRecord, text: string, now: nat)
    requires claimed.status.Running?
    ensures ResolvedRow(claimed, CompleteTerminalFailure(claimed, text, now).job, Failure)
  {
  }

  lemma ResolveFacts(cfg: Config, w: World, claimed: JobRecord, env: Env)
    requires claimed.status.Running?
    ensures var (w', pc) := Resolve(cfg, w, claimed, env);
            && ResolvedWorld(cfg, w, w', pc, env.inp)
            && (pc.Saving? ==> ResolvedRow(claimed, pc.updated, env.inp.outcome)
                               && ResolvedEntry(cfg, w, claimed, pc.attempt, env.inp))
  {
    hide ResolvedRow, RowOk;
    ResolveKeeps(cfg, w, claimed, env);
    ResolveRow(cfg, w, claimed, env);
  }

  // A claimed attempt run to the end: settled, or its slot freed after an escape.
  lemma ProcessOneResolves(cfg: Config, w: World, id: Uuid, env: Env)
    requires CanClaim(w.ledger, id)
    ensures var (ledger, c) := ClaimRow(w.ledger, id, cfg.owner, env.claimAt, cfg.leaseSeconds);
            var (w', pc) := Resolve(cfg, w.(ledger := ledger), c.value, env);
            && (pc.Saving? || pc.Releasing?)
            && ProcessOne(cfg, w, id, env) == if pc.Saving? then Settle(w', pc) else w'.(held := w'.held - {pc.taken})
  {
    hide ProcessOne, Resolve, ResolvedRow, ResolvedEntry;
    var (ledger, c) := ClaimRow(w.ledger, id, cfg.owner, env.claimAt, cfg.leaseSeconds);
    RunsToResolve(cfg, w, id, env);
    ResolveKeeps(cfg, w.(ledger := ledger), c.value, env);
    var (w', pc) := Resolve(cfg, w.(ledger := ledger), c.value, env);
    if pc.Saving? {
      SavingSettles(cfg, w', pc, env);
    } else {
      var freed := w'.(held := w'.held - {pc.taken});
      assert RunHandler(cfg, w', pc, env) == RunHandler(cfg, freed, Done, env);
    }
  }

  lemma ProcessOneIdle(cfg: Config, w: World, id: Uuid, env: Env)
    requires !CanClaim(w.ledger, id)
    ensures ProcessOne(cfg, w, id, env) == w.(queue := Acknowledge(w.queue, id))
  {
    var acked := w.(queue := Acknowledge(w.queue, id));
    assert RunHandler(cfg, w, Acking(id, false, None), env) == RunHandler(cfg, acked, Done, env);
  }

  lemma ProcessOneRaises(cfg: Config, w: World, id: Uuid, env: Env)
    requires Raises(cfg, w, id, env.inp)
    ensures ProcessOne(cfg, w, id, env) == w.(ledger := ClaimRow(w.ledger, id, cfg.owner, env.claimAt, cfg.leaseSeconds).0)
  {
    var (ledger, c) := ClaimRow(w.ledger, id, cfg.owner, env.claimAt, cfg.leaseSeconds);
    RunsToResolve(cfg, w, id, env);
    ResolveFacts(cfg, w.(ledger := ledger), c.value, env);
    var (w', pc) := Resolve(cfg, w.(ledger := ledger), c.value, env);
    assert RunHandler(cfg, w', pc, env) == RunHandler(cfg, w'.(held := w'.held - {pc.taken}), Done, env);
  }

  // A settled attempt: the row, the history and the wake item of this id, and nothing else.
  lemma ProcessOneSettles(cfg: Config, w: World, id: Uuid, env: Env)
    requires CanClaim(w.ledger, id) && w.ledger.rows[id].Id() == id && !Raises(cfg, w, id, env.inp)
    requires WakeOk(w.queue) && id in w.queue.processing
    ensures var w' := ProcessOne(cfg, w, id, env);
            && id in w'.ledger.rows
            && var after := w'.ledger.rows[id];
            && SettledRow(w.ledger.rows[id], after)
            && w'.ledger == Table(w.ledger.order, w.ledger.rows[id := after])
            && w'.queue == Wake(if after.status.Retry? then w.queue.pending + [id] else w.queue.pending, w.queue.processing - {id})
            && w'.held == w.held
            && (if NoCapacity(cfg, w, env.inp) then w'.attempts == w.attempts
                else |w'.attempts| == |w.attempts| + 1 && w'.attempts[..|w.attempts|] == w.attempts
                     && w'.attempts[|w.attempts|].jobId == id && w'.attempts[|w.attempts|].attemptNumber == after.attemptCount)
            && (env.inp.outcome.Timeout? ==> !after.status.Succeeded? && (after.status.Retry? <==> after.attemptCount <= after.info.maxRetries))
            && (env.inp.outcome.Failure? ==> after.status.DeadLetter?)
  {
    var (ledger, c) := ClaimRow(w.ledger, id, cfg.owner, env.claimAt, cfg.leaseSeconds);
    RunsToResolve(cfg, w, id, env);
    ResolveFacts(cfg, w.(ledger := ledger), c.value, env);
    var (w', pc) := Resolve(cfg, w.(ledger := ledger), c.value, env);
    SavingSettles(cfg, w', pc, env);
    SettleQueueFacts(w.queue, id, pc.updated.status.Retry?);
    assert Put(ledger, pc.updated).rows == w.ledger.rows[id := pc.updated];
  }

  // ----- what an attempt comes to -----

  predicate Succeeds(cfg: Config, w: World, inp: Inputs) {
    inp.outcome.Success? && !NoCapacity(cfg, w, inp) && inp.reply.Summary?
  }

  predicate MayRetry(cfg: Config, w: World, inp: Inputs) {
    inp.outcome.Timeout? || NoCapacity(cfg, w, inp) || (inp.outcome.Success? && inp.reply.Error? && !inp.reply.kind.Fatal?)
  }

  function Reason(cfg: Config, w: World, inp: Inputs): string {
    if inp.outcome.Timeout? then "injected timeout"
    else if inp.outcome.Failure? then "injected failure"
    else if NoCapacity(cfg, w, inp) then "inference capacity exhausted"
    else match inp.reply
         case Summary(text) => text
         case Error(_, message) => message
         case Escapes => ""
  }

  function Label(inp: Inputs): string {
    if inp.outcome.Timeout? then "timeout"
    else if inp.outcome.Failure? then "failure"
    else if inp.reply.Error? then KindName(inp.reply.kind) else "succeeded"
  }

  // The row says what happened: SUCCEEDED exactly on an answer (the lease stays in the
  // row), RETRY exactly on a fault that may be retried with an attempt left, DEAD_LETTER
  // otherwise; and its summary is the answer or the reason.
  predicate Verdict(cfg: Config, w: World, env: Env, after: JobRecord) {
    && (after.status.Succeeded? <==> Succeeds(cfg, w, env.inp))
    && (after.status.Retry? <==> MayRetry(cfg, w, env.inp) && after.attemptCount <= after.info.maxRetries)
    && (after.status.Succeeded? || after.status.Retry? || after.status.DeadLetter?)
    && after.resultSummary == Some(Reason(cfg, w, env.inp)) && after.updatedAt == env.doneAt
    && after.leaseOwner == (if after.status.Succeeded? then Some(cfg.owner) else None)
    && after.leaseExpiresAt == (if after.status.Succeeded? then Some(env.claimAt + cfg.leaseSeconds) else None)
  }

  // The history row an attempt leaves: none when it ended for want of a slot.
  function HistoryRow(cfg: Config, w: World, inp: Inputs, after: JobRecord): seq<JobAttempt> {
    if NoCapacity(cfg, w, inp) then []
    else [JobAttempt(after.Id(), after.attemptCount, Label(inp), if Succeeds(cfg, w, inp) then None else Some(Reason(cfg, w, inp)))]
  }

  lemma ResolveVerdict(cfg: Config, w: World, claimed: JobRecord, env: Env)
    requires claimed.status.Running? && claimed.leaseOwner == Some(cfg.owner)
    requires claimed.leaseExpiresAt == Some(env.claimAt + cfg.leaseSeconds)
    ensures var pc := Resolve(cfg, w, claimed, env).1;
            pc.Saving? ==>
              && Verdict(cfg, w, env, pc.updated)
              && HistoryRow(cfg, w, env.inp, pc.updated) == if pc.attempt.Some? then [pc.attempt.value] else []
  {
  }

  // A completed attempt leaves the row and the history that its inputs call for.
  lemma ProcessOneVerdict(cfg: Config, w: World, id: Uuid, env: Env)
    requires CanClaim(w.ledger, id) && w.ledger.rows[id].Id() == id && !Raises(cfg, w, id, env.inp)
    ensures var w' := ProcessOne(cfg, w, id, env);
            && id in w'.ledger.rows
            && Verdict(cfg, w, env, w'.ledger.rows[id])
            && w'.attempts == w.attempts + HistoryRow(cfg, w, env.inp, w'.ledger.rows[id])
  {
    hide Resolve, RunHandler, ProcessOne, Verdict, HistoryRow;
    var (ledger, c) := ClaimRow(w.ledger, id, cfg.owner, env.claimAt, cfg.leaseSeconds);
    var ws := w.(ledger := ledger);
    RunsToResolve(cfg, w, id, env);
    ResolveFacts(cfg, ws, c.value, env);
    ResolveVerdict(cfg, ws, c.value, env);
    SameSlots(cfg, w, ws, env);
    var (w', pc) := Resolve(cfg, ws, c.value, env);
    SavingSettles(cfg, w', pc, env);
  }

  // A verdict depends on the world only through the slots.
  lemma SameSlots(cfg: Config, w: World, ws: World, env: Env)
    requires w.held == ws.held
    ensures forall r :: Verdict(cfg, w, env, r) == Verdict(cfg, ws, env, r)
    ensures forall r :: HistoryRow(cfg, w, env.inp, r) == HistoryRow(cfg, ws, env.inp, r)
  {
  }

  // One complete process_one on a popped id, whatever happens: every slot held before
  // is held after and no other; only this id's row can change; an unclaimable id is
  // only acknowledged; an escaping exception leaves a RUNNING row whose id stays in
  // processing; otherwise the attempt is settled and the id pends iff the row is RETRY.
  lemma ProcessOneEffect(cfg: Config, w: World, id: Uuid, env: Env)
    requires TableOk(w.ledger) && WakeOk(w.queue) && id in w.queue.processing
    ensures var w' := ProcessOne(cfg, w, id, env);
            && TableOk(w'.ledger) && WakeOk(w'.queue)
            && w'.held == w.held
            && w'.ledger.order == w.ledger.order && w'.ledger.rows.Keys == w.ledger.rows.Keys
            && (forall j :: j in w.ledger.rows && j != id ==> w'.ledger.rows[j] == w.ledger.rows[j])
            && (!CanClaim(w.ledger, id) ==> w'.ledger == w.ledger && w'.attempts == w.attempts && !Holds(w'.queue, id))
            && (Raises(cfg, w, id, env.inp) ==> w'.ledger.rows[id].status.Running? && id in w'.queue.processing)
            && (CanClaim(w.ledger, id) && !Raises(cfg, w, id, env.inp) ==>
                 && SettledRow(w.ledger.rows[id], w'.ledger.rows[id])
                 && (Holds(w'.queue, id) <==> w'.ledger.rows[id].status.Retry?))
  {
    hide ProcessOne, TableOk, WakeOk, RowOk, NoCapacity, LeastFree;
    AcknowledgeFacts(w.queue, id);
    if !CanClaim(w.ledger, id) {
      ProcessOneIdle(cfg, w, id, env);
    } else {
      RowAt(w.ledger, id);
      if Raises(cfg, w, id, env.inp) {
        ProcessOneRaises(cfg, w, id, env);
        ClaimFacts(w.ledger.rows[id], cfg.owner, env.claimAt, cfg.leaseSeconds);
      } else {
        ProcessOneSettles(cfg, w, id, env);
        SettledWakeOk(w.queue, id);
      }
      OneMoreRow(w.ledger, id, ProcessOne(cfg, w, id, env).ledger.rows[id]);
    }
  }

  lemma ClaimFacts(row: JobRecord, owner: string, now: nat, leaseSeconds: nat)
    requires Claimable(row.status) && RowOk(row)
    ensures var claimed := Claim(row, owner, now, leaseSeconds).job;
            claimed.Id() == row.Id() && RowOk(claimed) && claimed.status.Running?
  {
  }

  lemma SettledWakeOk(q: Wake, id: Uuid)
    requires WakeOk(q) && id in q.processing
    ensures id !in q.pending
    ensures WakeOk(Wake(q.pending + [id], q.processing - {id})) && WakeOk(Wake(q.pending, q.processing - {id}))
  {
  }
}
