// What one attempt comes to, told from the draw of the fault policy, the slots and the
// answer of the inference service.

module Outcomes {
  import opened Basics
  import opened Ids
  import opened Jobs
  import opened Queue
  import opened Ledger
  import opened Faults
  import opened Handler

  // An answer; a fault, which may leave a history row and may be tried again; or an exception
  // that leaves the attempt as it is.
  datatype Ending = Answered(text: string) | Faulted(outcome: Option<string>, reason: string, again: bool) | Broken

  function EndingOf(p: FaultPolicy, id: Uuid, full: bool, stored: bool, reply: Reply): Ending {
    var draw := p.draw(p.seed, id);
    if draw < p.timeoutRate then Faulted(Some("timeout"), "injected timeout", true)
    else if draw < p.timeoutRate + p.failureRate then Faulted(Some("failure"), "injected failure", false)
    else if full then Faulted(None, "inference capacity exhausted", true)
    else if !stored then Broken
    else match reply
      case Summary(text) => Answered(text)
      case Error(kind, message) => Faulted(Some(KindName(kind)), message, !kind.Fatal?)
      case Escapes => Broken
  }

  // The status of the row, given whether an attempt is left.
  function StatusOf(e: Ending, left: bool): JobStatus {
    match e
    case Answered(_) => Succeeded
    case Faulted(_, _, again) => if again && left then Retry else DeadLetter
    case Broken => Running
  }

  function ReasonOf(e: Ending): string {
    match e
    case Answered(text) => text
    case Faulted(_, reason, _) => reason
    case Broken => ""
  }

  // The history row of the n-th attempt, if it leaves one.
  function EntryOf(e: Ending, id: Uuid, n: nat): seq<JobAttempt> {
    match e
    case Answered(_) => [JobAttempt(id, n, "succeeded", None)]
    case Faulted(outcome, reason, _) => if outcome.Some? then [JobAttempt(id, n, outcome.value, Some(reason))] else []
    case Broken => []
  }

  lemma AttemptEnds(cfg: Config, p: FaultPolicy, w: World, id: Uuid, env: Env)
    requires CanClaim(w.ledger, id) && w.ledger.rows[id].Id() == id && !Raises(cfg, w, id, env.inp)
    requires WakeOk(w.queue) && id in w.queue.processing && env.inp.outcome == Choose(p, id)
    ensures var (w', e) := (ProcessOne(cfg, w, id, env), EndingOf(p, id, LeastFree(w.held, 0, cfg.slots).None?, env.inp.stored, env.inp.reply));
            && id in w'.ledger.rows && !e.Broken?
            && var after := w'.ledger.rows[id];
               && after.attemptCount == w.ledger.rows[id].attemptCount + 1 && after.info == w.ledger.rows[id].info
               && after.status == StatusOf(e, after.attemptCount <= after.info.maxRetries)
               && after.resultSummary == Some(ReasonOf(e))
               && w'.attempts == w.attempts + EntryOf(e, id, after.attemptCount)
  {
    hide ProcessOne, WakeOk, RowOk, LeastFree;
    ProcessOneSettles(cfg, w, id, env);
    ProcessOneVerdict(cfg, w, id, env);
  }

  // The row and the history after an attempt that ends.
  predicate Ends(w: World, w': World, id: Uuid, status: JobStatus, summary: string, entries: seq<JobAttempt>) {
    && id in w.ledger.rows && id in w'.ledger.rows
    && w'.ledger.rows[id].status == status && w'.ledger.rows[id].resultSummary == Some(summary)
    && w'.ledger.rows[id].attemptCount == w.ledger.rows[id].attemptCount + 1
    && w'.attempts == w.attempts + entries
  }

  // process_one of a claimable job by its draw: below the timeout rate the injected timeout,
  // to be retried while an attempt is left; from there to the sum of the rates the injected
  // failure, for good; above it no fault is injected and the slots and the reply decide.
  lemma ProcessOneByDraw(cfg: Config, p: FaultPolicy, w: World, id: Uuid, env: Env)
    requires CanClaim(w.ledger, id) && w.ledger.rows[id].Id() == id
    requires WakeOk(w.queue) && id in w.queue.processing && env.inp.outcome == Choose(p, id)
    ensures var w', draw, n := ProcessOne(cfg, w, id, env), p.draw(p.seed, id), w.ledger.rows[id].attemptCount + 1;
            var retried := if n <= w.ledger.rows[id].info.maxRetries then Retry else DeadLetter;
            if draw < p.timeoutRate then
              Ends(w, w', id, retried, "injected timeout", [JobAttempt(id, n, "timeout", Some("injected timeout"))])
            else if draw < p.timeoutRate + p.failureRate then
              Ends(w, w', id, DeadLetter, "injected failure", [JobAttempt(id, n, "failure", Some("injected failure"))])
            else if forall s :: 0 <= s < cfg.slots ==> s in w.held then
              Ends(w, w', id, retried, "inference capacity exhausted", [])
            else if !env.inp.stored || env.inp.reply.Escapes? then
              && w' == w.(ledger := w'.ledger) && id in w'.ledger.rows
              && w'.ledger.rows[id].status.Running? && w'.ledger.rows[id].attemptCount == n
            else match env.inp.reply
              case Summary(text) => Ends(w, w', id, Succeeded, text, [JobAttempt(id, n, "succeeded", None)])
              case Error(TimedOut, message) => Ends(w, w', id, retried, message, [JobAttempt(id, n, "timeout", Some(message))])
              case Error(RateLimited, message) => Ends(w, w', id, retried, message, [JobAttempt(id, n, "rate_limit", Some(message))])
              case Error(Transient, message) => Ends(w, w', id, retried, message, [JobAttempt(id, n, "transient", Some(message))])
              case Error(Fatal, message) => Ends(w, w', id, DeadLetter, message, [JobAttempt(id, n, "terminal", Some(message))])
              case Escapes => false
  {
    hide ProcessOne, WakeOk, RowOk;
    if Raises(cfg, w, id, env.inp) {
      ProcessOneRaises(cfg, w, id, env);
    } else {
      AttemptEnds(cfg, p, w, id, env);
    }
  }
}
