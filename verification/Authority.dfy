// The ledger is the only authority: the same protocol with a queue that may become
// anything at any moment, processing entries of live handlers lost included. Nothing here
// rests on what the queue remembers; the lease alone keeps claims apart.

module Authority {
  import opened Basics
  import opened Ids
  import opened Jobs
  import opened Queue
  import opened Ledger
  import opened Faults
  import opened Handler
  import opened Protocol
  import opened Guarantees
  import opened Lease

  datatype Move = Step(a: Action) | Scramble(q: Wake)

  ghost predicate Movable(cfg: Config, b: Budget, s: State, m: Move) {
    m.Step? ==> TimedEnabled(cfg, b, s, m.a)
  }

  function Moves(cfg: Config, s: State, m: Move): State
    requires m.Step? ==> Enabled(cfg, s, m.a)
  {
    match m
    case Step(a) => Apply(cfg, s, a)
    case Scramble(q) => s.(world := s.world.(queue := q))
  }

  ghost predicate MoveRun(cfg: Config, b: Budget, s: State, run: seq<Move>)
    decreases |run|
  {
    run == [] || (Movable(cfg, b, s, run[0]) && MoveRun(cfg, b, Moves(cfg, s, run[0]), run[1..]))
  }

  ghost function MovesTo(cfg: Config, b: Budget, s: State, run: seq<Move>): State
    requires MoveRun(cfg, b, s, run)
    decreases |run|
  {
    if run == [] then s else MovesTo(cfg, b, Moves(cfg, s, run[0]), run[1..])
  }

  ghost predicate Adrift(cfg: Config, b: Budget, s: State) {
    exists run :: MoveRun(cfg, b, Initial(), run) && MovesTo(cfg, b, Initial(), run) == s
  }

  // ----- what holds without a queue -----

  // A handler that will save holds the live lease of the RUNNING row of its own attempt.
  predicate Live(cfg: Config, b: Budget, row: JobRecord, pc: Pc, clock: nat)
    requires Unsaved(pc)
  {
    && row.info == Carried(pc).info && row.attemptCount == Carried(pc).attemptCount && RowOk(Carried(pc))
    && LeaseOk(cfg, b, row, pc, clock)
    && (pc.Saving? ==> pc.updated.status.Succeeded? || pc.updated.status.Retry? || pc.updated.status.DeadLetter?)
    && (pc.Saving? && pc.attempt.Some? ==> Owed(pc) == Some((row.Id(), row.attemptCount)))
  }

  // The history row a handler has still to write.
  function Owed(pc: Pc): Option<(Uuid, nat)> {
    match pc
    case Working(claimed, _) => Some((claimed.Id(), claimed.attemptCount))
    case InSlot(claimed, _, _) => Some((claimed.Id(), claimed.attemptCount))
    case Saving(_, attempt, _, _) => if attempt.Some? then Some(Key(attempt.value)) else None
    case Recording(_, entry, _) => Some(Key(entry))
    case _ => None
  }

  function Key(a: JobAttempt): (Uuid, nat) {
    (a.jobId, a.attemptNumber)
  }

  ghost predicate AllLive(cfg: Config, b: Budget, rows: map<Uuid, JobRecord>, tasks: map<nat, Pc>, clock: nat) {
    forall t :: t in tasks ==>
      && PcOk(tasks[t]) && !tasks[t].Done?
      && (Unsaved(tasks[t]) ==> Carried(tasks[t]).Id() in rows && Live(cfg, b, rows[Carried(tasks[t]).Id()], tasks[t], clock))
  }

  // Two handlers never have a claim on the same job.
  ghost predicate Exclusive(tasks: map<nat, Pc>) {
    forall t, u :: t in tasks && u in tasks && t != u && Unsaved(tasks[t]) && Unsaved(tasks[u]) ==>
      Carried(tasks[t]).Id() != Carried(tasks[u]).Id()
  }

  predicate ClaimsCounted(rows: map<Uuid, JobRecord>, tally: map<Uuid, Tally>) {
    tally.Keys == rows.Keys && forall j :: j in rows && j in tally ==> tally[j].claims == rows[j].attemptCount
  }

  // No attempt is recorded twice, nor owed by a handler once recorded, nor by two handlers.
  ghost predicate HistoryUnique(rows: map<Uuid, JobRecord>, attempts: seq<JobAttempt>, tasks: map<nat, Pc>) {
    && (forall i :: 0 <= i < |attempts| ==> Counted(rows, Key(attempts[i])))
    && (forall i, k :: 0 <= i < k < |attempts| ==> Key(attempts[i]) != Key(attempts[k]))
    && (forall t :: t in tasks && Owed(tasks[t]).Some? ==> Counted(rows, Owed(tasks[t]).value))
    && (forall t, i :: t in tasks && 0 <= i < |attempts| && Owed(tasks[t]).Some? ==> Owed(tasks[t]).value != Key(attempts[i]))
    && (forall t, u :: t in tasks && u in tasks && t != u && Owed(tasks[t]).Some? ==> Owed(tasks[t]) != Owed(tasks[u]))
  }

  predicate Counted(rows: map<Uuid, JobRecord>, key: (Uuid, nat)) {
    key.0 in rows && key.1 <= rows[key.0].attemptCount
  }

  ghost predicate Sole(cfg: Config, b: Budget, s: State) {
    && TableOk(s.world.ledger)
    && AllLive(cfg, b, s.Rows(), s.tasks, s.clock)
    && Exclusive(s.tasks)
    && ClaimsCounted(s.Rows(), s.tally)
    && HistoryUnique(s.Rows(), s.world.attempts, s.tasks)
    && SlotsOk(cfg.slots, s.tasks, s.slotOf, s.world.held)
  }

  // The step leaves the ledger on the transition table, and no attempt count falls.
  ghost predicate Conforms(cfg: Config, s: State, m: Move)
    requires m.Step? ==> Enabled(cfg, s, m.a)
  {
    m.Step? ==> StepConforms(cfg, s, m.a)
  }

  // ----- a task moves without touching the ledger -----

  // The task keeps its claim on the same row, or has none.
  predicate KeepsClaim(cfg: Config, b: Budget, rows: map<Uuid, JobRecord>, pc: Pc, pc': Pc, clock: nat) {
    && PcOk(pc')
    && (Unsaved(pc') ==>
         && Unsaved(pc) && Carried(pc').Id() == Carried(pc).Id() && Carried(pc').Id() in rows
         && Live(cfg, b, rows[Carried(pc').Id()], pc', clock))
  }

  lemma TaskMoves(cfg: Config, b: Budget, rows: map<Uuid, JobRecord>, tasks: map<nat, Pc>, clock: nat, t: nat, pc': Pc)
    requires AllLive(cfg, b, rows, tasks, clock) && Exclusive(tasks) && t in tasks && KeepsClaim(cfg, b, rows, tasks[t], pc', clock)
    ensures AllLive(cfg, b, rows, SetTask(tasks, t, pc'), clock) && Exclusive(SetTask(tasks, t, pc'))
  {
    hide Live, PcOk;
  }

  lemma DebtMoves(rows: map<Uuid, JobRecord>, attempts: seq<JobAttempt>, tasks: map<nat, Pc>, t: nat, pc': Pc)
    requires HistoryUnique(rows, attempts, tasks) && t in tasks && (Owed(pc') == Owed(tasks[t]) || Owed(pc').None?)
    ensures HistoryUnique(rows, attempts, SetTask(tasks, t, pc'))
  {
    hide Owed, Counted;
  }

  lemma TaskJoins(cfg: Config, b: Budget, rows: map<Uuid, JobRecord>, attempts: seq<JobAttempt>, tasks: map<nat, Pc>, clock: nat, t: nat, pc: Pc)
    requires AllLive(cfg, b, rows, tasks, clock) && Exclusive(tasks) && HistoryUnique(rows, attempts, tasks) && t !in tasks
    requires pc.Popped? || pc.Enqueueing?
    ensures AllLive(cfg, b, rows, tasks[t := pc], clock) && Exclusive(tasks[t := pc]) && HistoryUnique(rows, attempts, tasks[t := pc])
  {
    hide Live, Counted;
  }

  lemma PhaseKeepsClaim(cfg: Config, b: Budget, w: World, pc: Pc, clock: nat, inp: Inputs)
    requires pc.Working? || pc.InSlot?
    requires PcOk(pc) && Carried(pc).Id() in w.ledger.rows && Live(cfg, b, w.ledger.rows[Carried(pc).Id()], pc, clock)
    ensures var (w', pc') := HandlerStep(cfg, w, pc, clock, inp);
            && w'.ledger == w.ledger && w'.attempts == w.attempts
            && KeepsClaim(cfg, b, w.ledger.rows, pc, pc', clock) && !pc'.Done?
            && (Owed(pc') == Owed(pc) || Owed(pc').None?)
  {
    hide KeepsClaim, Live;
    if pc.Working? {
      WorkKeepsClaim(cfg, b, w, pc, clock, inp.outcome);
    } else {
      InferenceKeepsClaim(cfg, b, w, pc, clock, inp);
    }
  }

  lemma WorkKeepsClaim(cfg: Config, b: Budget, w: World, pc: Pc, clock: nat, outcome: FaultOutcome)
    requires pc.Working? && PcOk(pc)
    requires Carried(pc).Id() in w.ledger.rows && Live(cfg, b, w.ledger.rows[Carried(pc).Id()], pc, clock)
    ensures var (w', pc') := AfterWork(cfg, w, pc.claimed, clock, outcome);
            && w'.ledger == w.ledger && w'.attempts == w.attempts
            && KeepsClaim(cfg, b, w.ledger.rows, pc, pc', clock) && !pc'.Done?
            && (Owed(pc') == Owed(pc) || Owed(pc').None?)
  {
    hide RowOk;
    AfterWorkRow(cfg, w, pc.claimed, clock, outcome);
  }

  lemma InferenceKeepsClaim(cfg: Config, b: Budget, w: World, pc: Pc, clock: nat, inp: Inputs)
    requires pc.InSlot? && PcOk(pc)
    requires Carried(pc).Id() in w.ledger.rows && Live(cfg, b, w.ledger.rows[Carried(pc).Id()], pc, clock)
    ensures var pc' := AfterInference(pc.claimed, pc.taken, clock, inp.stored, inp.reply);
            && KeepsClaim(cfg, b, w.ledger.rows, pc, pc', clock) && !pc'.Done?
            && (Owed(pc') == Owed(pc) || Owed(pc').None?)
  {
    hide RowOk;
    AfterInferenceRow(pc.claimed, pc.taken, clock, inp);
  }

  lemma AfterWorkRow(cfg: Config, w: World, claimed: JobRecord, now: nat, outcome: FaultOutcome)
    requires claimed.status.Running?
    ensures var pc := AfterWork(cfg, w, claimed, now, outcome).1;
            pc.Saving? ==> pc.updated.info == claimed.info && (RowOk(claimed) ==> RowOk(pc.updated))
  {
    hide RowOk, CompleteRetryableFailure, CompleteTerminalFailure;
    CompletionFacts(claimed, "injected timeout", now);
    CompletionFacts(claimed, "injected failure", now);
    CompletionFacts(claimed, "inference capacity exhausted", now);
  }

  lemma AfterInferenceRow(claimed: JobRecord, slot: nat, now: nat, inp: Inputs)
    requires claimed.status.Running?
    ensures var pc := AfterInference(claimed, slot, now, inp.stored, inp.reply);
            pc.Saving? ==> pc.updated.info == claimed.info && (RowOk(claimed) ==> RowOk(pc.updated))
  {
    hide RowOk, CompleteSuccess, CompleteRetryableFailure, CompleteTerminalFailure;
    match inp.reply
    case Summary(text) => CompletionFacts(claimed, text, now);
    case Error(_, message) => CompletionFacts(claimed, message, now);
    case Escapes =>
  }

  lemma TailKeepsClaim(cfg: Config, b: Budget, w: World, pc: Pc, clock: nat, inp: Inputs)
    requires PcOk(pc) && (pc.Acking? || pc.Enqueueing? || pc.Releasing?)
    ensures var (w', pc') := HandlerStep(cfg, w, pc, clock, inp);
            && w'.ledger == w.ledger && w'.attempts == w.attempts
            && KeepsClaim(cfg, b, w.ledger.rows, pc, pc', clock) && Owed(pc').None?
  {
  }

  // ----- a claim -----

  lemma ClaimTakes(cfg: Config, b: Budget, rows: map<Uuid, JobRecord>, tasks: map<nat, Pc>, clock: nat, t: nat, id: Uuid)
    requires AllLive(cfg, b, rows, tasks, clock) && Exclusive(tasks) && t in tasks && tasks[t] == Popped(id)
    requires id in rows && Claimable(rows[id].status) && rows[id].Id() == id && RowOk(rows[id])
    ensures var claimed := Claim(rows[id], cfg.owner, clock, cfg.leaseSeconds).job;
            && AllLive(cfg, b, rows[id := claimed], tasks[t := Working(claimed, clock)], clock)
            && Exclusive(tasks[t := Working(claimed, clock)])
  {
    var claimed := Claim(rows[id], cfg.owner, clock, cfg.leaseSeconds).job;
    assert RowOk(claimed);
    hide RowOk;
    forall u | u in tasks && Unsaved(tasks[u])
      ensures Carried(tasks[u]).Id() != id
    {
      assert Live(cfg, b, rows[Carried(tasks[u]).Id()], tasks[u], clock);
    }
  }

  lemma ClaimOwes(rows: map<Uuid, JobRecord>, attempts: seq<JobAttempt>, tasks: map<nat, Pc>, t: nat, row: JobRecord, since: nat)
    requires HistoryUnique(rows, attempts, tasks) && t in tasks && tasks[t].Popped?
    requires row.Id() in rows && row.attemptCount == rows[row.Id()].attemptCount + 1
    ensures HistoryUnique(rows[row.Id() := row], attempts, tasks[t := Working(row, since)])
  {
    forall k: (Uuid, nat) | Counted(rows, k)
      ensures Counted(rows[row.Id() := row], k) && k != (row.Id(), row.attemptCount)
    {
    }
    hide Counted;
  }

  lemma ClaimKeepsSole(cfg: Config, b: Budget, s: State, t: nat, inp: Inputs)
    requires Sole(cfg, b, s) && t in s.tasks && s.tasks[t].Popped?
    ensures Sole(cfg, b, ApplyAdvance(cfg, s, t, inp))
    ensures var w' := HandlerStep(cfg, s.world, s.tasks[t], s.clock, inp).0; RowsConform(s.Rows(), w'.ledger.rows)
  {
    hide AllLive, Exclusive, HistoryUnique, SlotsOk, TableOk, RowOk, KeepsClaim;
    var id := s.tasks[t].id;
    SlotsMove(cfg.slots, s.tasks, s.slotOf, s.world.held, t, Acking(id, false, None), s.world.held);
    if CanClaim(s.world.ledger, id) {
      RowAt(s.world.ledger, id);
      var row := s.Rows()[id];
      var claimed := Claim(row, cfg.owner, s.clock, cfg.leaseSeconds).job;
      ClaimTakes(cfg, b, s.Rows(), s.tasks, s.clock, t, id);
      ClaimOwes(s.Rows(), s.world.attempts, s.tasks, t, claimed, s.clock);
      SlotsMove(cfg.slots, s.tasks, s.slotOf, s.world.held, t, Working(claimed, s.clock), s.world.held);
      ClaimFacts(row, cfg.owner, s.clock, cfg.leaseSeconds);
      OneMoreRow(s.world.ledger, id, claimed);
    } else {
      assert KeepsClaim(cfg, b, s.Rows(), s.tasks[t], Acking(id, false, None), s.clock) by {
        IdleKeepsClaim(cfg, b, s.Rows(), s.tasks[t], id, s.clock);
      }
      TaskMoves(cfg, b, s.Rows(), s.tasks, s.clock, t, Acking(id, false, None));
      DebtMoves(s.Rows(), s.world.attempts, s.tasks, t, Acking(id, false, None));
    }
  }

  lemma IdleKeepsClaim(cfg: Config, b: Budget, rows: map<Uuid, JobRecord>, pc: Pc, id: Uuid, clock: nat)
    ensures KeepsClaim(cfg, b, rows, pc, Acking(id, false, None), clock)
  {
  }

  predicate RowsConform(rows: map<Uuid, JobRecord>, rows': map<Uuid, JobRecord>) {
    forall j :: j in rows ==> j in rows' && (rows'[j] == rows[j] || TableEdge(rows[j], rows'[j]))
  }

  // ----- a save, a history row -----

  lemma SaveLands(cfg: Config, b: Budget, rows: map<Uuid, JobRecord>, tasks: map<nat, Pc>, clock: nat, t: nat, pc': Pc)
    requires AllLive(cfg, b, rows, tasks, clock) && Exclusive(tasks) && t in tasks && tasks[t].Saving?
    requires pc'.Recording? || pc'.Acking?
    ensures var updated := tasks[t].updated;
            && updated.Id() in rows && RowOk(updated) && TableEdge(rows[updated.Id()], updated)
            && rows[updated.Id()].status.Running? && updated.attemptCount == rows[updated.Id()].attemptCount
            && AllLive(cfg, b, rows[updated.Id() := updated], SetTask(tasks, t, pc'), clock)
            && Exclusive(SetTask(tasks, t, pc'))
  {
    hide RowOk;
    assert Live(cfg, b, rows[tasks[t].updated.Id()], tasks[t], clock);
    forall u | u in tasks && u != t && Unsaved(tasks[u])
      ensures Carried(tasks[u]).Id() != tasks[t].updated.Id()
    {
    }
  }

  lemma CountsStay(rows: map<Uuid, JobRecord>, attempts: seq<JobAttempt>, tasks: map<nat, Pc>, row: JobRecord)
    requires HistoryUnique(rows, attempts, tasks) && row.Id() in rows && row.attemptCount == rows[row.Id()].attemptCount
    ensures HistoryUnique(rows[row.Id() := row], attempts, tasks)
  {
    forall k: (Uuid, nat) | Counted(rows, k)
      ensures Counted(rows[row.Id() := row], k)
    {
    }
    hide Counted;
  }

  lemma SaveKeepsSole(cfg: Config, b: Budget, s: State, t: nat, inp: Inputs)
    requires Sole(cfg, b, s) && t in s.tasks && s.tasks[t].Saving?
    ensures Sole(cfg, b, ApplyAdvance(cfg, s, t, inp))
    ensures var w' := HandlerStep(cfg, s.world, s.tasks[t], s.clock, inp).0; RowsConform(s.Rows(), w'.ledger.rows)
    ensures var updated := s.tasks[t].updated;
            updated.Id() in s.Rows() && s.Rows()[updated.Id()].status.Running? && s.Rows()[updated.Id()].attemptCount == updated.attemptCount
  {
    hide AllLive, Exclusive, HistoryUnique, SlotsOk, TableOk, RowOk, TableEdge;
    var pc := s.tasks[t];
    var pc' := HandlerStep(cfg, s.world, pc, s.clock, inp).1;
    SaveLands(cfg, b, s.Rows(), s.tasks, s.clock, t, pc');
    DebtMoves(s.Rows(), s.world.attempts, s.tasks, t, pc');
    CountsStay(s.Rows(), s.world.attempts, SetTask(s.tasks, t, pc'), pc.updated);
    SlotsMove(cfg.slots, s.tasks, s.slotOf, s.world.held, t, pc', s.world.held);
    PutKeepsTable(s.world.ledger, pc.updated);
  }

  lemma EntryPays(rows: map<Uuid, JobRecord>, attempts: seq<JobAttempt>, tasks: map<nat, Pc>, t: nat, pc': Pc)
    requires HistoryUnique(rows, attempts, tasks) && t in tasks && tasks[t].Recording? && pc'.Acking?
    ensures HistoryUnique(rows, attempts + [tasks[t].entry], SetTask(tasks, t, pc'))
  {
    hide Counted;
    assert Owed(tasks[t]) == Some(Key(tasks[t].entry));
  }

  lemma RecordKeepsSole(cfg: Config, b: Budget, s: State, t: nat, inp: Inputs)
    requires Sole(cfg, b, s) && t in s.tasks && s.tasks[t].Recording?
    ensures Sole(cfg, b, ApplyAdvance(cfg, s, t, inp))
    ensures var w' := HandlerStep(cfg, s.world, s.tasks[t], s.clock, inp).0; w'.ledger == s.world.ledger
  {
    hide AllLive, Exclusive, HistoryUnique, SlotsOk, TableOk;
    var pc := s.tasks[t];
    var pc' := HandlerStep(cfg, s.world, pc, s.clock, inp).1;
    EntryPays(s.Rows(), s.world.attempts, s.tasks, t, pc');
    TaskMoves(cfg, b, s.Rows(), s.tasks, s.clock, t, pc');
    SlotsMove(cfg.slots, s.tasks, s.slotOf, s.world.held, t, pc', s.world.held);
  }

  // ----- the other handler steps -----

  // Slots do not depend on the queue.
  lemma SlotStep(cfg: Config, s: State, t: nat, inp: Inputs)
    requires SlotsOk(cfg.slots, s.tasks, s.slotOf, s.world.held) && t in s.tasks && PcOk(s.tasks[t])
    ensures var (w', pc') := HandlerStep(cfg, s.world, s.tasks[t], s.clock, inp);
            SlotsOk(cfg.slots, SetTask(s.tasks, t, pc'), SlotOfAfter(s.slotOf, t, s.tasks[t], pc'), w'.held)
  {
    hide SlotsOk;
    var (w', pc') := HandlerStep(cfg, s.world, s.tasks[t], s.clock, inp);
    SlotsMove(cfg.slots, s.tasks, s.slotOf, s.world.held, t, pc', w'.held);
  }

  lemma QuietKeepsSole(cfg: Config, b: Budget, s: State, t: nat, inp: Inputs)
    requires Sole(cfg, b, s) && t in s.tasks && PcOk(s.tasks[t])
    requires !s.tasks[t].Popped? && !s.tasks[t].Saving? && !s.tasks[t].Recording?
    ensures Sole(cfg, b, ApplyAdvance(cfg, s, t, inp))
    ensures var w' := HandlerStep(cfg, s.world, s.tasks[t], s.clock, inp).0; w'.ledger == s.world.ledger
  {
    hide AllLive, Exclusive, HistoryUnique, SlotsOk, TableOk, HandlerStep, KeepsClaim, Owed, Live;
    var pc := s.tasks[t];
    LiveTask(cfg, b, s.Rows(), s.tasks, s.clock, t);
    if pc.Working? || pc.InSlot? {
      PhaseKeepsClaim(cfg, b, s.world, pc, s.clock, inp);
    } else {
      TailKeepsClaim(cfg, b, s.world, pc, s.clock, inp);
    }
    var (w', pc') := HandlerStep(cfg, s.world, pc, s.clock, inp);
    TaskMoves(cfg, b, s.Rows(), s.tasks, s.clock, t, pc');
    DebtMoves(s.Rows(), s.world.attempts, s.tasks, t, pc');
    SlotStep(cfg, s, t, inp);
  }

  lemma LiveTask(cfg: Config, b: Budget, rows: map<Uuid, JobRecord>, tasks: map<nat, Pc>, clock: nat, t: nat)
    requires AllLive(cfg, b, rows, tasks, clock) && t in tasks
    ensures PcOk(tasks[t]) && !tasks[t].Done?
    ensures Unsaved(tasks[t]) ==> Carried(tasks[t]).Id() in rows && Live(cfg, b, rows[Carried(tasks[t]).Id()], tasks[t], clock)
  {
  }

  lemma AdvanceKeepsSole(cfg: Config, b: Budget, s: State, t: nat, inp: Inputs)
    requires Sole(cfg, b, s) && Enabled(cfg, s, Advance(t, inp))
    ensures Sole(cfg, b, Apply(cfg, s, Advance(t, inp))) && StepConforms(cfg, s, Advance(t, inp))
  {
    hide Sole, HandlerStep, TableEdge;
    if s.tasks[t].Popped? {
      ClaimKeepsSole(cfg, b, s, t, inp);
    } else if s.tasks[t].Saving? {
      SaveKeepsSole(cfg, b, s, t, inp);
    } else if s.tasks[t].Recording? {
      RecordKeepsSole(cfg, b, s, t, inp);
    } else {
      QuietKeepsSole(cfg, b, s, t, inp);
    }
  }

  lemma DeathKeepsSole(cfg: Config, b: Budget, s: State, t: nat)
    requires Sole(cfg, b, s) && Enabled(cfg, s, Die(t))
    ensures Sole(cfg, b, Apply(cfg, s, Die(t))) && StepConforms(cfg, s, Die(t))
  {
    hide AllLive, Exclusive, HistoryUnique, SlotsOk, TableOk, TableEdge;
    var pc' := Free(SlotHeld(s.tasks[t]));
    TaskMoves(cfg, b, s.Rows(), s.tasks, s.clock, t, pc');
    DebtMoves(s.Rows(), s.world.attempts, s.tasks, t, pc');
    SlotsMove(cfg.slots, s.tasks, s.slotOf, s.world.held, t, pc', s.world.held);
  }

  // ----- the ledger changes under the handlers -----

  // Rows of live handlers stay, no count changes.
  lemma RowsUnder(cfg: Config, b: Budget, rows: map<Uuid, JobRecord>, rows': map<Uuid, JobRecord>, attempts: seq<JobAttempt>,
                  tasks: map<nat, Pc>, clock: nat)
    requires AllLive(cfg, b, rows, tasks, clock) && HistoryUnique(rows, attempts, tasks) && rows.Keys <= rows'.Keys
    requires forall j :: j in rows ==> rows'[j].attemptCount == rows[j].attemptCount
    requires forall j :: j in rows && rows[j].status.Running? && !LeaseExpired(rows[j], clock) ==> rows'[j] == rows[j]
    requires WithinLease(cfg, b)
    ensures AllLive(cfg, b, rows', tasks, clock) && HistoryUnique(rows', attempts, tasks)
  {
    forall k: (Uuid, nat) | Counted(rows, k)
      ensures Counted(rows', k)
    {
    }
    hide RowOk, Counted;
    forall t | t in tasks && Unsaved(tasks[t])
      ensures Carried(tasks[t]).Id() in rows' && rows'[Carried(tasks[t]).Id()] == rows[Carried(tasks[t]).Id()]
    {
      assert Live(cfg, b, rows[Carried(tasks[t]).Id()], tasks[t], clock);
    }
  }

  lemma SweepKeepsSole(cfg: Config, b: Budget, s: State, r: nat, limit: nat)
    requires Sole(cfg, b, s) && Enabled(cfg, s, Sweep(r, limit)) && WithinLease(cfg, b)
    ensures Sole(cfg, b, Apply(cfg, s, Sweep(r, limit))) && StepConforms(cfg, s, Sweep(r, limit))
  {
    hide AllLive, Exclusive, HistoryUnique, SlotsOk, TableOk, RowOk, ListCandidates, TableEdge;
    CandidateFacts(s.world.ledger, s.clock, limit);
    var rows' := ApplySweep(s, r, limit).Rows();
    forall j | j in s.Rows()
      ensures rows'[j].attemptCount == s.Rows()[j].attemptCount
      ensures rows'[j] == s.Rows()[j] || TableEdge(s.Rows()[j], rows'[j])
    {
      RowAt(s.world.ledger, j);
      TouchEdge(s.Rows()[j], s.clock);
    }
    RowsUnder(cfg, b, s.Rows(), rows', s.world.attempts, s.tasks, s.clock);
  }

  lemma TouchEdge(row: JobRecord, now: nat)
    ensures Touch(row, now).attemptCount == row.attemptCount
    ensures Touch(row, now) == row || TableEdge(row, Touch(row, now))
  {
  }

  // A row without a handler is replaced.
  lemma RowReplaced(cfg: Config, b: Budget, s: State, job: JobRecord)
    requires Sole(cfg, b, s) && WithinLease(cfg, b) && job.Id() in s.Rows() && RowOk(job)
    requires s.Rows()[job.Id()].status.Quarantined? && job.attemptCount == s.Rows()[job.Id()].attemptCount
    ensures Sole(cfg, b, SaveRow(s, job))
  {
    hide AllLive, Exclusive, HistoryUnique, SlotsOk, TableOk, RowOk;
    PutKeepsTable(s.world.ledger, job);
    RowsUnder(cfg, b, s.Rows(), s.Rows()[job.Id() := job], s.world.attempts, s.tasks, s.clock);
  }

  lemma ScannerKeepsSole(cfg: Config, b: Budget, s: State, a: Action)
    requires Sole(cfg, b, s) && Enabled(cfg, s, a) && (a.ReleaseScan? || a.RejectScan?) && WithinLease(cfg, b)
    ensures Sole(cfg, b, Apply(cfg, s, a)) && StepConforms(cfg, s, a)
  {
    hide Sole, RowOk, TableEdge, StepConforms, TableOk;
    SoleTable(cfg, b, s, a.id);
    ScannerConforms(cfg, s, a);
    var op := if a.ReleaseScan? then OpRelease else OpReject(a.reason);
    var job := ApplyOp(s.Rows()[a.id], op, s.clock).job;
    ScannedOk(s.Rows()[a.id], job, s.clock, op);
    RowReplaced(cfg, b, s, job);
    assert Apply(cfg, s, a) == SaveRow(s, job);
  }

  lemma SoleTable(cfg: Config, b: Budget, s: State, id: Uuid)
    requires Sole(cfg, b, s) && id in s.Rows()
    ensures TableOk(s.world.ledger) && s.Rows()[id].Id() == id && RowOk(s.Rows()[id])
  {
  }

  lemma ScannedOk(row: JobRecord, row': JobRecord, now: nat, op: JobOp)
    requires ApplyOp(row, op, now) == Ok(row') && (op.OpRelease? || op.OpReject?) && RowOk(row)
    ensures RowOk(row') && row'.Id() == row.Id() && TableEdge(row, row') && row'.attemptCount == row.attemptCount
  {
  }

  lemma RowAdded(cfg: Config, b: Budget, s: State, job: JobRecord)
    requires Sole(cfg, b, s) && WithinLease(cfg, b) && job.Id() !in s.Rows() && RowOk(job) && job.attemptCount == 0
    ensures Sole(cfg, b, SaveRow(s, job).(tally := s.tally[job.Id() := Tally(0, 0, 0, 0)]))
  {
    hide AllLive, Exclusive, HistoryUnique, SlotsOk, TableOk, RowOk;
    PutKeepsTable(s.world.ledger, job);
    RowsUnder(cfg, b, s.Rows(), s.Rows()[job.Id() := job], s.world.attempts, s.tasks, s.clock);
  }

  lemma TaskAdded(cfg: Config, b: Budget, s: State, t: nat, id: Uuid)
    requires Sole(cfg, b, s) && t !in s.tasks
    ensures Sole(cfg, b, s.(tasks := s.tasks[t := Enqueueing(id, None)]))
  {
    hide AllLive, Exclusive, HistoryUnique, SlotsOk, TableOk;
    TaskJoins(cfg, b, s.Rows(), s.world.attempts, s.tasks, s.clock, t, Enqueueing(id, None));
    SlotsJoin(cfg.slots, s.tasks, s.slotOf, s.world.held, t, Enqueueing(id, None));
  }

  lemma UploadKeepsSole(cfg: Config, b: Budget, s: State, t: nat, job: JobRecord)
    requires Sole(cfg, b, s) && Enabled(cfg, s, Upload(t, job)) && WithinLease(cfg, b)
    ensures Sole(cfg, b, Apply(cfg, s, Upload(t, job))) && StepConforms(cfg, s, Upload(t, job))
  {
    hide Sole, RowOk, FreshJob, TableEdge;
    FreshFacts(job, s.clock);
    RowAdded(cfg, b, s, job);
    var s1 := SaveRow(s, job).(tally := s.tally[job.Id() := Tally(0, 0, 0, 0)]);
    if Claimable(job.status) {
      TaskAdded(cfg, b, s1, t, job.Id());
    }
  }

  lemma PopKeepsSole(cfg: Config, b: Budget, s: State, t: nat)
    requires Sole(cfg, b, s) && Enabled(cfg, s, Pop(t))
    ensures Sole(cfg, b, Apply(cfg, s, Pop(t))) && StepConforms(cfg, s, Pop(t))
  {
    hide AllLive, Exclusive, HistoryUnique, SlotsOk, TableOk, TableEdge;
    var pc := Popped(s.world.queue.pending[0]);
    TaskJoins(cfg, b, s.Rows(), s.world.attempts, s.tasks, s.clock, t, pc);
    SlotsJoin(cfg.slots, s.tasks, s.slotOf, s.world.held, t, pc);
  }

  lemma TickKeepsSole(cfg: Config, b: Budget, s: State, d: nat)
    requires Sole(cfg, b, s) && TimedEnabled(cfg, b, s, Tick(d))
    ensures Sole(cfg, b, Apply(cfg, s, Tick(d))) && StepConforms(cfg, s, Tick(d))
  {
    hide Exclusive, HistoryUnique, SlotsOk, TableOk, RowOk, TableEdge;
  }

  lemma QueueKeepsSole(cfg: Config, b: Budget, s: State, a: Action)
    requires Sole(cfg, b, s) && Enabled(cfg, s, a) && (a.Offer? || a.LosePending? || a.LoseProcessing?)
    ensures Sole(cfg, b, Apply(cfg, s, a)) && StepConforms(cfg, s, a)
  {
    hide AllLive, Exclusive, HistoryUnique, SlotsOk, TableOk, TableEdge;
  }

  // ----- every move, every run -----

  lemma MoveKeepsSole(cfg: Config, b: Budget, s: State, m: Move)
    requires Sole(cfg, b, s) && Movable(cfg, b, s, m) && WithinLease(cfg, b)
    ensures Sole(cfg, b, Moves(cfg, s, m)) && Conforms(cfg, s, m)
  {
    if m.Step? {
      TimedEnables(cfg, b, s, m.a);
      hide Sole, Enabled, TimedEnabled, Apply, StepConforms, WithinLease;
      match m.a
      case Advance(t, inp) => AdvanceKeepsSole(cfg, b, s, t, inp);
      case Die(t) => DeathKeepsSole(cfg, b, s, t);
      case Sweep(r, limit) => SweepKeepsSole(cfg, b, s, r, limit);
      case Upload(t, job) => UploadKeepsSole(cfg, b, s, t, job);
      case Pop(t) => PopKeepsSole(cfg, b, s, t);
      case Tick(d) => TickKeepsSole(cfg, b, s, d);
      case ReleaseScan(_) => ScannerKeepsSole(cfg, b, s, m.a);
      case RejectScan(_, _) => ScannerKeepsSole(cfg, b, s, m.a);
      case _ => QueueKeepsSole(cfg, b, s, m.a);
    }
  }

  lemma MoveIsEnabled(cfg: Config, b: Budget, s: State, m: Move)
    requires Movable(cfg, b, s, m)
    ensures m.Step? ==> Enabled(cfg, s, m.a)
  {
  }

  lemma {:induction false} RunKeepsSole(cfg: Config, b: Budget, s: State, run: seq<Move>)
    requires Sole(cfg, b, s) && MoveRun(cfg, b, s, run) && WithinLease(cfg, b)
    ensures Sole(cfg, b, MovesTo(cfg, b, s, run))
    decreases |run|
  {
    hide Sole, Movable, Moves, WithinLease;
    if run != [] {
      MoveIsEnabled(cfg, b, s, run[0]);
      MoveKeepsSole(cfg, b, s, run[0]);
      RunKeepsSole(cfg, b, Moves(cfg, s, run[0]), run[1..]);
    }
  }

  lemma InitialSole(cfg: Config, b: Budget)
    ensures Sole(cfg, b, Initial())
  {
  }

  lemma AdriftIsSole(cfg: Config, b: Budget, s: State)
    requires Adrift(cfg, b, s) && WithinLease(cfg, b)
    ensures Sole(cfg, b, s)
  {
    hide Sole;
    var run :| MoveRun(cfg, b, Initial(), run) && MovesTo(cfg, b, Initial(), run) == s;
    InitialSole(cfg, b);
    RunKeepsSole(cfg, b, Initial(), run);
  }

  // The queue is a hint: whatever becomes of it, within the lease no two handlers have a
  // claim on one job, each claim is on a RUNNING row whose lease is alive, claims won equal
  // the attempt count, which stays under the ceiling, no attempt is recorded twice, and no
  // more handlers than slots are inside an inference call.
  lemma QueueIsHint(cfg: Config, b: Budget, s: State)
    requires Adrift(cfg, b, s) && WithinLease(cfg, b)
    ensures Exclusive(s.tasks)
    ensures forall t :: t in s.tasks && Unsaved(s.tasks[t]) ==>
              var id := Carried(s.tasks[t]).Id();
              id in s.Rows() && s.Rows()[id].status.Running? && !LeaseExpired(s.Rows()[id], s.clock)
              && s.Rows()[id].attemptCount == Carried(s.tasks[t]).attemptCount
    ensures forall j :: j in s.Rows() ==>
              j in s.tally && s.tally[j].claims == s.Rows()[j].attemptCount <= s.Rows()[j].info.maxRetries + 1
    ensures forall i, k :: 0 <= i < k < |s.world.attempts| ==> Key(s.world.attempts[i]) != Key(s.world.attempts[k])
    ensures |Holders(s.tasks)| <= cfg.slots
  {
    hide SlotsOk, Exclusive, RowOk;
    AdriftIsSole(cfg, b, s);
    SlotBound(cfg.slots, s.tasks, s.slotOf, s.world.held);
    forall j | j in s.Rows()
      ensures s.Rows()[j].attemptCount <= s.Rows()[j].info.maxRetries + 1
    {
      RowAt(s.world.ledger, j);
      CeilingOfRow(s.Rows()[j]);
    }
    forall t | t in s.tasks && Unsaved(s.tasks[t])
      ensures var id := Carried(s.tasks[t]).Id(); id in s.Rows() && Live(cfg, b, s.Rows()[id], s.tasks[t], s.clock)
    {
    }
  }

  lemma CeilingOfRow(row: JobRecord)
    requires RowOk(row)
    ensures row.attemptCount <= row.info.maxRetries + 1
  {
  }

  // ----- beyond the lease -----

  lemma {:induction false} MoveRunsCompose(cfg: Config, b: Budget, s: State, run: seq<Move>, m: Move)
    requires MoveRun(cfg, b, s, run) && Movable(cfg, b, MovesTo(cfg, b, s, run), m)
    ensures m.Step? ==> Enabled(cfg, MovesTo(cfg, b, s, run), m.a)
    ensures MoveRun(cfg, b, s, run + [m]) && MovesTo(cfg, b, s, run + [m]) == Moves(cfg, MovesTo(cfg, b, s, run), m)
    decreases |run|
  {
    hide Movable, Moves;
    MoveIsEnabled(cfg, b, MovesTo(cfg, b, s, run), m);
    if run == [] {
      assert run + [m] == [m] && [m][1..] == [];
    } else {
      MoveIsEnabled(cfg, b, s, run[0]);
      MoveRunsCompose(cfg, b, Moves(cfg, s, run[0]), run[1..], m);
      assert (run + [m])[1..] == run[1..] + [m];
    }
  }

  lemma Drift(cfg: Config, b: Budget, s: State, m: Move)
    requires Adrift(cfg, b, s) && Movable(cfg, b, s, m)
    ensures m.Step? ==> Enabled(cfg, s, m.a)
    ensures Adrift(cfg, b, Moves(cfg, s, m))
  {
    hide Movable, Moves;
    MoveIsEnabled(cfg, b, s, m);
    var run :| MoveRun(cfg, b, Initial(), run) && MovesTo(cfg, b, Initial(), run) == s;
    MoveRunsCompose(cfg, b, Initial(), run, m);
  }

  function Steps(run: seq<Action>): seq<Move> {
    if run == [] then [] else [Step(run[0])] + Steps(run[1..])
  }

  lemma {:induction false} StepsAreMoves(cfg: Config, b: Budget, s: State, run: seq<Action>)
    requires TimedRun(cfg, b, s, run)
    ensures MoveRun(cfg, b, s, Steps(run)) && MovesTo(cfg, b, s, Steps(run)) == Run(cfg, s, run)
    decreases |run|
  {
    hide TimedEnabled, Enabled, Apply;
    if run != [] {
      TimedEnables(cfg, b, s, run[0]);
      StepsAreMoves(cfg, b, Apply(cfg, s, run[0]), run[1..]);
      assert Steps(run)[1..] == Steps(run[1..]);
    }
  }

  lemma TimedIsAdrift(cfg: Config, b: Budget, s: State)
    requires TimedReachable(cfg, b, s)
    ensures Adrift(cfg, b, s)
  {
    var run :| TimedRun(cfg, b, Initial(), run) && Run(cfg, Initial(), run) == s;
    StepsAreMoves(cfg, b, Initial(), run);
  }

  // A queue that offers a job again lets another handler pop it ..
  lemma PopAgain(cfg: Config, b: Budget, s: State, id: Uuid, u: nat) returns (s': State)
    requires Adrift(cfg, b, s) && u !in s.tasks
    ensures Adrift(cfg, b, s') && s'.tasks == s.tasks[u := Popped(id)]
    ensures s'.world.ledger == s.world.ledger && s'.tally == s.tally
  {
    hide Adrift;
    var q := Wake([id], {});
    Drift(cfg, b, s, Scramble(q));
    var s1 := Moves(cfg, s, Scramble(q));
    Drift(cfg, b, s1, Step(Pop(u)));
    s' := ApplyPop(s1, u);
  }

  // A claim counts, and takes the row.
  predicate Reclaimed(s: State, s': State, id: Uuid, u: nat)
    requires id in s.Rows() && id in s'.Rows()
  {
    && s'.tasks.Keys == s.tasks.Keys + {u} && (forall t :: t in s.tasks ==> s'.tasks[t] == s.tasks[t])
    && s'.tasks[u].Working? && s'.tasks[u].claimed == s'.Rows()[id]
    && s'.Rows()[id].status.Running? && s'.Rows()[id].info == s.Rows()[id].info
    && s'.Rows()[id].attemptCount == s.Rows()[id].attemptCount + 1
    && id in s'.tally && id in s.tally && s'.tally[id].claims == s.tally[id].claims + 1
  }

  // .. and claim it.
  lemma ClaimAgain(cfg: Config, b: Budget, s: State, id: Uuid, u: nat) returns (s': State)
    requires Adrift(cfg, b, s) && u !in s.tasks
    requires id in s.Rows() && Claimable(s.Rows()[id].status) && id in s.tally
    ensures Adrift(cfg, b, s') && id in s'.Rows() && Reclaimed(s, s', id, u)
  {
    hide Adrift;
    var s1 := PopAgain(cfg, b, s, id, u);
    Drift(cfg, b, s1, Step(Advance(u, AnyInputs())));
    s' := ApplyAdvance(cfg, s1, u, AnyInputs());
    assert s'.tasks == s.tasks[u := s'.tasks[u]];
  }

  // With the budget at or over the lease, a job with one retry whose first handler is about
  // to save, its lease over, is claimed by a second handler.
  lemma TwoClaims(cfg: Config, b: Budget, id: Uuid, reply: Reply) returns (s: State)
    requires cfg.slots > 0 && !WithinLease(cfg, b) && !reply.Escapes?
    ensures Adrift(cfg, b, s) && s.tasks.Keys == {1, 2} && id in s.Rows() && id in s.tally
    ensures s.tasks[1].Saving? && s.tasks[1].updated.Id() == id && s.tasks[1].updated.attemptCount == 1
    ensures exists since :: s.tasks[1] == SavingPc(cfg, id, 1, since, reply)
    ensures s.tasks[2].Working? && s.tasks[2].claimed == s.Rows()[id] && s.Rows()[id].Id() == id
    ensures s.Rows()[id].status.Running? && s.Rows()[id].attemptCount == 2 && s.Rows()[id].info.maxRetries == 1
    ensures s.tally[id].claims == 2
  {
    hide TimedReachable, Adrift, ApplySweep, SavingPc;
    var since := ReachLateSave(cfg, b, id, 1, reply);
    var pc := SavingPc(cfg, id, 1, since, reply);
    SweepExpires(cfg, b, id, 1, pc);
    var swept := ApplySweep(SavingWitness(cfg, id, 1, since, cfg.leaseSeconds, reply), 0, 1);
    TimedIsAdrift(cfg, b, swept);
    s := ClaimAgain(cfg, b, swept, id, 2);
  }

  // The save of the first sets the attempt count back.
  lemma AttemptFalls(cfg: Config, b: Budget, id: Uuid) returns (s: State, save: Action)
    requires cfg.slots > 0 && !WithinLease(cfg, b)
    ensures Adrift(cfg, b, s) && !Exclusive(s.tasks) && TimedEnabled(cfg, b, s, save)
    ensures id in s.Rows() && id in Apply(cfg, s, save).Rows()
    ensures Apply(cfg, s, save).Rows()[id].attemptCount < s.Rows()[id].attemptCount
  {
    hide Adrift, SavingPc;
    s := TwoClaims(cfg, b, id, AnyReply());
    save := Advance(1, AnyInputs());
    assert 1 in s.tasks && 2 in s.tasks && Unsaved(s.tasks[1]) && Unsaved(s.tasks[2]);
  }

  // The second handler may dead-letter the job before the first saves a RETRY.
  lemma SecondDies(cfg: Config, b: Budget, id: Uuid) returns (s: State)
    requires cfg.slots > 0 && !WithinLease(cfg, b)
    ensures Adrift(cfg, b, s) && id in s.Rows() && s.Rows()[id].status.DeadLetter? && id in s.tally && s.tally[id].claims == 2
    ensures s.tasks.Keys == {1, 2} && s.tasks[1].Saving? && s.tasks[1].updated.Id() == id
    ensures s.tasks[1].updated.status.Retry? && s.tasks[1].updated.info.maxRetries == 1
  {
    hide Adrift;
    var reply, fail := Error(Transient, "busy"), Inputs(Failure, true, AnyReply());
    var s0 := TwoClaims(cfg, b, id, reply);
    var since :| s0.tasks[1] == SavingPc(cfg, id, 1, since, reply);
    SavesRetry(cfg, id, since, reply);
    hide SavingPc;
    Drift(cfg, b, s0, Step(Advance(2, fail)));
    var s1 := ApplyAdvance(cfg, s0, 2, fail);
    s := SecondSaves(cfg, b, s1, id);
  }

  lemma SecondSaves(cfg: Config, b: Budget, s: State, id: Uuid) returns (s': State)
    requires Adrift(cfg, b, s) && id in s.Rows() && 2 in s.tasks && s.tasks[2].Saving?
    requires s.tasks[2].updated.Id() == id && s.tasks[2].attempt.Some?
    ensures Adrift(cfg, b, s') && s'.tally == s.tally && s'.tasks.Keys == s.tasks.Keys
    ensures id in s'.Rows() && s'.Rows()[id] == s.tasks[2].updated
    ensures forall t :: t in s.tasks && t != 2 ==> s'.tasks[t] == s.tasks[t]
  {
    hide Adrift;
    Drift(cfg, b, s, Step(Advance(2, AnyInputs())));
    s' := ApplyAdvance(cfg, s, 2, AnyInputs());
  }

  lemma SavesRetry(cfg: Config, id: Uuid, since: nat, reply: Reply)
    requires reply.Error? && reply.kind.Transient?
    ensures var updated := SavingPc(cfg, id, 1, since, reply).updated; updated.status.Retry? && updated.info.maxRetries == 1
  {
  }

  // That save revives a terminal row.
  lemma TerminalRevives(cfg: Config, b: Budget, id: Uuid) returns (s: State, save: Action)
    requires cfg.slots > 0 && !WithinLease(cfg, b)
    ensures Adrift(cfg, b, s) && TimedEnabled(cfg, b, s, save) && id in s.Rows() && Terminal(s.Rows()[id].status)
    ensures id in Apply(cfg, s, save).Rows() && Apply(cfg, s, save).Rows()[id].status.Retry?
  {
    hide Adrift;
    s := SecondDies(cfg, b, id);
    save := Advance(1, AnyInputs());
  }

  // And the revived row is claimed a third time, with only two attempts allowed.
  lemma ClaimsExceed(cfg: Config, b: Budget, id: Uuid) returns (s: State)
    requires cfg.slots > 0 && !WithinLease(cfg, b)
    ensures Adrift(cfg, b, s) && id in s.Rows() && id in s.tally && s.tally[id].claims > s.Rows()[id].info.maxRetries + 1
  {
    hide Adrift;
    var dead := SecondDies(cfg, b, id);
    Drift(cfg, b, dead, Step(Advance(1, AnyInputs())));
    var revived := ApplyAdvance(cfg, dead, 1, AnyInputs());
    assert 3 !in revived.tasks;
    s := ClaimAgain(cfg, b, revived, id, 3);
  }

  // Whatever becomes of the queue, every ledger change is an edge of the table ..
  ghost predicate AlwaysConforms(cfg: Config, b: Budget) {
    forall s, m :: Adrift(cfg, b, s) && Movable(cfg, b, s, m) ==> Conforms(cfg, s, m)
  }

  // .. no two handlers have a claim on one job ..
  ghost predicate AlwaysExclusive(cfg: Config, b: Budget) {
    forall s :: Adrift(cfg, b, s) ==> Exclusive(s.tasks)
  }

  // .. no attempt count falls ..
  ghost predicate NeverFalls(cfg: Config, b: Budget) {
    forall s, m, j :: Adrift(cfg, b, s) && Movable(cfg, b, s, m) && j in s.Rows() ==>
      j in Moves(cfg, s, m).Rows() && s.Rows()[j].attemptCount <= Moves(cfg, s, m).Rows()[j].attemptCount
  }

  // .. no terminal job revives ..
  ghost predicate TerminalStays(cfg: Config, b: Budget) {
    forall s, m, j :: Adrift(cfg, b, s) && Movable(cfg, b, s, m) && j in s.Rows() && Terminal(s.Rows()[j].status) ==>
      j in Moves(cfg, s, m).Rows() && Terminal(Moves(cfg, s, m).Rows()[j].status)
  }

  // .. and no job is claimed more often than its ceiling allows.
  ghost predicate ClaimsBounded(cfg: Config, b: Budget) {
    forall s, j :: Adrift(cfg, b, s) && j in s.Rows() && j in s.tally ==> s.tally[j].claims <= s.Rows()[j].info.maxRetries + 1
  }

  // The ledger's authority is exactly the lease: each of the five holds with an arbitrary
  // queue if and only if work + inference + completion stay below the lease.
  lemma AuthorityIff(cfg: Config, b: Budget)
    requires cfg.slots > 0
    ensures AlwaysConforms(cfg, b) <==> WithinLease(cfg, b)
    ensures AlwaysExclusive(cfg, b) <==> WithinLease(cfg, b)
    ensures NeverFalls(cfg, b) <==> WithinLease(cfg, b)
    ensures TerminalStays(cfg, b) <==> WithinLease(cfg, b)
    ensures ClaimsBounded(cfg, b) <==> WithinLease(cfg, b)
  {
    hide AlwaysConforms, AlwaysExclusive, NeverFalls, TerminalStays, ClaimsBounded;
    if WithinLease(cfg, b) {
      LeaseSuffices(cfg, b);
    } else {
      LeaseIsNeeded(cfg, b);
    }
  }

  lemma LeaseSuffices(cfg: Config, b: Budget)
    requires WithinLease(cfg, b)
    ensures AlwaysConforms(cfg, b) && AlwaysExclusive(cfg, b) && NeverFalls(cfg, b) && TerminalStays(cfg, b) && ClaimsBounded(cfg, b)
  {
    hide Adrift, Movable, Sole, Exclusive, Conforms, Moves, WithinLease;
    forall s | Adrift(cfg, b, s)
      ensures Sole(cfg, b, s) && Exclusive(s.tasks)
      ensures forall j :: j in s.Rows() && j in s.tally ==> s.tally[j].claims <= s.Rows()[j].info.maxRetries + 1
    {
      AdriftIsSole(cfg, b, s);
      SoleIsExclusive(cfg, b, s);
      QueueIsHint(cfg, b, s);
    }
    forall s, m | Adrift(cfg, b, s) && Movable(cfg, b, s, m)
      ensures m.Step? ==> Enabled(cfg, s, m.a)
      ensures Conforms(cfg, s, m)
      ensures forall j :: j in s.Rows() ==> j in Moves(cfg, s, m).Rows() && ConformingRow(s.Rows()[j], Moves(cfg, s, m).Rows()[j])
    {
      MoveIsEnabled(cfg, b, s, m);
      MoveKeepsSole(cfg, b, s, m);
      ConformingRows(cfg, s, m);
    }
  }

  lemma LeaseIsNeeded(cfg: Config, b: Budget)
    requires cfg.slots > 0 && !WithinLease(cfg, b)
    ensures !AlwaysConforms(cfg, b) && !AlwaysExclusive(cfg, b) && !NeverFalls(cfg, b) && !TerminalStays(cfg, b) && !ClaimsBounded(cfg, b)
  {
    hide AlwaysConforms, AlwaysExclusive, NeverFalls, Exclusive, Adrift, Movable, Moves;
    var s, save := AttemptFalls(cfg, b, Uuid(0));
    FallBreaks(cfg, b, s, save, Uuid(0));
    var dead, revive := TerminalRevives(cfg, b, Uuid(0));
    RevivalBreaks(cfg, b, dead, revive, Uuid(0));
    var over := ClaimsExceed(cfg, b, Uuid(0));
  }

  lemma RevivalBreaks(cfg: Config, b: Budget, s: State, a: Action, j: Uuid)
    requires Adrift(cfg, b, s) && TimedEnabled(cfg, b, s, a) && j in s.Rows() && Terminal(s.Rows()[j].status)
    requires j in Apply(cfg, s, a).Rows() && !Terminal(Apply(cfg, s, a).Rows()[j].status)
    ensures !TerminalStays(cfg, b)
  {
    hide Adrift, TimedEnabled, Apply;
    TimedEnables(cfg, b, s, a);
    assert Movable(cfg, b, s, Step(a));
    assert Moves(cfg, s, Step(a)) == Apply(cfg, s, a);
  }

  lemma SoleIsExclusive(cfg: Config, b: Budget, s: State)
    requires Sole(cfg, b, s)
    ensures Exclusive(s.tasks)
  {
  }

  predicate ConformingRow(before: JobRecord, after: JobRecord) {
    before.attemptCount <= after.attemptCount && (Terminal(before.status) ==> after == before)
  }

  lemma ConformingRows(cfg: Config, s: State, m: Move)
    requires m.Step? ==> Enabled(cfg, s, m.a)
    requires Conforms(cfg, s, m)
    ensures forall j :: j in s.Rows() ==> j in Moves(cfg, s, m).Rows() && ConformingRow(s.Rows()[j], Moves(cfg, s, m).Rows()[j])
  {
    hide Apply;
  }

  lemma FallBreaks(cfg: Config, b: Budget, s: State, a: Action, j: Uuid)
    requires Adrift(cfg, b, s) && TimedEnabled(cfg, b, s, a) && !Exclusive(s.tasks)
    requires j in s.Rows() && j in Apply(cfg, s, a).Rows() && Apply(cfg, s, a).Rows()[j].attemptCount < s.Rows()[j].attemptCount
    ensures !AlwaysConforms(cfg, b) && !AlwaysExclusive(cfg, b) && !NeverFalls(cfg, b)
  {
    hide Adrift, TimedEnabled, Apply, Exclusive;
    TimedEnables(cfg, b, s, a);
    assert Movable(cfg, b, s, Step(a));
    assert Moves(cfg, s, Step(a)) == Apply(cfg, s, a);
    assert !Conforms(cfg, s, Step(a));
  }
}
