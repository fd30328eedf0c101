// Lease arithmetic: when handlers keep their time budget, the lease outlives them and
// the ledger moves along the transition table only. The bound is exact.

module Lease {
  import opened Basics
  import opened Ids
  import opened Jobs
  import opened Queue
  import opened Ledger
  import opened Faults
  import opened Handler
  import opened Protocol
  import opened Guarantees

  // The longest simulated work, inference call, and completion after it, in seconds.
  datatype Budget = Budget(work: nat, inference: nat, completion: nat)

  function Since(pc: Pc): nat
    requires Unsaved(pc)
  {
    pc.since
  }

  function Bound(b: Budget, pc: Pc): nat
    requires Unsaved(pc)
  {
    if pc.Working? then b.work else if pc.InSlot? then b.inference else b.completion
  }

  // Seconds a handler may have spent before it entered its phase.
  function Spent(b: Budget, pc: Pc): nat
    requires Unsaved(pc)
  {
    if pc.Working? then 0 else if pc.InSlot? then b.work else b.work + b.inference
  }

  // Time passes only as far as every live handler's phase allows.
  ghost predicate TimedEnabled(cfg: Config, b: Budget, s: State, a: Action) {
    && Enabled(cfg, s, a)
    && (a.Tick? ==> forall t :: t in s.tasks && Unsaved(s.tasks[t]) ==> s.clock + a.d <= Since(s.tasks[t]) + Bound(b, s.tasks[t]))
  }

  ghost predicate TimedRun(cfg: Config, b: Budget, s: State, run: seq<Action>)
    ensures TimedRun(cfg, b, s, run) ==> ValidRun(cfg, s, run)
    decreases |run|
  {
    run == [] || (TimedEnabled(cfg, b, s, run[0]) && TimedRun(cfg, b, Apply(cfg, s, run[0]), run[1..]))
  }

  ghost predicate TimedReachable(cfg: Config, b: Budget, s: State) {
    exists run :: TimedRun(cfg, b, Initial(), run) && Run(cfg, Initial(), run) == s
  }

  // Every ledger change of the step is an edge of the table, and a save lands on the
  // RUNNING row of the attempt it reports.
  ghost predicate StepConforms(cfg: Config, s: State, a: Action)
    requires Enabled(cfg, s, a)
  {
    && (forall j :: j in s.Rows() ==>
         && j in Apply(cfg, s, a).Rows()
         && (Apply(cfg, s, a).Rows()[j] == s.Rows()[j] || TableEdge(s.Rows()[j], Apply(cfg, s, a).Rows()[j])))
    && (a.Advance? && s.tasks[a.t].Saving? ==>
         var id := s.tasks[a.t].updated.Id();
         id in s.Rows() && s.Rows()[id].status.Running? && s.Rows()[id].attemptCount == s.tasks[a.t].updated.attemptCount)
  }

  // ----- the lease outlives the handler -----

  predicate LeaseOk(cfg: Config, b: Budget, row: JobRecord, pc: Pc, clock: nat)
    requires Unsaved(pc)
  {
    && row.status.Running? && row.leaseExpiresAt.Some?
    && row.leaseExpiresAt.value + Spent(b, pc) >= Since(pc) + cfg.leaseSeconds
    && Since(pc) <= clock <= Since(pc) + Bound(b, pc)
  }

  ghost predicate LeasesHold(cfg: Config, b: Budget, rows: map<Uuid, JobRecord>, tasks: map<nat, Pc>, clock: nat) {
    forall t :: t in tasks && Unsaved(tasks[t]) && Carried(tasks[t]).Id() in rows ==>
      LeaseOk(cfg, b, rows[Carried(tasks[t]).Id()], tasks[t], clock)
  }

  predicate WithinLease(cfg: Config, b: Budget) {
    b.work + b.inference + b.completion < cfg.leaseSeconds
  }

  lemma AdvanceLease(cfg: Config, b: Budget, s: State, t: nat, id: Uuid, inp: Inputs)
    requires OwnerFacts(s, t, id)
    requires Unsaved(s.tasks[t]) ==> LeaseOk(cfg, b, s.Rows()[id], s.tasks[t], s.clock)
    ensures var (w', pc') := HandlerStep(cfg, s.world, s.tasks[t], s.clock, inp);
            && OnlyRow(s.Rows(), w'.ledger.rows, id)
            && (Unsaved(pc') ==> Carried(pc').Id() == id && LeaseOk(cfg, b, w'.ledger.rows[id], pc', s.clock))
  {
    hide OwnerFacts, HandlerStep, LeaseOk;
    OwnerPcOk(s, t, id);
    OwnerMovesOnly(cfg, s, t, id, inp);
    if s.tasks[t].Popped? {
      ClaimLease(cfg, b, s, t, id, inp);
    } else {
      PhaseLease(cfg, b, s, t, id, inp);
    }
  }

  lemma ClaimLease(cfg: Config, b: Budget, s: State, t: nat, id: Uuid, inp: Inputs)
    requires OwnerFacts(s, t, id) && s.tasks[t].Popped?
    ensures var (w', pc') := HandlerStep(cfg, s.world, s.tasks[t], s.clock, inp);
            Unsaved(pc') ==> Carried(pc').Id() == id && id in w'.ledger.rows && LeaseOk(cfg, b, w'.ledger.rows[id], pc', s.clock)
  {
    hide RowOk, AccountOk;
  }

  lemma PhaseLease(cfg: Config, b: Budget, s: State, t: nat, id: Uuid, inp: Inputs)
    requires OwnerFacts(s, t, id) && !s.tasks[t].Popped?
    requires Unsaved(s.tasks[t]) ==> LeaseOk(cfg, b, s.Rows()[id], s.tasks[t], s.clock)
    ensures var (w', pc') := HandlerStep(cfg, s.world, s.tasks[t], s.clock, inp);
            Unsaved(pc') ==> Carried(pc').Id() == id && id in w'.ledger.rows && LeaseOk(cfg, b, w'.ledger.rows[id], pc', s.clock)
  {
    hide RowOk, AccountOk;
  }

  lemma AdvanceKeepsLeases(cfg: Config, b: Budget, s: State, t: nat, inp: Inputs)
    requires Inv(cfg, s) && LeasesHold(cfg, b, s.Rows(), s.tasks, s.clock) && t in s.tasks && PcOk(s.tasks[t])
    ensures var s' := ApplyAdvance(cfg, s, t, inp); LeasesHold(cfg, b, s'.Rows(), s'.tasks, s'.clock)
  {
    hide HandlerStep, NamesOk, SlotsOk, CopiesOk, RunningOk, AccountsOk, TableOk, WakeOk, LeaseOk, CopyOk, AccountOk, RowOk;
    var pc := s.tasks[t];
    var (w', pc') := HandlerStep(cfg, s.world, pc, s.clock, inp);
    if Owned(pc).Some? {
      var id := Owned(pc).value;
      OwnerKnows(cfg, s, t, id);
      AdvanceLease(cfg, b, s, t, id, inp);
      forall u | u in s.tasks && u != t && Unsaved(s.tasks[u])
        ensures Carried(s.tasks[u]).Id() != id
      {
        assert Owned(s.tasks[u]) == Some(Carried(s.tasks[u]).Id());
      }
    } else {
      TailMoves(cfg, s.world, pc, s.clock, inp);
    }
  }

  lemma TailMoves(cfg: Config, w: World, pc: Pc, now: nat, inp: Inputs)
    requires PcOk(pc) && Owned(pc).None?
    ensures var (w', pc') := HandlerStep(cfg, w, pc, now, inp); w'.ledger == w.ledger && !Unsaved(pc')
  {
  }

  // An unexpired lease is left alone by the reconciler.
  lemma SweepKeepsLeases(cfg: Config, b: Budget, s: State, r: nat, limit: nat)
    requires Inv(cfg, s) && LeasesHold(cfg, b, s.Rows(), s.tasks, s.clock) && WithinLease(cfg, b)
    requires Enabled(cfg, s, Sweep(r, limit))
    ensures var s' := ApplySweep(s, r, limit); LeasesHold(cfg, b, s'.Rows(), s'.tasks, s'.clock)
  {
    hide NamesOk, OwnersOk, SlotsOk, CopiesOk, RunningOk, AccountsOk, TableOk, ListCandidates;
    var rows' := ApplySweep(s, r, limit).Rows();
    CandidateFacts(s.world.ledger, s.clock, limit);
    forall t | t in s.tasks && Unsaved(s.tasks[t]) && Carried(s.tasks[t]).Id() in s.Rows()
      ensures rows'[Carried(s.tasks[t]).Id()] == s.Rows()[Carried(s.tasks[t]).Id()]
    {
      assert LeaseOk(cfg, b, s.Rows()[Carried(s.tasks[t]).Id()], s.tasks[t], s.clock);
    }
  }

  lemma TickKeepsLeases(cfg: Config, b: Budget, s: State, d: nat)
    requires LeasesHold(cfg, b, s.Rows(), s.tasks, s.clock) && TimedEnabled(cfg, b, s, Tick(d))
    ensures LeasesHold(cfg, b, s.Rows(), s.tasks, s.clock + d)
  {
  }

  lemma UntouchedTask(cfg: Config, s: State, a: Action, t: nat)
    requires Enabled(cfg, s, a) && !a.Advance? && !a.Sweep? && !a.Tick?
    requires t in Apply(cfg, s, a).tasks && Unsaved(Apply(cfg, s, a).tasks[t])
    ensures t in s.tasks && Apply(cfg, s, a).tasks[t] == s.tasks[t]
  {
  }

  lemma UnsavedRow(cfg: Config, s: State, t: nat)
    requires Inv(cfg, s) && t in s.tasks && Unsaved(s.tasks[t])
    ensures var id := Carried(s.tasks[t]).Id(); Admitted(s.Rows(), id) && s.Rows()[id].Id() == id
    ensures TableOk(s.world.ledger)
  {
    hide SlotsOk, OwnersOk, CopiesOk, RunningOk, AccountsOk, RowOk, WakeOk;
    assert Named(s.tasks[t]) == Some(Carried(s.tasks[t]).Id());
  }

  lemma UntouchedRow(cfg: Config, s: State, a: Action, id: Uuid)
    requires TableOk(s.world.ledger) && Admitted(s.Rows(), id)
    requires Enabled(cfg, s, a) && !a.Advance? && !a.Sweep? && !a.Tick?
    ensures id in Apply(cfg, s, a).Rows() && Apply(cfg, s, a).Rows()[id] == s.Rows()[id]
  {
    hide RowOk;
  }

  // Uploads, the scanner, pops, offers, losses and deaths touch no handler's row or copy.
  lemma OtherStepsKeepLeases(cfg: Config, b: Budget, s: State, a: Action)
    requires Inv(cfg, s) && LeasesHold(cfg, b, s.Rows(), s.tasks, s.clock)
    requires Enabled(cfg, s, a) && !a.Advance? && !a.Sweep? && !a.Tick?
    ensures var s' := Apply(cfg, s, a); LeasesHold(cfg, b, s'.Rows(), s'.tasks, s'.clock)
  {
    hide Inv, LeaseOk;
    var s' := Apply(cfg, s, a);
    forall t | t in s'.tasks && Unsaved(s'.tasks[t])
      ensures t in s.tasks && s'.tasks[t] == s.tasks[t]
      ensures var id := Carried(s.tasks[t]).Id(); id in s.Rows() && s'.Rows()[id] == s.Rows()[id]
    {
      UntouchedTask(cfg, s, a, t);
      UnsavedRow(cfg, s, t);
      UntouchedRow(cfg, s, a, Carried(s.tasks[t]).Id());
    }
    assert s'.clock == s.clock;
  }

  lemma StepKeepsLeases(cfg: Config, b: Budget, s: State, a: Action)
    requires Inv(cfg, s) && LeasesHold(cfg, b, s.Rows(), s.tasks, s.clock) && WithinLease(cfg, b)
    requires TimedEnabled(cfg, b, s, a)
    ensures var s' := Apply(cfg, s, a); LeasesHold(cfg, b, s'.Rows(), s'.tasks, s'.clock)
  {
    hide Inv, LeasesHold;
    if a.Advance? {
      AdvanceKeepsLeases(cfg, b, s, a.t, a.inp);
    } else if a.Sweep? {
      SweepKeepsLeases(cfg, b, s, a.r, a.limit);
    } else if a.Tick? {
      TickKeepsLeases(cfg, b, s, a.d);
    } else {
      OtherStepsKeepLeases(cfg, b, s, a);
    }
  }

  // ----- within the bound: only table edges -----

  lemma ClaimEdge(cfg: Config, s: State, t: nat, id: Uuid, inp: Inputs)
    requires OwnerFacts(s, t, id) && s.tasks[t].Popped?
    ensures var w' := HandlerStep(cfg, s.world, s.tasks[t], s.clock, inp).0;
            && OnlyRow(s.Rows(), w'.ledger.rows, id)
            && (w'.ledger.rows[id] == s.Rows()[id] || TableEdge(s.Rows()[id], w'.ledger.rows[id]))
  {
  }

  lemma SaveEdge(cfg: Config, s: State, t: nat, id: Uuid, inp: Inputs)
    requires OwnerFacts(s, t, id) && s.tasks[t].Saving? && s.Rows()[id].status.Running?
    ensures var w' := HandlerStep(cfg, s.world, s.tasks[t], s.clock, inp).0;
            && OnlyRow(s.Rows(), w'.ledger.rows, id) && TableEdge(s.Rows()[id], w'.ledger.rows[id])
            && s.Rows()[id].attemptCount == s.tasks[t].updated.attemptCount
  {
  }

  lemma AdvanceConforms(cfg: Config, b: Budget, s: State, t: nat, inp: Inputs)
    requires Inv(cfg, s) && LeasesHold(cfg, b, s.Rows(), s.tasks, s.clock) && t in s.tasks && PcOk(s.tasks[t])
    ensures StepConforms(cfg, s, Advance(t, inp))
  {
    hide Inv, OwnerFacts, HandlerStep, TableEdge;
    if s.tasks[t].Popped? {
      OwnerKnows(cfg, s, t, s.tasks[t].id);
      ClaimEdge(cfg, s, t, s.tasks[t].id, inp);
    } else if s.tasks[t].Saving? {
      var id := s.tasks[t].updated.Id();
      OwnerKnows(cfg, s, t, id);
      OwnerRow(s, t, id);
      SaveEdge(cfg, s, t, id, inp);
    } else {
      OtherStepsKeepLedger(cfg, s.world, s.tasks[t], s.clock, inp);
    }
  }

  lemma OwnerRow(s: State, t: nat, id: Uuid)
    requires OwnerFacts(s, t, id)
    ensures id in s.Rows()
  {
  }

  lemma SweepConforms(cfg: Config, s: State, r: nat, limit: nat)
    requires Inv(cfg, s) && Enabled(cfg, s, Sweep(r, limit))
    ensures StepConforms(cfg, s, Sweep(r, limit))
  {
    hide NamesOk, OwnersOk, SlotsOk, CopiesOk, RunningOk, AccountsOk, ListCandidates;
    CandidateFacts(s.world.ledger, s.clock, limit);
    forall j | j in s.Rows()
      ensures Touch(s.Rows()[j], s.clock) == s.Rows()[j] || TableEdge(s.Rows()[j], Touch(s.Rows()[j], s.clock))
    {
      TouchKeepsRow(s.Rows()[j], s.clock);
    }
  }

  lemma ScannerConforms(cfg: Config, s: State, a: Action)
    requires TableOk(s.world.ledger) && Enabled(cfg, s, a) && (a.ReleaseScan? || a.RejectScan?)
    ensures StepConforms(cfg, s, a)
  {
    hide RowOk;
    assert s.Rows()[a.id].Id() == a.id;
  }

  lemma OthersConform(cfg: Config, s: State, a: Action)
    requires TableOk(s.world.ledger) && Enabled(cfg, s, a)
    requires !a.Advance? && !a.Sweep? && !a.ReleaseScan? && !a.RejectScan?
    ensures StepConforms(cfg, s, a)
  {
    hide TableOk, TableEdge;
  }

  lemma InvTable(cfg: Config, s: State)
    requires Inv(cfg, s)
    ensures TableOk(s.world.ledger)
  {
  }

  lemma TimedStepConforms(cfg: Config, b: Budget, s: State, a: Action)
    requires Inv(cfg, s) && LeasesHold(cfg, b, s.Rows(), s.tasks, s.clock) && TimedEnabled(cfg, b, s, a)
    ensures StepConforms(cfg, s, a)
  {
    hide Inv, LeasesHold, StepConforms;
    if a.Advance? {
      AdvanceConforms(cfg, b, s, a.t, a.inp);
    } else if a.Sweep? {
      SweepConforms(cfg, s, a.r, a.limit);
    } else {
      InvTable(cfg, s);
      if a.ReleaseScan? || a.RejectScan? {
        ScannerConforms(cfg, s, a);
      } else {
        OthersConform(cfg, s, a);
      }
    }
  }

  lemma {:induction false} TimedRunsHoldLeases(cfg: Config, b: Budget, s: State, run: seq<Action>)
    requires Inv(cfg, s) && LeasesHold(cfg, b, s.Rows(), s.tasks, s.clock) && WithinLease(cfg, b)
    requires TimedRun(cfg, b, s, run)
    ensures var end := Run(cfg, s, run); Inv(cfg, end) && LeasesHold(cfg, b, end.Rows(), end.tasks, end.clock)
    decreases |run|
  {
    hide Inv, LeasesHold, TimedEnabled, Enabled, Apply;
    if run != [] {
      StepKeepsLeases(cfg, b, s, run[0]);
      TimedEnables(cfg, b, s, run[0]);
      StepKeepsInv(cfg, s, run[0]);
      TimedRunsHoldLeases(cfg, b, Apply(cfg, s, run[0]), run[1..]);
    }
  }

  lemma TimedEnables(cfg: Config, b: Budget, s: State, a: Action)
    requires TimedEnabled(cfg, b, s, a)
    ensures Enabled(cfg, s, a)
  {
  }

  // ----- beyond the bound: a run that leaves the table -----

  lemma {:induction false} TimedRunsCompose(cfg: Config, b: Budget, s: State, run: seq<Action>, a: Action)
    requires TimedRun(cfg, b, s, run) && TimedEnabled(cfg, b, Run(cfg, s, run), a)
    ensures TimedRun(cfg, b, s, run + [a]) && Run(cfg, s, run + [a]) == Apply(cfg, Run(cfg, s, run), a)
    decreases |run|
  {
    hide TimedEnabled, Enabled, Apply;
    if run == [] {
      TimedEnables(cfg, b, s, a);
      assert run + [a] == [a] && [a][1..] == [];
    } else {
      TimedRunsCompose(cfg, b, Apply(cfg, s, run[0]), run[1..], a);
      assert (run + [a])[1..] == run[1..] + [a];
    }
  }

  lemma Extend(cfg: Config, b: Budget, s: State, a: Action)
    requires TimedReachable(cfg, b, s) && TimedEnabled(cfg, b, s, a)
    ensures TimedReachable(cfg, b, Apply(cfg, s, a))
  {
    hide TimedEnabled, Apply;
    var run :| TimedRun(cfg, b, Initial(), run) && Run(cfg, Initial(), run) == s;
    TimedRunsCompose(cfg, b, Initial(), run, a);
  }

  // A job without retries is dead-lettered by expiry, one with retries goes to RETRY.
  function WitnessJob(id: Uuid, retries: nat): JobRecord {
    NewJob(id, id, "key", false, None, None, retries, 0)
  }

  function ClaimedWitness(cfg: Config, id: Uuid, retries: nat): JobRecord {
    Claim(WitnessJob(id, retries), cfg.owner, 0, cfg.leaseSeconds).job
  }

  // The witness run's states from the pop on: one row, one handler.
  function WitnessState(id: Uuid, row: JobRecord, pc: Pc, clock: nat): State {
    State(World(Table([id], map[id := row]), Wake([], {id}), if SlotHeld(pc).Some? then {SlotHeld(pc).value} else {}, []),
          map[1 := pc], map[], clock, map[id := 1], if SlotHeld(pc).Some? then map[SlotHeld(pc).value := 1] else map[],
          map[id := Tally(row.attemptCount, 0, 0, 0)])
  }

  function AnyReply(): Reply {
    Summary("done")
  }

  function AnyInputs(): Inputs {
    Inputs(Success, true, AnyReply())
  }

  function UploadedWitness(id: Uuid, retries: nat): State {
    State(World(Table([id], map[id := WitnessJob(id, retries)]), Wake([], {}), {}, []), map[0 := Enqueueing(id, None)], map[], 0,
          map[], map[], map[id := Tally(0, 0, 0, 0)])
  }

  function QueuedWitness(id: Uuid, retries: nat): State {
    UploadedWitness(id, retries).(world := World(Table([id], map[id := WitnessJob(id, retries)]), Wake([id], {}), {}, []), tasks := map[])
  }

  function PoppedWitness(id: Uuid, retries: nat): State {
    WitnessState(id, WitnessJob(id, retries), Popped(id), 0)
  }

  function WorkingWitness(cfg: Config, id: Uuid, retries: nat, clock: nat): State {
    WitnessState(id, ClaimedWitness(cfg, id, retries), Working(ClaimedWitness(cfg, id, retries), 0), clock)
  }

  function InSlotWitness(cfg: Config, id: Uuid, retries: nat, since: nat, clock: nat): State {
    WitnessState(id, ClaimedWitness(cfg, id, retries), InSlot(ClaimedWitness(cfg, id, retries), 0, since), clock)
  }

  function SavingPc(cfg: Config, id: Uuid, retries: nat, since: nat, reply: Reply): (pc: Pc)
    requires !reply.Escapes?
    ensures pc.Saving? && pc.since == since && pc.updated.Id() == id && pc.updated.attemptCount == 1
    ensures reply.Summary? ==> pc.updated.status.Succeeded?
  {
    AfterInference(ClaimedWitness(cfg, id, retries), 0, since, true, reply)
  }

  function SavingWitness(cfg: Config, id: Uuid, retries: nat, since: nat, clock: nat, reply: Reply): State
    requires !reply.Escapes?
  {
    WitnessState(id, ClaimedWitness(cfg, id, retries), SavingPc(cfg, id, retries, since, reply), clock)
  }

  // The steps of the witness run, one equation each.

  lemma WitnessUploads(cfg: Config, id: Uuid, retries: nat)
    ensures ApplyUpload(Initial(), 0, WitnessJob(id, retries)) == UploadedWitness(id, retries)
  {
  }

  lemma WitnessQueues(cfg: Config, id: Uuid, retries: nat)
    ensures ApplyAdvance(cfg, UploadedWitness(id, retries), 0, AnyInputs()) == QueuedWitness(id, retries)
  {
    var w := UploadedWitness(id, retries).world;
    assert Enqueue(w.queue, id) == Wake([id], {});
  }

  lemma WitnessPops(id: Uuid, retries: nat)
    ensures ApplyPop(QueuedWitness(id, retries), 1) == PoppedWitness(id, retries)
  {
  }

  lemma WitnessClaims(cfg: Config, id: Uuid, retries: nat)
    ensures ApplyAdvance(cfg, PoppedWitness(id, retries), 1, AnyInputs()) == WorkingWitness(cfg, id, retries, 0)
  {
  }

  lemma WitnessEnters(cfg: Config, id: Uuid, retries: nat, x: nat)
    requires cfg.slots > 0
    ensures ApplyAdvance(cfg, WorkingWitness(cfg, id, retries, x), 1, AnyInputs()) == InSlotWitness(cfg, id, retries, x, x)
  {
    assert LeastFree({}, 0, cfg.slots) == Some(0);
  }

  lemma WitnessInfers(cfg: Config, id: Uuid, retries: nat, x: nat, y: nat, reply: Reply)
    requires !reply.Escapes?
    ensures ApplyAdvance(cfg, InSlotWitness(cfg, id, retries, x, y), 1, Inputs(Success, true, reply))
         == SavingWitness(cfg, id, retries, y, y, reply)
  {
  }

  lemma ReachUploaded(cfg: Config, b: Budget, id: Uuid, retries: nat)
    ensures TimedReachable(cfg, b, UploadedWitness(id, retries))
  {
    assert TimedReachable(cfg, b, Initial()) by {
      assert TimedRun(cfg, b, Initial(), []);
    }
    hide TimedReachable, ApplyUpload;
    Extend(cfg, b, Initial(), Upload(0, WitnessJob(id, retries)));
    WitnessUploads(cfg, id, retries);
  }

  lemma ReachPopped(cfg: Config, b: Budget, id: Uuid, retries: nat)
    ensures TimedReachable(cfg, b, PoppedWitness(id, retries))
  {
    hide TimedReachable, HandlerStep, ApplyAdvance, ApplyPop;
    ReachUploaded(cfg, b, id, retries);
    Extend(cfg, b, UploadedWitness(id, retries), Advance(0, AnyInputs()));
    WitnessQueues(cfg, id, retries);
    Extend(cfg, b, QueuedWitness(id, retries), Pop(1));
    WitnessPops(id, retries);
  }

  // The claim at time 0 takes a lease until `leaseSeconds`.
  lemma ReachWorking(cfg: Config, b: Budget, id: Uuid, retries: nat)
    ensures TimedReachable(cfg, b, WorkingWitness(cfg, id, retries, 0))
  {
    hide TimedReachable, HandlerStep, ApplyAdvance;
    ReachPopped(cfg, b, id, retries);
    Extend(cfg, b, PoppedWitness(id, retries), Advance(1, AnyInputs()));
    WitnessClaims(cfg, id, retries);
  }

  // The lone handler may let d seconds pass.
  lemma WaitInPhase(cfg: Config, b: Budget, id: Uuid, row: JobRecord, pc: Pc, clock: nat, d: nat)
    requires TimedReachable(cfg, b, WitnessState(id, row, pc, clock))
    requires Unsaved(pc) && clock + d <= Since(pc) + Bound(b, pc)
    ensures TimedReachable(cfg, b, WitnessState(id, row, pc, clock + d))
  {
    hide TimedReachable;
    var s := WitnessState(id, row, pc, clock);
    Extend(cfg, b, s, Tick(d));
    assert Apply(cfg, s, Tick(d)) == WitnessState(id, row, pc, clock + d);
  }

  lemma ReachInSlot(cfg: Config, b: Budget, id: Uuid, retries: nat, x: nat)
    requires cfg.slots > 0 && x <= b.work
    ensures TimedReachable(cfg, b, InSlotWitness(cfg, id, retries, x, x))
  {
    hide TimedReachable, HandlerStep, ApplyAdvance;
    var claimed := ClaimedWitness(cfg, id, retries);
    ReachWorking(cfg, b, id, retries);
    WaitInPhase(cfg, b, id, claimed, Working(claimed, 0), 0, x);
    Extend(cfg, b, WorkingWitness(cfg, id, retries, x), Advance(1, AnyInputs()));
    WitnessEnters(cfg, id, retries, x);
  }

  // The handler works for x seconds, infers for y, and is about to save after z more.
  lemma ReachSaving(cfg: Config, b: Budget, id: Uuid, retries: nat, x: nat, y: nat, z: nat, reply: Reply)
    requires cfg.slots > 0 && x <= b.work && y <= b.inference && z <= b.completion && !reply.Escapes?
    ensures TimedReachable(cfg, b, SavingWitness(cfg, id, retries, x + y, x + y + z, reply))
  {
    hide TimedReachable, HandlerStep, ApplyAdvance;
    var claimed := ClaimedWitness(cfg, id, retries);
    ReachInSlot(cfg, b, id, retries, x);
    WaitInPhase(cfg, b, id, claimed, InSlot(claimed, 0, x), x, y);
    Extend(cfg, b, InSlotWitness(cfg, id, retries, x, x + y), Advance(1, Inputs(Success, true, reply)));
    WitnessInfers(cfg, id, retries, x, x + y, reply);
    WaitInPhase(cfg, b, id, claimed, SavingPc(cfg, id, retries, x + y, reply), x + y, z);
  }

  // A budget at or over the lease lets a handler be about to save when its lease is over.
  lemma ReachLateSave(cfg: Config, b: Budget, id: Uuid, retries: nat, reply: Reply) returns (since: nat)
    requires cfg.slots > 0 && !WithinLease(cfg, b) && !reply.Escapes?
    ensures TimedReachable(cfg, b, SavingWitness(cfg, id, retries, since, cfg.leaseSeconds, reply))
  {
    hide TimedReachable;
    var x := Min(b.work, cfg.leaseSeconds);
    var y := Min(b.inference, cfg.leaseSeconds - x);
    since := x + y;
    ReachSaving(cfg, b, id, retries, x, y, cfg.leaseSeconds - since, reply);
  }

  // The reconciler runs when the lease is over.
  lemma SweepExpires(cfg: Config, b: Budget, id: Uuid, retries: nat, pc: Pc)
    requires TimedReachable(cfg, b, WitnessState(id, ClaimedWitness(cfg, id, retries), pc, cfg.leaseSeconds))
    ensures var s := ApplySweep(WitnessState(id, ClaimedWitness(cfg, id, retries), pc, cfg.leaseSeconds), 0, 1);
            && TimedReachable(cfg, b, s) && s.tasks == map[1 := pc]
            && s.world.ledger == Table([id], map[id := Touch(ClaimedWitness(cfg, id, retries), cfg.leaseSeconds)])
            && s.tally == map[id := Tally(1, 0, 0, 0)]
  {
    hide TimedReachable, ListCandidates;
    var claimed := ClaimedWitness(cfg, id, retries);
    Extend(cfg, b, WitnessState(id, claimed, pc, cfg.leaseSeconds), Sweep(0, 1));
    SweepOfOne(id, claimed, cfg.leaseSeconds);
  }

  lemma SweepOfOne(id: Uuid, row: JobRecord, now: nat)
    ensures ListCandidates(Table([id], map[id := row]), now, 1).0 == Table([id], map[id := Touch(row, now)])
  {
    var touched := Touch(row, now);
    assert [id][1..] == [] && map[id := row][id := touched] == map[id := touched];
    var found := if Claimable(touched.status) then [touched] else [];
    assert [] + [touched] == [touched];
    assert Scan([], map[id := touched], now, 1, []) == (map[id := touched], []);
    assert Scan([id], map[id := row], now, 1, []) == (map[id := touched], found);
  }

  // With the budget at or over the lease, the reconciler can expire the lease under the
  // live handler, whose save then revives a dead-lettered row.
  lemma LateSaveLeavesTable(cfg: Config, b: Budget, id: Uuid) returns (s: State, save: Action)
    requires cfg.slots > 0 && !WithinLease(cfg, b)
    ensures TimedReachable(cfg, b, s) && TimedEnabled(cfg, b, s, save) && !StepConforms(cfg, s, save)
    ensures id in s.Rows() && s.Rows()[id].status.DeadLetter?
    ensures id in Apply(cfg, s, save).Rows() && Apply(cfg, s, save).Rows()[id].status.Succeeded?
  {
    hide TimedReachable, ApplySweep;
    var since := ReachLateSave(cfg, b, id, 0, AnyReply());
    var pc := SavingPc(cfg, id, 0, since, AnyReply());
    SweepExpires(cfg, b, id, 0, pc);
    s := ApplySweep(SavingWitness(cfg, id, 0, since, cfg.leaseSeconds, AnyReply()), 0, 1);
    save := Advance(1, AnyInputs());
  }

  // Table conformance is exact: the ledger of every timely run moves only along the
  // transition table, each save landing on the RUNNING row of its own attempt, if and
  // only if work + inference + completion stay below the lease.
  lemma ConformanceIff(cfg: Config, b: Budget)
    requires cfg.slots > 0
    ensures (forall s, a :: TimedReachable(cfg, b, s) && TimedEnabled(cfg, b, s, a) ==> StepConforms(cfg, s, a))
            <==> WithinLease(cfg, b)
  {
    if WithinLease(cfg, b) {
      forall s, a | TimedReachable(cfg, b, s) && TimedEnabled(cfg, b, s, a)
        ensures StepConforms(cfg, s, a)
      {
        hide StepConforms, TimedEnabled;
        var run :| TimedRun(cfg, b, Initial(), run) && Run(cfg, Initial(), run) == s;
        InitialInv(cfg);
        TimedRunsHoldLeases(cfg, b, Initial(), run);
        TimedStepConforms(cfg, b, s, a);
      }
    } else {
      var s, save := LateSaveLeavesTable(cfg, b, Uuid(0));
    }
  }

  // ----- the configured numbers -----

  // The ranges Settings accepts for the lease and for its parts.
  predicate SettingsAccept(leaseSeconds: nat, workMin: nat, workMax: nat, inferenceTimeout: nat) {
    60 <= leaseSeconds <= 600 && workMin <= workMax && 1 <= inferenceTimeout <= 600
  }

  // The documented budget, 240 + 240 seconds and 30 to complete, keeps the table under the
  // default lease of 570. No setting enforces it, and an inference phase as long as the
  // timeout of 600 that validation accepts as well does not.
  lemma DefaultsConformSettingsNeedNot(owner: string)
    ensures SettingsAccept(570, 20, 240, 240) && SettingsAccept(570, 20, 240, 600)
    ensures forall s, a ::
              (TimedReachable(Config(owner, 570, 10), Budget(240, 240, 30), s)
               && TimedEnabled(Config(owner, 570, 10), Budget(240, 240, 30), s, a))
              ==> StepConforms(Config(owner, 570, 10), s, a)
    ensures exists s, a :: TimedReachable(Config(owner, 570, 10), Budget(240, 600, 30), s)
              && TimedEnabled(Config(owner, 570, 10), Budget(240, 600, 30), s, a) && !StepConforms(Config(owner, 570, 10), s, a)
  {
    ConformanceIff(Config(owner, 570, 10), Budget(240, 240, 30));
    var s, save := LateSaveLeavesTable(Config(owner, 570, 10), Budget(240, 600, 30), Uuid(0));
  }
}
