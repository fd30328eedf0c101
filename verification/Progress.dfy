// Termination under concurrency: however handlers interleave, the number of pops and
// handler steps is bounded by what the ledger, the queue and the live tasks hold, plus
// what uploads and reconcilers add.

module Progress {
  import opened Basics
  import opened Ids
  import opened Jobs
  import opened Queue
  import opened Ledger
  import opened Faults
  import opened Handler
  import opened Drain
  import opened Protocol
  import opened Guarantees
  import opened Wakes

  // ----- the measure -----

  // An attempt still to be claimed weighs 10, a pending id 9, a task what it may yet do.
  function Weight(pc: Pc): nat {
    match pc
    case Popped(_) => 8
    case Working(_, _) => 16
    case InSlot(_, _, _) => 15
    case Saving(_, _, _, _) => 14
    case Recording(_, _, _) => 13
    case Acking(_, again, _) => if again then 12 else 3
    case Enqueueing(_, _) => 11
    case Releasing(_) => 1
    case Done => 0
  }

  ghost function TaskWeight(tasks: map<nat, Pc>): nat
    decreases |tasks|
  {
    if tasks == map[] then 0
    else var t :| t in tasks; Weight(tasks[t]) + TaskWeight(tasks - {t})
  }

  lemma {:induction false} WeightOfTask(tasks: map<nat, Pc>, t: nat)
    requires t in tasks
    ensures TaskWeight(tasks) == Weight(tasks[t]) + TaskWeight(tasks - {t})
    decreases |tasks|
  {
    var u :| u in tasks && TaskWeight(tasks) == Weight(tasks[u]) + TaskWeight(tasks - {u});
    if u != t {
      WeightOfTask(tasks - {u}, t);
      WeightOfTask(tasks - {t}, u);
      assert tasks - {u} - {t} == tasks - {t} - {u};
    }
  }

  lemma WeightAfter(tasks: map<nat, Pc>, t: nat, pc': Pc)
    ensures TaskWeight(SetTask(tasks, t, pc')) + (if t in tasks then Weight(tasks[t]) else 0) == TaskWeight(tasks) + Weight(pc')
  {
    assert t !in tasks ==> tasks - {t} == tasks;
    if t in tasks {
      WeightOfTask(tasks, t);
    }
    if !pc'.Done? {
      WeightOfTask(tasks[t := pc'], t);
      assert tasks[t := pc'] - {t} == tasks - {t};
    }
  }

  ghost function Measure(s: State): nat
    requires Listed(s.world.ledger)
  {
    10 * TotalRemaining(s.world.ledger.order, s.Rows()) + 9 * |s.world.queue.pending| + TaskWeight(s.tasks)
  }

  // What a step may add to the measure.
  function Grant(a: Action): nat {
    match a
    case Upload(_, job) => 10 * job.MaxAttempts() + 11
    case Offer(_) => 9
    case _ => 0
  }

  // The steps that are to run out.
  function Moves(a: Action): nat {
    if a.Pop? || a.Advance? then 1 else 0
  }

  // ----- one step -----

  lemma {:induction false} TotalAppend(order: seq<Uuid>, rows: map<Uuid, JobRecord>, job: JobRecord)
    requires (forall j :: j in order ==> j in rows) && job.Id() !in order
    ensures TotalRemaining(order + [job.Id()], rows[job.Id() := job]) == TotalRemaining(order, rows) + Remaining(job)
  {
    var rows' := rows[job.Id() := job];
    if order == [] {
      assert order + [job.Id()] == [job.Id()];
      assert [job.Id()][1..] == [];
      assert TotalRemaining([job.Id()], rows') == Remaining(rows'[job.Id()]) + TotalRemaining([], rows');
    } else {
      assert (order + [job.Id()])[1..] == order[1..] + [job.Id()];
      TotalAppend(order[1..], rows, job);
    }
  }

  lemma RemainingFalls(before: JobRecord, after: JobRecord)
    requires RowStep(before, after) && RowOk(before) && RowOk(after)
    ensures Remaining(after) <= Remaining(before)
    ensures Claimable(before.status) && after.status.Running? ==> Remaining(after) < Remaining(before)
  {
  }

  // No step but an upload adds to the attempts that remain.
  lemma StepTotal(cfg: Config, s: State, a: Action)
    requires Inv(cfg, s) && Enabled(cfg, s, a) && !a.Upload?
    requires Apply(cfg, s, a).world.ledger.order == s.world.ledger.order
    ensures var s' := Apply(cfg, s, a);
            && Listed(s'.world.ledger)
            && TotalRemaining(s'.world.ledger.order, s'.Rows()) <= TotalRemaining(s.world.ledger.order, s.Rows())
            && ((exists j :: j in s.Rows() && j in s'.Rows() && Claimable(s.Rows()[j].status) && s'.Rows()[j].status.Running?) ==>
                 TotalRemaining(s'.world.ledger.order, s'.Rows()) < TotalRemaining(s.world.ledger.order, s.Rows()))
  {
    hide Enabled, Apply, Remaining, RowStep, RowOk, NamesOk, OwnersOk, SlotsOk, CopiesOk, RunningOk, AccountsOk, WakeOk;
    var s' := Apply(cfg, s, a);
    StepKeepsInv(cfg, s, a);
    forall j | j in s.Rows()
      ensures j in s'.Rows() && Remaining(s'.Rows()[j]) <= Remaining(s.Rows()[j])
      ensures Claimable(s.Rows()[j].status) && s'.Rows()[j].status.Running? ==> Remaining(s'.Rows()[j]) < Remaining(s.Rows()[j])
    {
      StepRows(cfg, s, a, j);
      RemainingFalls(s.Rows()[j], s'.Rows()[j]);
    }
    TotalMonotone(s.world.ledger.order, s.Rows(), s'.Rows());
  }

  // A handler step weighs less, a claim being paid for by its attempt.
  lemma StepWeighs(cfg: Config, w: World, pc: Pc, now: nat, inp: Inputs)
    requires PcOk(pc) && !pc.Done?
    requires pc.Saving? ==> pc.updated.Id() in w.ledger.rows
    ensures var (w', pc') := HandlerStep(cfg, w, pc, now, inp);
            && w'.ledger.order == w.ledger.order
            && Weight(pc') + 9 * |w'.queue.pending| + 1
               <= Weight(pc) + 9 * |w.queue.pending| + (if pc.Popped? && pc'.Working? then 10 else 0)
            && (pc.Popped? && pc'.Working? ==>
                 CanClaim(w.ledger, pc.id) && pc.id in w'.ledger.rows && w'.ledger.rows[pc.id].status.Running?)
  {
  }

  lemma AdvanceWeighs(cfg: Config, s: State, t: nat, inp: Inputs)
    requires Inv(cfg, s) && Enabled(cfg, s, Advance(t, inp))
    ensures var s' := Apply(cfg, s, Advance(t, inp)); Listed(s'.world.ledger) && Measure(s') + 1 <= Measure(s)
  {
    hide NamesOk, OwnersOk, SlotsOk, RunningOk, AccountsOk, WakeOk, TableOk, HandlerStep, OwnerFacts, TotalRemaining, TaskWeight, Weight;
    var pc := s.tasks[t];
    if pc.Saving? {
      OwnerKnows(cfg, s, t, pc.updated.Id());
      OwnerRowIn(s, t, pc.updated.Id());
    }
    StepWeighs(cfg, s.world, pc, s.clock, inp);
    WeightAfter(s.tasks, t, HandlerStep(cfg, s.world, pc, s.clock, inp).1);
    StepTotal(cfg, s, Advance(t, inp));
  }

  lemma OwnerRowIn(s: State, t: nat, id: Uuid)
    requires OwnerFacts(s, t, id)
    ensures id in s.Rows()
  {
  }

  lemma PopWeighs(cfg: Config, s: State, t: nat)
    requires Inv(cfg, s) && Enabled(cfg, s, Pop(t))
    ensures Listed(Apply(cfg, s, Pop(t)).world.ledger) && Measure(Apply(cfg, s, Pop(t))) + 1 <= Measure(s)
  {
    hide NamesOk, OwnersOk, SlotsOk, CopiesOk, RunningOk, AccountsOk, WakeOk, RowOk, TotalRemaining, TaskWeight;
    WeightAfter(s.tasks, t, Popped(s.world.queue.pending[0]));
  }

  lemma UploadWeighs(cfg: Config, s: State, t: nat, job: JobRecord)
    requires Inv(cfg, s) && Enabled(cfg, s, Upload(t, job))
    ensures var s' := Apply(cfg, s, Upload(t, job)); Listed(s'.world.ledger) && Measure(s') <= Measure(s) + Grant(Upload(t, job))
  {
    hide NamesOk, OwnersOk, SlotsOk, CopiesOk, RunningOk, AccountsOk, WakeOk, RowOk, TotalRemaining, TaskWeight;
    TotalAppend(s.world.ledger.order, s.Rows(), job);
    WeightAfter(s.tasks, t, Enqueueing(job.Id(), None));
  }

  // Deaths, losses, the scanner, the clock and the reconciler's scan add nothing.
  lemma OtherWeighs(cfg: Config, s: State, a: Action)
    requires Inv(cfg, s) && Enabled(cfg, s, a) && !a.Upload? && !a.Pop? && !a.Advance?
    ensures var s' := Apply(cfg, s, a); Listed(s'.world.ledger) && Measure(s') <= Measure(s) + Grant(a)
  {
    hide Inv, TotalRemaining, TaskWeight, ListCandidates, RowOk;
    if a.Die? {
      WeightAfter(s.tasks, a.t, Free(SlotHeld(s.tasks[a.t])));
      DeathLightens(cfg, s, a.t);
    }
    OtherOrder(cfg, s, a);
    StepTotal(cfg, s, a);
  }

  lemma DeathLightens(cfg: Config, s: State, t: nat)
    requires Inv(cfg, s) && Enabled(cfg, s, Die(t))
    ensures Weight(Free(SlotHeld(s.tasks[t]))) <= Weight(s.tasks[t])
  {
    hide NamesOk, OwnersOk, SlotsOk, RunningOk, AccountsOk, WakeOk, TableOk;
  }

  lemma OtherOrder(cfg: Config, s: State, a: Action)
    requires Inv(cfg, s) && Enabled(cfg, s, a) && !a.Upload? && !a.Pop? && !a.Advance?
    ensures Apply(cfg, s, a).world.ledger.order == s.world.ledger.order
  {
    hide NamesOk, OwnersOk, SlotsOk, CopiesOk, RunningOk, AccountsOk, WakeOk, TableOk, RowOk;
    if a.ReleaseScan? || a.RejectScan? {
      RowAt(s.world.ledger, a.id);
    }
  }

  lemma InvLists(cfg: Config, s: State)
    requires Inv(cfg, s)
    ensures Listed(s.world.ledger)
  {
  }

  lemma StepMeasures(cfg: Config, s: State, a: Action)
    requires Inv(cfg, s) && Enabled(cfg, s, a) && Listed(s.world.ledger)
    ensures var s' := Apply(cfg, s, a); Listed(s'.world.ledger) && Measure(s') + Moves(a) <= Measure(s) + Grant(a)
  {
    hide Inv, Enabled, Apply, Measure;
    match a
    case Advance(t, inp) => AdvanceWeighs(cfg, s, t, inp);
    case Pop(t) => PopWeighs(cfg, s, t);
    case Upload(t, job) => UploadWeighs(cfg, s, t, job);
    case _ => OtherWeighs(cfg, s, a);
  }

  // ----- whole runs -----

  function AllMoves(run: seq<Action>): nat {
    if run == [] then 0 else Moves(run[0]) + AllMoves(run[1..])
  }

  function AllGrants(run: seq<Action>): nat {
    if run == [] then 0 else Grant(run[0]) + AllGrants(run[1..])
  }

  // In any run, whatever is interleaved, lost or killed, the pops and handler steps number
  // at most the measure of the start plus what the uploads and offers of the run grant.
  lemma {:induction false} MovesAreBounded(cfg: Config, s: State, run: seq<Action>)
    requires Inv(cfg, s) && ValidRun(cfg, s, run)
    ensures Listed(s.world.ledger) && AllMoves(run) <= Measure(s) + AllGrants(run)
    decreases |run|
  {
    hide Inv, Enabled, Apply, Measure, Moves, Grant;
    InvLists(cfg, s);
    if run != [] {
      StepMeasures(cfg, s, run[0]);
      StepKeepsInv(cfg, s, run[0]);
      MovesAreBounded(cfg, Apply(cfg, s, run[0]), run[1..]);
    }
  }

  ghost function Above(keys: set<nat>): (r: nat)
    ensures forall k :: k in keys ==> k < r
  {
    if keys == {} then 0
    else
      var k :| k in keys;
      var rest := Above(keys - {k});
      assert forall x :: x in keys ==> x == k || x in keys - {k};
      if k < rest then rest else k + 1
  }

  // While anything is live or pending, some handler step or pop is possible.
  lemma RestOrMove(cfg: Config, s: State)
    requires Inv(cfg, s)
    ensures AtRest(s) || exists a :: Enabled(cfg, s, a) && Moves(a) == 1
  {
    hide NamesOk, OwnersOk, SlotsOk, RunningOk, AccountsOk, WakeOk, TableOk;
    if t :| t in s.tasks {
      assert Enabled(cfg, s, Advance(t, Inputs(Success, true, Escapes)));
      assert Moves(Advance(t, Inputs(Success, true, Escapes))) == 1;
    } else if s.world.queue.pending != [] {
      assert Enabled(cfg, s, Pop(Above(s.tasks.Keys)));
      assert Moves(Pop(Above(s.tasks.Keys))) == 1;
    }
  }

  // Concurrent draining terminates and does its work: without uploads and offers the moves
  // are bounded by the start alone; until the run is at rest some move is possible; and at
  // rest every job whose wake was not lost and that the run spared is quarantined or terminal.
  lemma ConcurrentDrain(cfg: Config, s: State, run: seq<Action>)
    requires Inv(cfg, s) && ValidRun(cfg, s, run)
    requires forall i :: 0 <= i < |run| ==> !run[i].Upload? && !run[i].Offer?
    ensures Listed(s.world.ledger) && AllMoves(run) <= Measure(s)
    ensures var end := Run(cfg, s, run);
            && (AtRest(end) || exists a :: Enabled(cfg, end, a) && Moves(a) == 1)
            && (AtRest(end) ==>
                 forall j :: j in end.Rows() && Woken(s, j) && RunSpares(cfg, s, run, j) ==>
                   end.Rows()[j].status.Quarantined? || Terminal(end.Rows()[j].status))
  {
    hide Inv, Enabled, Apply, Measure, Woken, Spares, ValidRun, Run, RunSpares, AtRest;
    MovesAreBounded(cfg, s, run);
    NothingGranted(run);
    RunsKeepInv(cfg, s, run);
    RestOrMove(cfg, Run(cfg, s, run));
    forall j | Woken(s, j) && RunSpares(cfg, s, run, j)
      ensures var end := Run(cfg, s, run);
              AtRest(end) && j in end.Rows() ==> end.Rows()[j].status.Quarantined? || Terminal(end.Rows()[j].status)
    {
      NoLostWake(cfg, s, run, j);
    }
  }

  lemma {:induction false} NothingGranted(run: seq<Action>)
    requires forall i :: 0 <= i < |run| ==> !run[i].Upload? && !run[i].Offer?
    ensures AllGrants(run) == 0
  {
    if run != [] {
      NothingGranted(run[1..]);
    }
  }
}
