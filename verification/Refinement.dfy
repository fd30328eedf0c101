// The sequential worker is a behaviour of the protocol: a pop followed by process_one and
// a reconcile pass are runs of its steps, and so is any sequence of them, a whole drain
// and the whole recovery among them.

module Refinement {
  import opened Basics
  import opened Jobs
  import opened Queue
  import opened Ledger
  import opened Reconcile
  import opened Handler
  import opened Protocol
  import opened Guarantees
  import opened Sequential

  // The steps of handler `t` running alone.
  function SoloRun(cfg: Config, w: World, pc: Pc, t: nat, env: Env): seq<Action>
    requires PcOk(pc) && env.claimAt <= env.doneAt
    decreases Rank(pc)
  {
    if pc.Done? then []
    else
      var (w', pc') := HandlerStep(cfg, w, pc, Moment(pc, env), env.inp);
      if pc.Popped? then [Advance(t, env.inp), Tick(env.doneAt - env.claimAt)] + SoloRun(cfg, w', pc', t, env)
      else [Advance(t, env.inp)] + SoloRun(cfg, w', pc', t, env)
  }

  lemma PrependStep(cfg: Config, s: State, a: Action, rest: seq<Action>)
    requires Enabled(cfg, s, a) && ValidRun(cfg, Apply(cfg, s, a), rest)
    ensures ValidRun(cfg, s, [a] + rest) && Run(cfg, s, [a] + rest) == Run(cfg, Apply(cfg, s, a), rest)
  {
    assert ([a] + rest)[1..] == rest;
  }

  lemma StepAdvances(cfg: Config, w: World, pc: Pc, now: nat, inp: Inputs)
    requires PcOk(pc) && !pc.Done?
    ensures var pc' := HandlerStep(cfg, w, pc, now, inp).1; Rank(pc') < Rank(pc) && !pc'.Popped? && PcOk(pc')
  {
  }

  lemma {:induction false} SoloIsRun(cfg: Config, s: State, t: nat, env: Env)
    requires t in s.tasks && PcOk(s.tasks[t]) && !s.tasks[t].Done? && env.claimAt <= env.doneAt
    requires s.clock == Moment(s.tasks[t], env)
    ensures var solo := SoloRun(cfg, s.world, s.tasks[t], t, env);
            && ValidRun(cfg, s, solo)
            && Run(cfg, s, solo).world == RunHandler(cfg, s.world, s.tasks[t], env)
            && Run(cfg, s, solo).tasks == s.tasks - {t} && Run(cfg, s, solo).sweeps == s.sweeps
            && Run(cfg, s, solo).clock == env.doneAt
    decreases Rank(s.tasks[t])
  {
    hide HandlerStep, ValidRun, Run;
    var pc := s.tasks[t];
    StepAdvances(cfg, s.world, pc, s.clock, env.inp);
    var (w', pc') := HandlerStep(cfg, s.world, pc, s.clock, env.inp);
    var s1 := ApplyAdvance(cfg, s, t, env.inp);
    var tick := Tick(env.doneAt - env.claimAt);
    var s2 := if pc.Popped? then s1.(clock := env.doneAt) else s1;
    var rest := SoloRun(cfg, w', pc', t, env);
    if pc'.Done? {
      assert s1.tasks == s.tasks - {t};
      NoSteps(cfg, s2);
    } else {
      assert s2.tasks - {t} == s.tasks - {t};
      SoloIsRun(cfg, s2, t, env);
    }
    if pc.Popped? {
      PrependStep(cfg, s1, tick, rest);
      PrependStep(cfg, s, Advance(t, env.inp), [tick] + rest);
      assert SoloRun(cfg, s.world, pc, t, env) == [Advance(t, env.inp)] + ([tick] + rest);
    } else {
      PrependStep(cfg, s, Advance(t, env.inp), rest);
    }
  }

  // Popping an id and processing it to the end is a run of the protocol from any state,
  // with the same ledger, queue, slots and history at the end, and no task left behind.
  lemma ProcessOneIsRun(cfg: Config, s: State, t: nat, env: Env)
    requires t !in s.tasks && s.world.queue.pending != []
    requires s.clock == env.claimAt <= env.doneAt
    ensures var popped := s.world.(queue := PopWake(s.world.queue).0);
            var id := s.world.queue.pending[0];
            var run := [Pop(t)] + SoloRun(cfg, popped, Popped(id), t, env);
            && ValidRun(cfg, s, run)
            && Run(cfg, s, run).world == Handler.ProcessOne(cfg, popped, id, env)
            && Run(cfg, s, run).tasks == s.tasks && Run(cfg, s, run).sweeps == s.sweeps
            && Run(cfg, s, run).clock == env.doneAt
  {
    var s1 := ApplyPop(s, t);
    SoloIsRun(cfg, s1, t, env);
    PrependStep(cfg, s, Pop(t), SoloRun(cfg, s1.world, s1.tasks[t], t, env));
    assert s1.tasks - {t} == s.tasks;
  }

  // ----- a reconcile pass -----

  function Offers(r: nat, n: nat): seq<Action> {
    seq(n, _ => Offer(r))
  }

  // One offer, to a sweep that has nothing or something left to offer.
  lemma OfferSteps(s: State, r: nat, jobs: seq<JobRecord>)
    requires r in s.sweeps && s.sweeps[r] == JobIds(jobs)
    ensures jobs == [] ==> ApplyOffer(s, r) == s.(sweeps := s.sweeps - {r})
    ensures jobs != [] ==>
              var s1 := ApplyOffer(s, r);
              && s1 == s.(world := s.world.(queue := RequeueIfMissing(s.world.queue, jobs[0].Id()).0), sweeps := s1.sweeps)
              && r in s1.sweeps && s1.sweeps[r] == JobIds(jobs[1..]) && s1.sweeps - {r} == s.sweeps - {r}
  {
    if jobs != [] {
      assert JobIds(jobs) == [jobs[0].Id()] + JobIds(jobs[1..]);
    }
  }

  lemma RequeueStep(q: Wake, jobs: seq<JobRecord>)
    requires jobs != [] && Claimable(jobs[0].status)
    ensures RequeueAll(q, jobs).0 == RequeueAll(RequeueIfMissing(q, jobs[0].Id()).0, jobs[1..]).0
  {
  }

  lemma {:induction false} OffersAreRequeue(cfg: Config, s: State, r: nat, jobs: seq<JobRecord>)
    requires r in s.sweeps && s.sweeps[r] == JobIds(jobs) && forall c :: c in jobs ==> Claimable(c.status)
    ensures var run := Offers(r, |jobs| + 1);
            && ValidRun(cfg, s, run)
            && Run(cfg, s, run) == s.(world := s.world.(queue := RequeueAll(s.world.queue, jobs).0), sweeps := s.sweeps - {r})
    decreases |jobs|
  {
    hide ValidRun, Run, ApplyOffer, RequeueIfMissing, JobIds, RequeueAll;
    var run, s1 := Offers(r, |jobs| + 1), ApplyOffer(s, r);
    OfferSteps(s, r, jobs);
    if jobs == [] {
      NoSteps(cfg, s1);
      PrependStep(cfg, s, Offer(r), []);
      RequeueEmpty(s.world.queue);
      assert run == [Offer(r)] + [];
    } else {
      RequeueStep(s.world.queue, jobs);
      OffersAreRequeue(cfg, s1, r, jobs[1..]);
      assert run == [Offer(r)] + Offers(r, |jobs|);
      PrependStep(cfg, s, Offer(r), Offers(r, |jobs|));
    }
  }

  lemma RequeueEmpty(q: Wake)
    ensures RequeueAll(q, []) == (q, 0)
  {
  }

  // A reconcile pass running alone is a run of the protocol.
  lemma ReconcileIsRun(cfg: Config, s: State, r: nat, limit: nat)
    requires TableOk(s.world.ledger) && r !in s.sweeps
    ensures var (ledger, q, _) := ReconcileOnce(s.world.ledger, s.world.queue, s.clock, limit);
            var run := [Sweep(r, limit)] + Offers(r, |ListCandidates(s.world.ledger, s.clock, limit).1| + 1);
            && ValidRun(cfg, s, run)
            && Run(cfg, s, run) == s.(world := s.world.(ledger := ledger, queue := q))
  {
    CandidateFacts(s.world.ledger, s.clock, limit);
    var candidates := ListCandidates(s.world.ledger, s.clock, limit).1;
    var s1 := ApplySweep(s, r, limit);
    assert s1.sweeps[r] == JobIds(candidates);
    OffersAreRequeue(cfg, s1, r, candidates);
    assert s1.sweeps - {r} == s.sweeps;
    PrependStep(cfg, s, Sweep(r, limit), Offers(r, |candidates| + 1));
  }

  // ----- whole scripts -----

  // Waiting and then doing one deed.
  lemma DeedIsRun(cfg: Config, s: State, limit: nat, d: Deed, t: nat, r: nat) returns (run: seq<Action>)
    requires TableOk(s.world.ledger) && t !in s.tasks && r !in s.sweeps
    requires s.clock <= Start(d) <= End(d) && Do(cfg, limit, s.world, d).Some?
    ensures ValidRun(cfg, s, run)
    ensures var end := Run(cfg, s, run);
            && Some(end.world) == Do(cfg, limit, s.world, d) && end.clock == End(d)
            && end.tasks == s.tasks && end.sweeps == s.sweeps
  {
    hide TableOk, Handler.ProcessOne, ReconcileOnce, ListCandidates, SoloRun, ValidRun, Run;
    var wait := Tick(Start(d) - s.clock);
    var s1 := s.(clock := Start(d));
    var rest: seq<Action>;
    match d {
      case Handled(env) =>
        ProcessOneIsRun(cfg, s1, t, env);
        var popped := s1.world.(queue := PopWake(s1.world.queue).0);
        rest := [Pop(t)] + SoloRun(cfg, popped, Popped(s1.world.queue.pending[0]), t, env);
      case Reconciled(now) =>
        ReconcileIsRun(cfg, s1, r, limit);
        rest := [Sweep(r, limit)] + Offers(r, |ListCandidates(s1.world.ledger, s1.clock, limit).1| + 1);
    }
    PrependStep(cfg, s, wait, rest);
    run := [wait] + rest;
  }

  // Whatever a worker running alone does is a run of the protocol, from any state that
  // satisfies the invariant, with the same world at the end and no task left behind.
  lemma {:induction false} WorkIsRun(cfg: Config, s: State, limit: nat, deeds: seq<Deed>, to: nat, t: nat, r: nat)
    returns (run: seq<Action>)
    requires Inv(cfg, s) && t !in s.tasks && r !in s.sweeps
    requires Work(cfg, limit, s.world, deeds).Some? && Timely(deeds, s.clock, to)
    ensures ValidRun(cfg, s, run)
    ensures var end := Run(cfg, s, run);
            && Some(end.world) == Work(cfg, limit, s.world, deeds) && end.clock <= to
            && end.tasks == s.tasks && end.sweeps == s.sweeps
    decreases |deeds|
  {
    hide Inv, Do, ValidRun, Run;
    if deeds == [] {
      run := [];
      NoSteps(cfg, s);
    } else {
      var last := deeds[|deeds| - 1];
      var first := WorkIsRun(cfg, s, limit, deeds[..|deeds| - 1], Start(last), t, r);
      RunsKeepInv(cfg, s, first);
      InvLedger(cfg, Run(cfg, s, first));
      var second := DeedIsRun(cfg, Run(cfg, s, first), limit, last, t, r);
      RunsCompose(cfg, s, first, second);
      run := first + second;
    }
  }

  lemma NoSteps(cfg: Config, s: State)
    ensures ValidRun(cfg, s, []) && Run(cfg, s, []) == s
  {
  }

  // So what the worker leaves behind is reachable, and every guarantee of reachable states
  // holds of it.
  lemma WorkStaysReachable(cfg: Config, s: State, limit: nat, deeds: seq<Deed>, to: nat, t: nat, r: nat) returns (end: State)
    requires Reachable(cfg, s) && t !in s.tasks && r !in s.sweeps
    requires Work(cfg, limit, s.world, deeds).Some? && Timely(deeds, s.clock, to)
    ensures Reachable(cfg, end) && Some(end.world) == Work(cfg, limit, s.world, deeds)
    ensures end.tasks == s.tasks && end.sweeps == s.sweeps
  {
    hide ValidRun, Run, Inv;
    ReachableInv(cfg, s);
    var before :| ValidRun(cfg, Initial(), before) && Run(cfg, Initial(), before) == s;
    var run := WorkIsRun(cfg, s, limit, deeds, to, t, r);
    RunsCompose(cfg, Initial(), before, run);
    end := Run(cfg, s, run);
    assert ValidRun(cfg, Initial(), before + run) && Run(cfg, Initial(), before + run) == end;
  }
}
