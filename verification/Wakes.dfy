// No wake is lost, job by job: in every run that does not lose the job's pending entry,
// kill or break a handler of the job, or release it from the scanner, the job stays
// queued or announced while it is claimable, and has a handler that will save it while
// it is RUNNING. What happens to other jobs does not matter.

module Wakes {
  import opened Basics
  import opened Ids
  import opened Jobs
  import opened Queue
  import opened Ledger
  import opened Handler
  import opened Protocol
  import opened Guarantees

  // Some task has decided to enqueue the job: an upload, or a handler after a RETRY.
  ghost predicate Announced(tasks: map<nat, Pc>, j: Uuid) {
    exists t :: t in tasks && tasks[t].Enqueueing? && tasks[t].id == j
  }

  ghost predicate WillWake(q: Wake, tasks: map<nat, Pc>, j: Uuid) {
    Holds(q, j) || Announced(tasks, j)
  }

  // What the owner of a job knows of its row past the save: nobody can claim it meanwhile.
  predicate SettledOk(row: JobRecord, pc: Pc) {
    && (pc.Recording? ==> row.status == pc.updated.status && (pc.updated.status.Retry? || Terminal(pc.updated.status)))
    && (pc.Acking? ==> if pc.again then row.status.Retry? else Terminal(row.status))
  }

  ghost predicate JobWoken(row: JobRecord, q: Wake, tasks: map<nat, Pc>, owner: map<Uuid, nat>, j: Uuid) {
    && (Claimable(row.status) ==> WillWake(q, tasks, j))
    && (row.status.Running? ==> SavesLater(tasks, owner, j))
    && (j in q.processing ==> j in owner)
    && (forall t :: t in tasks && Owned(tasks[t]) == Some(j) ==> SettledOk(row, tasks[t]))
  }

  ghost predicate Woken(s: State, j: Uuid) {
    j in s.Rows() ==> JobWoken(s.Rows()[j], s.world.queue, s.tasks, s.owner, j)
  }

  // The step does not harm this job.
  predicate Spares(s: State, a: Action, j: Uuid) {
    match a
    case Advance(t, inp) => t in s.tasks && s.tasks[t].InSlot? && Named(s.tasks[t]) == Some(j) ==> inp.stored && !inp.reply.Escapes?
    case Die(t) => t in s.tasks ==> Named(s.tasks[t]) != Some(j)
    case LosePending(ids) => j !in ids
    case ReleaseScan(id) => id != j
    case _ => true
  }

  // ----- another task moves -----

  lemma AnnouncedStays(tasks: map<nat, Pc>, t: nat, pc': Pc, j: Uuid)
    requires Announced(tasks, j) && (t in tasks ==> Named(tasks[t]) != Some(j))
    ensures Announced(SetTask(tasks, t, pc'), j)
  {
    var u :| u in tasks && tasks[u].Enqueueing? && tasks[u].id == j;
    assert SetTask(tasks, t, pc')[u] == tasks[u];
  }

  predicate QueueKeeps(q: Wake, q': Wake, j: Uuid) {
    (Holds(q, j) ==> Holds(q', j)) && (j in q'.processing ==> j in q.processing)
  }

  lemma OtherMoves(row: JobRecord, q: Wake, q': Wake, tasks: map<nat, Pc>, owner: map<Uuid, nat>, processing: set<Uuid>,
                   t: nat, pc': Pc, j: Uuid)
    requires JobWoken(row, q, tasks, owner, j) && OwnersOk(tasks, owner, processing) && t in tasks && QueueKeeps(q, q', j)
    requires Named(tasks[t]) != Some(j) && (Owned(pc') == Owned(tasks[t]) || Owned(pc').None?)
    ensures JobWoken(row, q', SetTask(tasks, t, pc'), OwnerAfter(owner, tasks[t], pc'), j)
  {
    hide SettledOk;
    OpenMove(tasks, owner, processing, t, pc', j);
    if Claimable(row.status) && !Holds(q, j) {
      AnnouncedStays(tasks, t, pc', j);
    }
  }

  lemma OtherAdvances(cfg: Config, s: State, t: nat, inp: Inputs, j: Uuid)
    requires Inv(cfg, s) && Woken(s, j) && t in s.tasks && PcOk(s.tasks[t]) && Named(s.tasks[t]) != Some(j)
    ensures Woken(ApplyAdvance(cfg, s, t, inp), j)
  {
    hide NamesOk, SlotsOk, CopiesOk, RunningOk, AccountsOk, TableOk, WakeOk, OwnersOk, OwnerFacts, HandlerStep, JobWoken;
    var pc := s.tasks[t];
    var (w', pc') := HandlerStep(cfg, s.world, pc, s.clock, inp);
    if Owned(pc).Some? {
      OwnerKnows(cfg, s, t, Owned(pc).value);
      OwnerMovesOnly(cfg, s, t, Owned(pc).value, inp);
      AcknowledgeFacts(s.world.queue, Owned(pc).value);
    } else {
      TailMovesOnly(cfg, s.world, pc, s.clock, inp);
    }
    if j in s.Rows() {
      OtherMoves(s.Rows()[j], s.world.queue, w'.queue, s.tasks, s.owner, s.world.queue.processing, t, pc', j);
    }
  }

  // The last steps of a task: the announced wake arrives, the slot is freed.
  lemma TailMovesOnly(cfg: Config, w: World, pc: Pc, now: nat, inp: Inputs)
    requires PcOk(pc) && Owned(pc).None?
    ensures var (w', pc') := HandlerStep(cfg, w, pc, now, inp);
            && w'.ledger == w.ledger && Named(pc').None?
            && w'.queue == if pc.Enqueueing? then Enqueue(w.queue, pc.id) else w.queue
  {
  }

  lemma OtherDies(cfg: Config, s: State, t: nat, j: Uuid)
    requires Inv(cfg, s) && Woken(s, j) && t in s.tasks && Named(s.tasks[t]) != Some(j)
    ensures Woken(ApplyDie(s, t), j)
  {
    hide NamesOk, SlotsOk, CopiesOk, RunningOk, AccountsOk, TableOk, WakeOk, OwnersOk, JobWoken;
    if j in s.Rows() {
      OtherMoves(s.Rows()[j], s.world.queue, s.world.queue, s.tasks, s.owner, s.world.queue.processing, t, Free(SlotHeld(s.tasks[t])), j);
    }
  }

  // ----- the owner of the job moves -----

  // A move that loses no wake of the owned job.
  predicate GentleMove(row': JobRecord, q': Wake, pc': Pc, j: Uuid) {
    && (Owned(pc') == Some(j) || Owned(pc').None?)
    && SettledOk(row', pc')
    && (Claimable(row'.status) ==> Holds(q', j) || (pc'.Enqueueing? && pc'.id == j))
    && (row'.status.Running? ==> Unsaved(pc') && Owned(pc').Some?)
    && (j in q'.processing ==> Owned(pc').Some?)
  }

  lemma OwnerMoves(row': JobRecord, q': Wake, tasks: map<nat, Pc>, owner: map<Uuid, nat>, processing: set<Uuid>, t: nat, pc': Pc, j: Uuid)
    requires OwnersOk(tasks, owner, processing) && t in tasks && Owned(tasks[t]) == Some(j)
    requires GentleMove(row', q', pc', j)
    ensures JobWoken(row', q', SetTask(tasks, t, pc'), OwnerAfter(owner, tasks[t], pc'), j)
  {
    hide SettledOk;
    var tasks' := SetTask(tasks, t, pc');
    OpenMove(tasks, owner, processing, t, pc', j);
    forall u | u in tasks' && Owned(tasks'[u]) == Some(j)
      ensures SettledOk(row', tasks'[u])
    {
      assert u == t;
    }
    if pc'.Enqueueing? && pc'.id == j {
      assert tasks'[t] == pc';
    }
  }

  lemma WorkIsGentle(cfg: Config, s: State, t: nat, j: Uuid, inp: Inputs)
    requires OwnerFacts(s, t, j) && Unsaved(s.tasks[t]) && !s.tasks[t].Saving?
    requires s.tasks[t].InSlot? ==> inp.stored && !inp.reply.Escapes?
    ensures var (w', pc') := HandlerStep(cfg, s.world, s.tasks[t], s.clock, inp);
            j in w'.ledger.rows && GentleMove(w'.ledger.rows[j], w'.queue, pc', j)
  {
    hide RowOk, AccountOk;
  }

  lemma RestIsGentle(cfg: Config, s: State, t: nat, j: Uuid, inp: Inputs)
    requires OwnerFacts(s, t, j) && WakeOk(s.world.queue) && SettledOk(s.Rows()[j], s.tasks[t])
    requires s.tasks[t].Saving? || (!Unsaved(s.tasks[t]) && !s.Rows()[j].status.Running?)
    ensures var (w', pc') := HandlerStep(cfg, s.world, s.tasks[t], s.clock, inp);
            j in w'.ledger.rows && GentleMove(w'.ledger.rows[j], w'.queue, pc', j)
  {
    hide WakeOk, AccountOk, RowOk;
    if s.tasks[t].Acking? {
      AcknowledgeFacts(s.world.queue, j);
    }
  }

  lemma OwnerRunning(s: State, t: nat, j: Uuid)
    requires OwnerFacts(s, t, j) && Woken(s, j) && OwnersOk(s.tasks, s.owner, s.world.queue.processing)
    ensures s.Rows()[j].status.Running? ==> Unsaved(s.tasks[t])
    ensures SettledOk(s.Rows()[j], s.tasks[t])
  {
  }

  lemma OwnerAdvances(cfg: Config, s: State, t: nat, inp: Inputs, j: Uuid)
    requires Inv(cfg, s) && Woken(s, j) && t in s.tasks && PcOk(s.tasks[t]) && Owned(s.tasks[t]) == Some(j)
    requires s.tasks[t].InSlot? ==> inp.stored && !inp.reply.Escapes?
    ensures Woken(ApplyAdvance(cfg, s, t, inp), j)
  {
    hide HandlerStep, GentleMove, OwnerFacts, CopiesOk, NamesOk, AccountsOk, SlotsOk, TableOk, WakeOk, JobWoken, OwnersOk, SettledOk;
    OwnerKnows(cfg, s, t, j);
    OwnerRunning(s, t, j);
    if Unsaved(s.tasks[t]) && !s.tasks[t].Saving? {
      WorkIsGentle(cfg, s, t, j, inp);
    } else {
      RestIsGentle(cfg, s, t, j, inp);
    }
    var (w', pc') := HandlerStep(cfg, s.world, s.tasks[t], s.clock, inp);
    OwnerMoves(w'.ledger.rows[j], w'.queue, s.tasks, s.owner, s.world.queue.processing, t, pc', j);
  }

  // The announced wake of the job arrives.
  lemma AnnouncerAdvances(cfg: Config, s: State, t: nat, inp: Inputs, j: Uuid)
    requires Inv(cfg, s) && Woken(s, j) && t in s.tasks && PcOk(s.tasks[t]) && s.tasks[t].Enqueueing? && s.tasks[t].id == j
    ensures Woken(ApplyAdvance(cfg, s, t, inp), j)
  {
    hide NamesOk, SlotsOk, CopiesOk, RunningOk, AccountsOk, TableOk, WakeOk, OwnersOk, SettledOk;
    OpenMove(s.tasks, s.owner, s.world.queue.processing, t, Free(s.tasks[t].slot), j);
  }

  // ----- a task joins -----

  lemma TaskJoins(row: JobRecord, q: Wake, q': Wake, tasks: map<nat, Pc>, owner: map<Uuid, nat>, processing: set<Uuid>, t: nat, pc: Pc, j: Uuid)
    requires JobWoken(row, q, tasks, owner, j) && OwnersOk(tasks, owner, processing) && t !in tasks
    requires pc.Popped? || pc.Enqueueing?
    requires pc.Popped? ==> pc.id !in owner
    requires Holds(q', j) <==> Holds(q, j)
    requires j in q'.processing ==> j in q.processing || (pc.Popped? && pc.id == j)
    ensures JobWoken(row, q', tasks[t := pc], if pc.Popped? then owner[pc.id := t] else owner, j)
  {
    OpenJoin(tasks, owner, processing, t, pc, j);
    if Claimable(row.status) && !Holds(q, j) {
      AnnouncedStays(tasks, t, pc, j);
    }
  }

  lemma PopWakes(cfg: Config, s: State, t: nat, j: Uuid)
    requires Inv(cfg, s) && Woken(s, j) && Enabled(cfg, s, Pop(t))
    ensures Woken(ApplyPop(s, t), j)
  {
    hide NamesOk, AccountsOk, SlotsOk, TableOk, RunningOk, CopiesOk, OwnersOk, JobWoken;
    PopNamesOwner(cfg, s);
    if j in s.Rows() {
      TaskJoins(s.Rows()[j], s.world.queue, PopWake(s.world.queue).0, s.tasks, s.owner, s.world.queue.processing, t,
                Popped(s.world.queue.pending[0]), j);
    }
  }

  lemma PopNamesOwner(cfg: Config, s: State)
    requires Inv(cfg, s) && s.world.queue.pending != []
    ensures s.world.queue.pending[0] !in s.owner
  {
    assert s.world.queue.pending[0] in s.world.queue.pending;
  }

  lemma UploadWakes(cfg: Config, s: State, t: nat, job: JobRecord, j: Uuid)
    requires Inv(cfg, s) && Woken(s, j) && t !in s.tasks && job.Id() !in s.Rows()
    requires job.status.Accepted? || job.status.Quarantined?
    ensures Woken(ApplyUpload(s, t, job), j)
  {
    hide AccountsOk, SlotsOk, TableOk, RunningOk, CopiesOk, JobWoken, OwnersOk;
    var pc := Enqueueing(job.Id(), None);
    if job.Id() == j {
      NewJobWoken(s, t, job);
    } else if j in s.Rows() && Claimable(job.status) {
      TaskJoins(s.Rows()[j], s.world.queue, s.world.queue, s.tasks, s.owner, s.world.queue.processing, t, pc, j);
    }
  }

  lemma NewJobWoken(s: State, t: nat, job: JobRecord)
    requires NamesOk(s.Rows(), s.world.queue, s.tasks, s.sweeps) && OwnersOk(s.tasks, s.owner, s.world.queue.processing)
    requires t !in s.tasks && job.Id() !in s.Rows() && (job.status.Accepted? || job.status.Quarantined?)
    ensures Woken(ApplyUpload(s, t, job), job.Id())
  {
    var s' := ApplyUpload(s, t, job);
    if job.status.Accepted? {
      assert s'.tasks[t] == Enqueueing(job.Id(), None);
    }
    forall u | u in s'.tasks && Owned(s'.tasks[u]).Some?
      ensures Owned(s'.tasks[u]) != Some(job.Id())
    {
      assert Named(s.tasks[u]) == Owned(s.tasks[u]);
    }
  }

  // ----- the row changes by expiry or by the scanner -----

  lemma RowMoves(row: JobRecord, row': JobRecord, q: Wake, tasks: map<nat, Pc>, owner: map<Uuid, nat>, j: Uuid)
    requires JobWoken(row, q, tasks, owner, j) && OwnersOk(tasks, owner, q.processing)
    requires row' == row || (row.status.Running? && (row'.status.Retry? || row'.status.DeadLetter?))
    ensures JobWoken(row', q, tasks, owner, j)
  {
  }

  lemma SweepWakes(cfg: Config, s: State, r: nat, limit: nat, j: Uuid)
    requires Inv(cfg, s) && Woken(s, j) && Enabled(cfg, s, Sweep(r, limit))
    ensures Woken(ApplySweep(s, r, limit), j)
  {
    hide NamesOk, AccountsOk, SlotsOk, RunningOk, CopiesOk, TableOk, OwnersOk, WakeOk, JobWoken, ListCandidates;
    CandidateFacts(s.world.ledger, s.clock, limit);
    if j in s.Rows() {
      RowMoves(s.Rows()[j], ApplySweep(s, r, limit).Rows()[j], s.world.queue, s.tasks, s.owner, j);
    }
  }

  lemma RejectWakes(cfg: Config, s: State, id: Uuid, reason: string, j: Uuid)
    requires Inv(cfg, s) && Woken(s, j) && Enabled(cfg, s, RejectScan(id, reason))
    ensures Woken(Apply(cfg, s, RejectScan(id, reason)), j)
  {
    hide AccountsOk, SlotsOk, RunningOk, CopiesOk, SavesLater, WillWake, RowOk;
    RowAt(s.world.ledger, id);
    NamedAdmitted(s.Rows(), s.world.queue, s.tasks, s.sweeps);
  }

  lemma ReleaseWakes(cfg: Config, s: State, id: Uuid, j: Uuid)
    requires Inv(cfg, s) && Woken(s, j) && Enabled(cfg, s, ReleaseScan(id)) && id != j
    ensures Woken(Apply(cfg, s, ReleaseScan(id)), j)
  {
    hide NamesOk, AccountsOk, SlotsOk, RunningOk, CopiesOk, OwnersOk, JobWoken;
    RowAt(s.world.ledger, id);
  }

  // ----- the queue changes -----

  // An entry in processing has a live handler here, so losing entries without one is harmless.
  lemma QueueStepWakes(cfg: Config, s: State, a: Action, j: Uuid)
    requires Inv(cfg, s) && Woken(s, j) && Enabled(cfg, s, a) && Spares(s, a, j)
    requires a.Offer? || a.Tick? || a.LosePending? || a.LoseProcessing?
    ensures Woken(Apply(cfg, s, a), j)
  {
    hide NamesOk, AccountsOk, SlotsOk, RunningOk, CopiesOk, TableOk, WakeOk, OwnersOk, JobWoken;
    var q, q' := s.world.queue, Apply(cfg, s, a).world.queue;
    if j in s.Rows() {
      LossKeepsOwned(cfg, s, a, j);
      QueueMoves(s.Rows()[j], q, q', s.tasks, s.owner, j);
    }
  }

  lemma QueueMoves(row: JobRecord, q: Wake, q': Wake, tasks: map<nat, Pc>, owner: map<Uuid, nat>, j: Uuid)
    requires JobWoken(row, q, tasks, owner, j) && QueueKeeps(q, q', j)
    ensures JobWoken(row, q', tasks, owner, j)
  {
    hide SettledOk, SavesLater;
  }

  lemma LossKeepsOwned(cfg: Config, s: State, a: Action, j: Uuid)
    requires Inv(cfg, s) && Woken(s, j) && j in s.Rows() && Enabled(cfg, s, a) && Spares(s, a, j)
    requires a.Offer? || a.Tick? || a.LosePending? || a.LoseProcessing?
    ensures QueueKeeps(s.world.queue, Apply(cfg, s, a).world.queue, j)
  {
    hide NamesOk, AccountsOk, SlotsOk, RunningOk, CopiesOk, TableOk, WakeOk, SettledOk, SavesLater;
  }

  // ----- every step, every run -----

  lemma StepKeepsWake(cfg: Config, s: State, a: Action, j: Uuid)
    requires Inv(cfg, s) && Woken(s, j) && Enabled(cfg, s, a) && Spares(s, a, j)
    ensures Woken(Apply(cfg, s, a), j)
  {
    hide Inv, Woken, FreshJob;
    match a
    case Upload(t, job) =>
      FreshFacts(job, s.clock);
      UploadWakes(cfg, s, t, job, j);
    case ReleaseScan(id) => ReleaseWakes(cfg, s, id, j);
    case RejectScan(id, reason) => RejectWakes(cfg, s, id, reason, j);
    case Pop(t) => PopWakes(cfg, s, t, j);
    case Advance(t, inp) =>
      if Named(s.tasks[t]) != Some(j) {
        OtherAdvances(cfg, s, t, inp, j);
      } else if Owned(s.tasks[t]).Some? {
        OwnerAdvances(cfg, s, t, inp, j);
      } else {
        AnnouncerAdvances(cfg, s, t, inp, j);
      }
    case Die(t) => OtherDies(cfg, s, t, j);
    case Sweep(r, limit) => SweepWakes(cfg, s, r, limit, j);
    case _ => QueueStepWakes(cfg, s, a, j);
  }

  ghost predicate RunSpares(cfg: Config, s: State, run: seq<Action>, j: Uuid)
    requires ValidRun(cfg, s, run)
    decreases |run|
  {
    run == [] || (Spares(s, run[0], j) && RunSpares(cfg, Apply(cfg, s, run[0]), run[1..], j))
  }

  predicate AtRest(s: State) {
    s.tasks == map[] && s.world.queue.pending == []
  }

  // Over any run that spares the job, from a state that had not lost its wake, it is not
  // lost: a claimable job is pending, in processing or about to be enqueued, a RUNNING one
  // has a handler that will save it, and its processing entry has a live handler. So once
  // nothing is live and nothing pends the job is quarantined or terminal.
  lemma {:induction false} NoLostWake(cfg: Config, s: State, run: seq<Action>, j: Uuid)
    requires Inv(cfg, s) && Woken(s, j) && ValidRun(cfg, s, run) && RunSpares(cfg, s, run, j)
    ensures var end := Run(cfg, s, run);
            && Woken(end, j)
            && (AtRest(end) && j in end.Rows() ==> end.Rows()[j].status.Quarantined? || Terminal(end.Rows()[j].status))
    decreases |run|
  {
    hide Inv, Enabled, Apply, Woken, Spares;
    if run == [] {
      if AtRest(s) && j in s.Rows() {
        RestIsSettled(cfg, s, j);
      }
    } else {
      StepKeepsWake(cfg, s, run[0], j);
      StepKeepsInv(cfg, s, run[0]);
      NoLostWake(cfg, Apply(cfg, s, run[0]), run[1..], j);
    }
  }

  lemma RestIsSettled(cfg: Config, s: State, j: Uuid)
    requires Inv(cfg, s) && Woken(s, j) && AtRest(s) && j in s.Rows()
    ensures s.Rows()[j].status.Quarantined? || Terminal(s.Rows()[j].status)
  {
    hide NamesOk, AccountsOk, SlotsOk, RunningOk, CopiesOk, TableOk, WakeOk;
  }

  // A job that was never uploaded has lost nothing.
  lemma InitialWoken(j: Uuid)
    ensures Woken(Initial(), j)
  {
  }
}
