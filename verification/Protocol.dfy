// The job-lease protocol as a state machine: uploads, the scanner, any number of
// handlers and reconcilers interleaved at every await, a clock, lost wake items and
// handlers that die. All handler and reconcile code is that of the sequential worker.

module Protocol {
  import opened Basics
  import opened Ids
  import opened Jobs
  import opened Queue
  import opened Ledger
  import opened Faults
  import opened Handler

  // History of a job: claims won, attempts ended by slot exhaustion, attempts whose
  // handler died before their history row was written, owning handlers that died at all.
  datatype Tally = Tally(claims: nat, exhausted: nat, cut: nat, deaths: nat)

  // `owner`, `slotOf` and `tally` are history variables: no step reads them.
  datatype State = State(
    world: World,
    tasks: map<nat, Pc>,            // live handlers, and uploads about to enqueue
    sweeps: map<nat, seq<Uuid>>,    // reconcilers and the candidates they still have to offer
    clock: nat,
    owner: map<Uuid, nat>,          // the handler between pop and acknowledge of an id
    slotOf: map<nat, nat>,          // the handler holding a slot
    tally: map<Uuid, Tally>)
  {
    function Rows(): map<Uuid, JobRecord> { world.ledger.rows }
  }

  function Initial(): State {
    State(World(Table([], map[]), Wake([], {}), {}, []), map[], map[], 0, map[], map[], map[])
  }

  datatype Action =
    | Upload(t: nat, job: JobRecord)
    | ReleaseScan(id: Uuid)
    | RejectScan(id: Uuid, reason: string)
    | Pop(t: nat)
    | Advance(t: nat, inp: Inputs)
    | Die(t: nat)
    | Sweep(r: nat, limit: nat)
    | Offer(r: nat)
    | Tick(d: nat)
    | LosePending(ids: set<Uuid>)
    | LoseProcessing(ids: set<Uuid>)

  // ----- what a handler owns -----

  // The id a handler popped and has not acknowledged.
  function Owned(pc: Pc): Option<Uuid> {
    match pc
    case Popped(id) => Some(id)
    case Working(claimed, _) => Some(claimed.Id())
    case InSlot(claimed, _, _) => Some(claimed.Id())
    case Saving(updated, _, _, _) => Some(updated.Id())
    case Recording(updated, _, _) => Some(updated.Id())
    case Acking(id, _, _) => Some(id)
    case _ => None
  }

  // The id a handler may still touch.
  function Named(pc: Pc): Option<Uuid> {
    if pc.Enqueueing? then Some(pc.id) else Owned(pc)
  }

  function SlotHeld(pc: Pc): Option<nat> {
    match pc
    case InSlot(_, taken, _) => Some(taken)
    case Saving(_, _, slot, _) => slot
    case Recording(_, _, slot) => slot
    case Acking(_, _, slot) => slot
    case Enqueueing(_, slot) => slot
    case Releasing(taken) => Some(taken)
    case _ => None
  }

  // The handler claimed its job and has yet to save it.
  predicate Unsaved(pc: Pc) {
    pc.Working? || pc.InSlot? || pc.Saving?
  }

  function Carried(pc: Pc): JobRecord
    requires Unsaved(pc)
  {
    if pc.Saving? then pc.updated else pc.claimed
  }

  // The handler's attempt is neither in the history nor ended by slot exhaustion.
  predicate Owes(pc: Pc) {
    pc.Working? || pc.InSlot? || (pc.Saving? && pc.attempt.Some?) || pc.Recording?
  }

  // ----- steps -----

  predicate FreshJob(job: JobRecord, now: nat) {
    job == NewJob(job.info.vendorId, job.info.jobId, job.info.objectKey, job.status.Quarantined?, job.info.originalFilename,
                  job.info.contentSha256, job.info.maxRetries, now)
  }

  ghost predicate Enabled(cfg: Config, s: State, a: Action) {
    match a
    case Upload(t, job) => t !in s.tasks && job.Id() !in s.Rows() && FreshJob(job, s.clock)
    case ReleaseScan(id) => id in s.Rows() && s.Rows()[id].status.Quarantined?
    case RejectScan(id, _) => id in s.Rows() && s.Rows()[id].status.Quarantined?
    case Pop(t) => t !in s.tasks && s.world.queue.pending != []
    case Advance(t, _) => t in s.tasks && PcOk(s.tasks[t])
    case Die(t) => t in s.tasks && !s.tasks[t].Releasing?
    case Sweep(r, _) => r !in s.sweeps && Listed(s.world.ledger)
    case Offer(r) => r in s.sweeps
    case Tick(_) => true
    case LosePending(_) => true
    case LoseProcessing(ids) => forall t :: t in s.tasks && Owned(s.tasks[t]).Some? ==> Owned(s.tasks[t]).value !in ids
  }

  function SetTask(tasks: map<nat, Pc>, t: nat, pc: Pc): map<nat, Pc> {
    if pc.Done? then tasks - {t} else tasks[t := pc]
  }

  // History: who owns which id and which slot once a task moved from `pc` to `pc'`.
  function OwnerAfter(owner: map<Uuid, nat>, pc: Pc, pc': Pc): map<Uuid, nat> {
    if Owned(pc).Some? && Owned(pc').None? then owner - {Owned(pc).value} else owner
  }

  function SlotOfAfter(slotOf: map<nat, nat>, t: nat, pc: Pc, pc': Pc): map<nat, nat> {
    if SlotHeld(pc).Some? && SlotHeld(pc').None? then slotOf - {SlotHeld(pc).value}
    else if SlotHeld(pc').Some? then slotOf[SlotHeld(pc').value := t]
    else slotOf
  }

  function Bump(tally: map<Uuid, Tally>, id: Uuid, claims: nat, exhausted: nat, cut: nat, deaths: nat): map<Uuid, Tally> {
    if id !in tally then tally
    else var c := tally[id];
         tally[id := Tally(c.claims + claims, c.exhausted + exhausted, c.cut + cut, c.deaths + deaths)]
  }

  function Moved(s: State, w: World, t: nat, pc': Pc, tally: map<Uuid, Tally>): State
    requires t in s.tasks
  {
    s.(world := w,
       tasks := SetTask(s.tasks, t, pc'),
       owner := OwnerAfter(s.owner, s.tasks[t], pc'),
       slotOf := SlotOfAfter(s.slotOf, t, s.tasks[t], pc'),
       tally := tally)
  }

  function ApplyAdvance(cfg: Config, s: State, t: nat, inp: Inputs): State
    requires t in s.tasks && PcOk(s.tasks[t])
  {
    var pc := s.tasks[t];
    var (w, pc') := HandlerStep(cfg, s.world, pc, s.clock, inp);
    var tally :=
      if pc.Popped? && pc'.Working? then Bump(s.tally, pc.id, 1, 0, 0, 0)
      else if pc.Working? && pc'.Saving? && pc'.attempt.None? then Bump(s.tally, pc.claimed.Id(), 0, 1, 0, 0)
      else if pc.InSlot? && pc'.Releasing? then Bump(s.tally, pc.claimed.Id(), 0, 0, 1, 1)
      else s.tally;
    Moved(s, w, t, pc', tally)
  }

  // A handler dies: the finally clause frees its slot, nothing else happens.
  function ApplyDie(s: State, t: nat): State
    requires t in s.tasks
  {
    var pc := s.tasks[t];
    Moved(s, s.world, t, Free(SlotHeld(pc)),
          if Owned(pc).Some? then Bump(s.tally, Owned(pc).value, 0, 0, if Owes(pc) then 1 else 0, 1) else s.tally)
  }

  function ApplyUpload(s: State, t: nat, job: JobRecord): State {
    s.(world := s.world.(ledger := Put(s.world.ledger, job)),
       tasks := if Claimable(job.status) then s.tasks[t := Enqueueing(job.Id(), None)] else s.tasks,
       tally := s.tally[job.Id() := Tally(0, 0, 0, 0)])
  }

  function SaveRow(s: State, job: JobRecord): State {
    s.(world := s.world.(ledger := Put(s.world.ledger, job)))
  }

  function ApplySweep(s: State, r: nat, limit: nat): State
    requires Listed(s.world.ledger)
  {
    var (ledger, candidates) := ListCandidates(s.world.ledger, s.clock, limit);
    s.(world := s.world.(ledger := ledger),
       sweeps := s.sweeps[r := seq(|candidates|, i requires 0 <= i < |candidates| => candidates[i].Id())])
  }

  function ApplyOffer(s: State, r: nat): State
    requires r in s.sweeps
  {
    var todo := s.sweeps[r];
    if todo == [] then s.(sweeps := s.sweeps - {r})
    else s.(world := s.world.(queue := RequeueIfMissing(s.world.queue, todo[0]).0), sweeps := s.sweeps[r := todo[1..]])
  }

  function ApplyPop(s: State, t: nat): State
    requires s.world.queue.pending != []
  {
    var (q, id) := PopWake(s.world.queue);
    s.(world := s.world.(queue := q), tasks := s.tasks[t := Popped(id.value)], owner := s.owner[id.value := t])
  }

  function Apply(cfg: Config, s: State, a: Action): State
    requires Enabled(cfg, s, a)
  {
    match a
    case Upload(t, job) => ApplyUpload(s, t, job)
    case ReleaseScan(id) => SaveRow(s, ReleaseQuarantine(s.Rows()[id], s.clock).job)
    case RejectScan(id, reason) => SaveRow(s, RejectQuarantine(s.Rows()[id], reason, s.clock).job)
    case Pop(t) => ApplyPop(s, t)
    case Advance(t, inp) => ApplyAdvance(cfg, s, t, inp)
    case Die(t) => ApplyDie(s, t)
    case Sweep(r, limit) => ApplySweep(s, r, limit)
    case Offer(r) => ApplyOffer(s, r)
    case Tick(d) => s.(clock := s.clock + d)
    case LosePending(ids) => s.(world := s.world.(queue := s.world.queue.(pending := Without(s.world.queue.pending, ids))))
    case LoseProcessing(ids) => s.(world := s.world.(queue := s.world.queue.(processing := s.world.queue.processing - ids)))
  }

  // Nothing holds the surroundings back, in any state: new jobs arrive and time passes, ..
  lemma JobsArrive(cfg: Config, s: State, t: nat, vendor: Uuid, id: Uuid, key: string, scan: bool, filename: Option<string>,
                   sha256: Option<string>, maxRetries: nat, d: nat)
    requires t !in s.tasks && id !in s.Rows()
    ensures Enabled(cfg, s, Upload(t, NewJob(vendor, id, key, scan, filename, sha256, maxRetries, s.clock)))
    ensures Enabled(cfg, s, Tick(d)) && Apply(cfg, s, Tick(d)) == s.(clock := s.clock + d)
  {
    hide Text;
  }

  // .. any live handler dies unless it is freeing its slot, which leaves ledger, queue, slots and
  // history as they are and at most the slot to be freed, ..
  lemma HandlersDie(cfg: Config, s: State, t: nat)
    requires t in s.tasks && !s.tasks[t].Releasing?
    ensures Enabled(cfg, s, Die(t)) && Apply(cfg, s, Die(t)).world == s.world
    ensures Apply(cfg, s, Die(t)).tasks
         == match SlotHeld(s.tasks[t]) case None => s.tasks - {t} case Some(slot) => s.tasks[t := Releasing(slot)]
  {
  }

  // .. and the queue loses pending ids, and processing ids that no live handler owns.
  lemma QueueLoses(cfg: Config, s: State, ids: set<Uuid>)
    requires forall t :: t in s.tasks && Owned(s.tasks[t]).Some? ==> Owned(s.tasks[t]).value !in ids
    ensures Enabled(cfg, s, LosePending(ids)) && Enabled(cfg, s, LoseProcessing(ids))
    ensures Apply(cfg, s, LosePending(ids)).world.queue == Wake(Without(s.world.queue.pending, ids), s.world.queue.processing)
    ensures Apply(cfg, s, LoseProcessing(ids)).world.queue == Wake(s.world.queue.pending, s.world.queue.processing - ids)
  {
  }

  // ----- the invariant -----

  // A row past admission: neither quarantined nor rejected.
  predicate Admitted(rows: map<Uuid, JobRecord>, id: Uuid) {
    id in rows && !rows[id].status.Quarantined? && !rows[id].status.Rejected?
  }

  // Each clause names the components it depends on, so that a step that leaves them
  // alone keeps it for free.

  ghost predicate NamesOk(rows: map<Uuid, JobRecord>, q: Wake, tasks: map<nat, Pc>, sweeps: map<nat, seq<Uuid>>) {
    && (forall x :: x in q.pending ==> Admitted(rows, x))
    && (forall x :: x in q.processing ==> Admitted(rows, x))
    && (forall t :: t in tasks && Named(tasks[t]).Some? ==> Admitted(rows, Named(tasks[t]).value))
    && (forall r, i :: r in sweeps && 0 <= i < |sweeps[r]| ==> Admitted(rows, sweeps[r][i]))
  }

  ghost predicate OwnersOk(tasks: map<nat, Pc>, owner: map<Uuid, nat>, processing: set<Uuid>) {
    && (forall t :: t in tasks && Owned(tasks[t]).Some? ==>
          Owned(tasks[t]).value in owner && owner[Owned(tasks[t]).value] == t)
    && (forall id :: id in owner ==> owner[id] in tasks && Owned(tasks[owner[id]]) == Some(id))
    && (forall id :: id in owner ==> id in processing)
  }

  ghost predicate SlotsOk(slots: nat, tasks: map<nat, Pc>, slotOf: map<nat, nat>, held: set<nat>) {
    && (forall t :: t in tasks && SlotHeld(tasks[t]).Some? ==>
          SlotHeld(tasks[t]).value in slotOf && slotOf[SlotHeld(tasks[t]).value] == t)
    && (forall k :: k in slotOf ==> slotOf[k] in tasks && SlotHeld(tasks[slotOf[k]]) == Some(k) && k < slots)
    && held == slotOf.Keys
  }

  // A handler's copy of the row, next to the row in the ledger. The lease may have
  // been released meanwhile, to RETRY or, with no attempt left, to DEAD_LETTER.
  predicate CopyOk(row: JobRecord, pc: Pc) {
    && (Unsaved(pc) ==>
         var rec := Carried(pc);
         && row.info == rec.info && row.attemptCount == rec.attemptCount && RowOk(rec)
         && (row.status.Running? || row.status.Retry? || row.status.DeadLetter?)
         && (row.status.DeadLetter? ==> row.attemptCount == row.info.maxRetries + 1))
    && (pc.Saving? ==>
         && (pc.updated.status.Succeeded? || pc.updated.status.Retry? || pc.updated.status.DeadLetter?)
         && (pc.attempt.Some? ==> pc.attempt.value.jobId == row.Id() && pc.attempt.value.attemptNumber == row.attemptCount))
    && (pc.Recording? ==> pc.entry.jobId == row.Id() && pc.entry.attemptNumber == row.attemptCount)
  }

  ghost predicate CopiesOk(rows: map<Uuid, JobRecord>, tasks: map<nat, Pc>) {
    && (forall t :: t in tasks ==> PcOk(tasks[t]) && !tasks[t].Done?)
    && (forall t :: t in tasks && Owned(tasks[t]).Some? && Owned(tasks[t]).value in rows ==>
          CopyOk(rows[Owned(tasks[t]).value], tasks[t]))
  }

  predicate SavesLater(tasks: map<nat, Pc>, owner: map<Uuid, nat>, id: Uuid) {
    id in owner && owner[id] in tasks && Unsaved(tasks[owner[id]])
  }

  predicate Open(tasks: map<nat, Pc>, owner: map<Uuid, nat>, id: Uuid) {
    id in owner && owner[id] in tasks && Owes(tasks[owner[id]])
  }

  // A RUNNING row has a handler that will save it, unless some handler of the job died.
  ghost predicate RunningOk(rows: map<Uuid, JobRecord>, tasks: map<nat, Pc>, owner: map<Uuid, nat>, tally: map<Uuid, Tally>) {
    forall j :: j in rows && rows[j].status.Running? ==> SavesLater(tasks, owner, j) || (j in tally && tally[j].deaths > 0)
  }

  predicate Increasing(ns: seq<nat>) {
    forall i, k :: 0 <= i < k < |ns| ==> ns[i] < ns[k]
  }

  // The accounts of one job: claims against attempts, attempts against history.
  predicate AccountOk(row: JobRecord, tally: Tally, numbers: seq<nat>, open: bool) {
    && tally.claims == row.attemptCount && tally.cut <= tally.deaths
    && row.attemptCount == |numbers| + tally.exhausted + tally.cut + (if open then 1 else 0)
    && Increasing(numbers)
    && (forall n :: n in numbers ==> 1 <= n <= row.attemptCount && (open ==> n < row.attemptCount))
  }

  ghost predicate AccountsOk(rows: map<Uuid, JobRecord>, attempts: seq<JobAttempt>, tasks: map<nat, Pc>,
                             owner: map<Uuid, nat>, tally: map<Uuid, Tally>) {
    && tally.Keys == rows.Keys
    && (forall j :: j in rows && j in tally ==>
          AccountOk(rows[j], tally[j], AttemptNumbers(attempts, j), Open(tasks, owner, j)))
    && (forall j :: j !in rows ==> AttemptNumbers(attempts, j) == [])
  }

  ghost predicate Inv(cfg: Config, s: State) {
    && TableOk(s.world.ledger)
    && WakeOk(s.world.queue)
    && NamesOk(s.world.ledger.rows, s.world.queue, s.tasks, s.sweeps)
    && OwnersOk(s.tasks, s.owner, s.world.queue.processing)
    && SlotsOk(cfg.slots, s.tasks, s.slotOf, s.world.held)
    && CopiesOk(s.world.ledger.rows, s.tasks)
    && RunningOk(s.world.ledger.rows, s.tasks, s.owner, s.tally)
    && AccountsOk(s.world.ledger.rows, s.world.attempts, s.tasks, s.owner, s.tally)
  }

  // ----- every step keeps the invariant -----

  lemma InitialInv(cfg: Config)
    ensures Inv(cfg, Initial())
  {
  }

  // ---- one task moves ----

  lemma OwnersMove(tasks: map<nat, Pc>, owner: map<Uuid, nat>, processing: set<Uuid>, t: nat, pc': Pc, processing': set<Uuid>)
    requires OwnersOk(tasks, owner, processing) && t in tasks
    requires Owned(pc') == Owned(tasks[t]) || Owned(pc').None?
    requires processing' == processing
             || (Owned(tasks[t]).Some? && Owned(pc').None? && processing' == processing - {Owned(tasks[t]).value})
    ensures OwnersOk(SetTask(tasks, t, pc'), OwnerAfter(owner, tasks[t], pc'), processing')
  {
  }

  lemma OwnersJoin(tasks: map<nat, Pc>, owner: map<Uuid, nat>, processing: set<Uuid>, t: nat, pc: Pc)
    requires OwnersOk(tasks, owner, processing) && t !in tasks
    requires Owned(pc).Some? ==> Owned(pc).value !in owner
    ensures if Owned(pc).Some? then OwnersOk(tasks[t := pc], owner[Owned(pc).value := t], processing + {Owned(pc).value})
            else OwnersOk(tasks[t := pc], owner, processing)
  {
  }

  lemma SlotsMove(slots: nat, tasks: map<nat, Pc>, slotOf: map<nat, nat>, held: set<nat>, t: nat, pc': Pc, held': set<nat>)
    requires SlotsOk(slots, tasks, slotOf, held) && t in tasks
    requires (SlotHeld(pc') == SlotHeld(tasks[t]) && held' == held)
             || (SlotHeld(tasks[t]).Some? && SlotHeld(pc').None? && held' == held - {SlotHeld(tasks[t]).value})
             || (SlotHeld(tasks[t]).None? && SlotHeld(pc').Some? && SlotHeld(pc').value !in held && SlotHeld(pc').value < slots
                 && held' == held + {SlotHeld(pc').value})
    ensures SlotsOk(slots, SetTask(tasks, t, pc'), SlotOfAfter(slotOf, t, tasks[t], pc'), held')
  {
  }

  lemma SlotsJoin(slots: nat, tasks: map<nat, Pc>, slotOf: map<nat, nat>, held: set<nat>, t: nat, pc: Pc)
    requires SlotsOk(slots, tasks, slotOf, held) && t !in tasks && SlotHeld(pc).None?
    ensures SlotsOk(slots, tasks[t := pc], slotOf, held)
  {
  }

  // Which attempts are open, and which rows are going to be saved, after the move.
  lemma OpenMove(tasks: map<nat, Pc>, owner: map<Uuid, nat>, processing: set<Uuid>, t: nat, pc': Pc, j: Uuid)
    requires OwnersOk(tasks, owner, processing) && t in tasks
    requires Owned(pc') == Owned(tasks[t]) || Owned(pc').None?
    ensures var (tasks', owner') := (SetTask(tasks, t, pc'), OwnerAfter(owner, tasks[t], pc'));
            if Owned(tasks[t]) == Some(j) then
              && Open(tasks, owner, j) == Owes(tasks[t]) && SavesLater(tasks, owner, j) == Unsaved(tasks[t])
              && Open(tasks', owner', j) == (Owes(pc') && Owned(pc').Some?)
              && SavesLater(tasks', owner', j) == (Unsaved(pc') && Owned(pc').Some?)
            else
              Open(tasks', owner', j) == Open(tasks, owner, j) && SavesLater(tasks', owner', j) == SavesLater(tasks, owner, j)
  {
  }

  lemma OpenJoin(tasks: map<nat, Pc>, owner: map<Uuid, nat>, processing: set<Uuid>, t: nat, pc: Pc, j: Uuid)
    requires OwnersOk(tasks, owner, processing) && t !in tasks && (pc.Popped? || pc.Enqueueing?)
    requires pc.Popped? ==> pc.id !in owner
    ensures var owner' := if pc.Popped? then owner[pc.id := t] else owner;
            Open(tasks[t := pc], owner', j) == Open(tasks, owner, j) && SavesLater(tasks[t := pc], owner', j) == SavesLater(tasks, owner, j)
  {
  }

  // No attempt opens or closes.
  ghost predicate SameHandlers(tasks: map<nat, Pc>, owner: map<Uuid, nat>, tasks': map<nat, Pc>, owner': map<Uuid, nat>) {
    forall j :: Open(tasks', owner', j) == Open(tasks, owner, j) && SavesLater(tasks', owner', j) == SavesLater(tasks, owner, j)
  }

  lemma JoinKeepsAccounts(s: State, t: nat, pc: Pc)
    requires OwnersOk(s.tasks, s.owner, s.world.queue.processing) && t !in s.tasks && (pc.Popped? || pc.Enqueueing?)
    requires pc.Popped? ==> pc.id !in s.owner
    requires RunningOk(s.world.ledger.rows, s.tasks, s.owner, s.tally)
    requires AccountsOk(s.world.ledger.rows, s.world.attempts, s.tasks, s.owner, s.tally)
    ensures var owner' := if pc.Popped? then s.owner[pc.id := t] else s.owner;
            && SameHandlers(s.tasks, s.owner, s.tasks[t := pc], owner')
            && RunningOk(s.world.ledger.rows, s.tasks[t := pc], owner', s.tally)
            && AccountsOk(s.world.ledger.rows, s.world.attempts, s.tasks[t := pc], owner', s.tally)
  {
    var owner' := if pc.Popped? then s.owner[pc.id := t] else s.owner;
    forall j
      ensures Open(s.tasks[t := pc], owner', j) == Open(s.tasks, s.owner, j)
      ensures SavesLater(s.tasks[t := pc], owner', j) == SavesLater(s.tasks, s.owner, j)
    {
      OpenJoin(s.tasks, s.owner, s.world.queue.processing, t, pc, j);
    }
  }

  lemma PopNames(rows: map<Uuid, JobRecord>, q: Wake, tasks: map<nat, Pc>, owner: map<Uuid, nat>, sweeps: map<nat, seq<Uuid>>, t: nat)
    requires NamesOk(rows, q, tasks, sweeps) && WakeOk(q) && q.pending != [] && t !in tasks
    requires OwnersOk(tasks, owner, q.processing) && CopiesOk(rows, tasks)
    ensures NamesOk(rows, PopWake(q).0, tasks[t := Popped(q.pending[0])], sweeps) && WakeOk(PopWake(q).0)
    ensures CopiesOk(rows, tasks[t := Popped(q.pending[0])])
    ensures q.pending[0] !in owner
  {
    assert q.pending[0] in q.pending;
  }

  lemma PopKeepsInv(cfg: Config, s: State, t: nat)
    requires Inv(cfg, s) && Enabled(cfg, s, Pop(t))
    ensures Inv(cfg, ApplyPop(s, t))
  {
    hide NamesOk, OwnersOk, SlotsOk, CopiesOk, RunningOk, AccountsOk, WakeOk;
    var pc := Popped(s.world.queue.pending[0]);
    PopNames(s.world.ledger.rows, s.world.queue, s.tasks, s.owner, s.sweeps, t);
    OwnersJoin(s.tasks, s.owner, s.world.queue.processing, t, pc);
    SlotsJoin(cfg.slots, s.tasks, s.slotOf, s.world.held, t, pc);
    JoinKeepsAccounts(s, t, pc);
  }

  lemma OfferNames(rows: map<Uuid, JobRecord>, q: Wake, tasks: map<nat, Pc>, sweeps: map<nat, seq<Uuid>>, r: nat)
    requires NamesOk(rows, q, tasks, sweeps) && WakeOk(q) && r in sweeps
    ensures NamesOk(rows, q, tasks, sweeps - {r})
    ensures sweeps[r] != [] ==>
              var q' := RequeueIfMissing(q, sweeps[r][0]).0;
              WakeOk(q') && q'.processing == q.processing && NamesOk(rows, q', tasks, sweeps[r := sweeps[r][1..]])
  {
    if sweeps[r] != [] {
      assert Admitted(rows, sweeps[r][0]);
    }
  }

  lemma OfferKeepsInv(cfg: Config, s: State, r: nat)
    requires Inv(cfg, s) && Enabled(cfg, s, Offer(r))
    ensures Inv(cfg, ApplyOffer(s, r))
  {
    hide NamesOk, OwnersOk, SlotsOk, CopiesOk, RunningOk, AccountsOk, TableOk, WakeOk;
    OfferNames(s.Rows(), s.world.queue, s.tasks, s.sweeps, r);
  }

  lemma LossKeepsInv(cfg: Config, s: State, a: Action)
    requires Inv(cfg, s) && Enabled(cfg, s, a) && (a.LosePending? || a.LoseProcessing? || a.Tick?)
    ensures Inv(cfg, Apply(cfg, s, a))
  {
    if a.LosePending? {
      WithoutNoDup(s.world.queue.pending, a.ids);
    }
  }

  // Reconcile and scanner steps change rows only like this.
  predicate RowsMove(rows: map<Uuid, JobRecord>, rows': map<Uuid, JobRecord>) {
    && rows.Keys <= rows'.Keys
    && (forall j :: j in rows ==>
         && rows[j].info == rows'[j].info && rows[j].attemptCount == rows'[j].attemptCount && rows[j].Id() == j
         && (Admitted(rows, j) ==> Admitted(rows', j))
         && (rows'[j] == rows[j]
             || rows[j].status.Quarantined?
             || (rows[j].status.Running? && rows'[j].status.Retry?)
             || (rows[j].status.Running? && rows'[j].status.DeadLetter? && rows[j].attemptCount == rows[j].info.maxRetries + 1))
         && (rows'[j].status.Running? ==> rows[j].status.Running?))
  }

  lemma RowsMoveKeeps(s: State, rows': map<Uuid, JobRecord>)
    requires RowsMove(s.world.ledger.rows, rows') && rows'.Keys == s.world.ledger.rows.Keys
    ensures NamesOk(s.world.ledger.rows, s.world.queue, s.tasks, s.sweeps) ==> NamesOk(rows', s.world.queue, s.tasks, s.sweeps)
    ensures CopiesOk(s.world.ledger.rows, s.tasks) ==> CopiesOk(rows', s.tasks)
    ensures RunningOk(s.world.ledger.rows, s.tasks, s.owner, s.tally) ==> RunningOk(rows', s.tasks, s.owner, s.tally)
    ensures AccountsOk(s.world.ledger.rows, s.world.attempts, s.tasks, s.owner, s.tally)
            ==> AccountsOk(rows', s.world.attempts, s.tasks, s.owner, s.tally)
  {
    hide NamesOk, CopiesOk, RunningOk, AccountsOk, RowsMove;
    RowsMoveNames(s.Rows(), rows', s.world.queue, s.tasks, s.sweeps);
    RowsMoveCopies(s.Rows(), rows', s.tasks);
    RowsMoveAccounts(s.Rows(), rows', s.world.attempts, s.tasks, s.owner, s.tally);
  }

  lemma RowsMoveNames(rows: map<Uuid, JobRecord>, rows': map<Uuid, JobRecord>, q: Wake, tasks: map<nat, Pc>, sweeps: map<nat, seq<Uuid>>)
    requires RowsMove(rows, rows')
    ensures NamesOk(rows, q, tasks, sweeps) ==> NamesOk(rows', q, tasks, sweeps)
  {
    assert forall j :: Admitted(rows, j) ==> Admitted(rows', j);
    hide RowsMove, Admitted;
  }

  lemma RowsMoveCopies(rows: map<Uuid, JobRecord>, rows': map<Uuid, JobRecord>, tasks: map<nat, Pc>)
    requires RowsMove(rows, rows') && rows'.Keys == rows.Keys
    ensures CopiesOk(rows, tasks) ==> CopiesOk(rows', tasks)
  {
    if CopiesOk(rows, tasks) {
      forall t | t in tasks && Owned(tasks[t]).Some? && Owned(tasks[t]).value in rows
        ensures CopyOk(rows'[Owned(tasks[t]).value], tasks[t])
      {
        CopyFollowsRow(rows[Owned(tasks[t]).value], rows'[Owned(tasks[t]).value], tasks[t]);
      }
    }
  }

  lemma CopyFollowsRow(row: JobRecord, row': JobRecord, pc: Pc)
    requires CopyOk(row, pc) && row.info == row'.info && row.attemptCount == row'.attemptCount
    requires row' == row || row.status.Quarantined? || (row.status.Running? && row'.status.Retry?)
             || (row.status.Running? && row'.status.DeadLetter? && row.attemptCount == row.info.maxRetries + 1)
    ensures CopyOk(row', pc)
  {
    hide RowOk;
  }

  lemma RowsMoveAccounts(rows: map<Uuid, JobRecord>, rows': map<Uuid, JobRecord>, attempts: seq<JobAttempt>, tasks: map<nat, Pc>,
                         owner: map<Uuid, nat>, tally: map<Uuid, Tally>)
    requires RowsMove(rows, rows') && rows'.Keys == rows.Keys
    ensures RunningOk(rows, tasks, owner, tally) ==> RunningOk(rows', tasks, owner, tally)
    ensures AccountsOk(rows, attempts, tasks, owner, tally) ==> AccountsOk(rows', attempts, tasks, owner, tally)
  {
    hide Open, SavesLater, Admitted;
  }

  lemma SweepRows(t: Table, now: nat, limit: nat)
    requires TableOk(t)
    ensures RowsMove(t.rows, ListCandidates(t, now, limit).0.rows)
  {
    CandidateFacts(t, now, limit);
    var rows' := ListCandidates(t, now, limit).0.rows;
    forall j | j in t.rows
      ensures rows'[j] == t.rows[j] || (LeaseExpired(t.rows[j], now) && rows'[j] == Touch(t.rows[j], now))
    {
      TouchKeepsRow(t.rows[j], now);
    }
  }

  lemma SweepNames(rows: map<Uuid, JobRecord>, q: Wake, tasks: map<nat, Pc>, sweeps: map<nat, seq<Uuid>>, r: nat, ids: seq<Uuid>)
    requires NamesOk(rows, q, tasks, sweeps) && forall i :: 0 <= i < |ids| ==> Admitted(rows, ids[i])
    ensures NamesOk(rows, q, tasks, sweeps[r := ids])
  {
  }

  lemma SweepKeepsInv(cfg: Config, s: State, r: nat, limit: nat)
    requires Inv(cfg, s) && Enabled(cfg, s, Sweep(r, limit))
    ensures Inv(cfg, ApplySweep(s, r, limit))
  {
    hide NamesOk, OwnersOk, SlotsOk, CopiesOk, RunningOk, AccountsOk;
    var s' := ApplySweep(s, r, limit);
    SweepRows(s.world.ledger, s.clock, limit);
    CandidateFacts(s.world.ledger, s.clock, limit);
    RowsMoveKeeps(s, s'.world.ledger.rows);
    SweepNames(s'.world.ledger.rows, s.world.queue, s.tasks, s.sweeps, r, s'.sweeps[r]);
  }

  lemma ScanKeepsInv(cfg: Config, s: State, job: JobRecord)
    requires Inv(cfg, s) && job.Id() in s.Rows() && RowOk(job)
    requires var row := s.Rows()[job.Id()]; row.status.Quarantined? && job.info == row.info && job.attemptCount == row.attemptCount
    requires !job.status.Running?
    ensures Inv(cfg, SaveRow(s, job))
  {
    hide NamesOk, OwnersOk, SlotsOk, CopiesOk, RunningOk, AccountsOk;
    assert RowsMove(s.world.ledger.rows, s.world.ledger.rows[job.Id() := job]);
    RowsMoveKeeps(s, s.world.ledger.rows[job.Id() := job]);
    PutKeepsTable(s.world.ledger, job);
  }

  lemma NamesGrow(rows: map<Uuid, JobRecord>, q: Wake, tasks: map<nat, Pc>, sweeps: map<nat, seq<Uuid>>, t: nat, job: JobRecord)
    requires NamesOk(rows, q, tasks, sweeps) && job.Id() !in rows && t !in tasks
    requires job.status.Accepted? || job.status.Quarantined?
    ensures NamesOk(rows[job.Id() := job], q, tasks, sweeps)
    ensures job.status.Accepted? ==> NamesOk(rows[job.Id() := job], q, tasks[t := Enqueueing(job.Id(), None)], sweeps)
  {
    var rows' := rows[job.Id() := job];
    assert forall j :: Admitted(rows, j) ==> Admitted(rows', j);
  }

  lemma CopiesGrow(rows: map<Uuid, JobRecord>, q: Wake, tasks: map<nat, Pc>, sweeps: map<nat, seq<Uuid>>, t: nat, job: JobRecord)
    requires NamesOk(rows, q, tasks, sweeps) && CopiesOk(rows, tasks) && job.Id() !in rows && t !in tasks
    ensures CopiesOk(rows[job.Id() := job], tasks)
    ensures CopiesOk(rows[job.Id() := job], tasks[t := Enqueueing(job.Id(), None)])
  {
    forall u | u in tasks && Owned(tasks[u]).Some?
      ensures Owned(tasks[u]).value in rows
    {
      assert Named(tasks[u]) == Owned(tasks[u]);
    }
  }

  lemma AccountsGrow(rows: map<Uuid, JobRecord>, attempts: seq<JobAttempt>, tasks: map<nat, Pc>, owner: map<Uuid, nat>,
                     tally: map<Uuid, Tally>, job: JobRecord)
    requires RunningOk(rows, tasks, owner, tally) && AccountsOk(rows, attempts, tasks, owner, tally)
    requires job.Id() !in rows && !job.status.Running? && job.attemptCount == 0 && !Open(tasks, owner, job.Id())
    ensures RunningOk(rows[job.Id() := job], tasks, owner, tally[job.Id() := Tally(0, 0, 0, 0)])
    ensures AccountsOk(rows[job.Id() := job], attempts, tasks, owner, tally[job.Id() := Tally(0, 0, 0, 0)])
  {
  }

  lemma FreshFacts(job: JobRecord, now: nat)
    requires FreshJob(job, now)
    ensures RowOk(job) && job.attemptCount == 0 && (job.status.Accepted? || job.status.Quarantined?)
  {
  }

  lemma OwnersAreRows(rows: map<Uuid, JobRecord>, q: Wake, tasks: map<nat, Pc>, sweeps: map<nat, seq<Uuid>>, owner: map<Uuid, nat>)
    requires NamesOk(rows, q, tasks, sweeps) && OwnersOk(tasks, owner, q.processing)
    ensures forall id :: id in owner ==> id in rows
  {
    forall id | id in owner
      ensures id in rows
    {
      assert Named(tasks[owner[id]]) == Some(id);
    }
  }

  lemma GrowKeepsInv(cfg: Config, s: State, t: nat, job: JobRecord)
    requires Inv(cfg, s) && t !in s.tasks && job.Id() !in s.Rows()
    requires RowOk(job) && job.attemptCount == 0 && (job.status.Accepted? || job.status.Quarantined?)
    ensures Inv(cfg, SaveRow(s, job).(tally := s.tally[job.Id() := Tally(0, 0, 0, 0)]))
  {
    hide NamesOk, OwnersOk, SlotsOk, CopiesOk, RunningOk, AccountsOk;
    OwnersAreRows(s.Rows(), s.world.queue, s.tasks, s.sweeps, s.owner);
    PutKeepsTable(s.world.ledger, job);
    NamesGrow(s.Rows(), s.world.queue, s.tasks, s.sweeps, t, job);
    CopiesGrow(s.Rows(), s.world.queue, s.tasks, s.sweeps, t, job);
    AccountsGrow(s.Rows(), s.world.attempts, s.tasks, s.owner, s.tally, job);
  }

  lemma AnnounceNames(rows: map<Uuid, JobRecord>, q: Wake, tasks: map<nat, Pc>, sweeps: map<nat, seq<Uuid>>, t: nat, id: Uuid)
    requires NamesOk(rows, q, tasks, sweeps) && CopiesOk(rows, tasks) && t !in tasks && Admitted(rows, id)
    ensures NamesOk(rows, q, tasks[t := Enqueueing(id, None)], sweeps)
    ensures CopiesOk(rows, tasks[t := Enqueueing(id, None)])
  {
  }

  lemma AnnounceKeepsInv(cfg: Config, s: State, t: nat, id: Uuid)
    requires Inv(cfg, s) && t !in s.tasks && Admitted(s.Rows(), id)
    ensures Inv(cfg, s.(tasks := s.tasks[t := Enqueueing(id, None)]))
  {
    hide NamesOk, OwnersOk, SlotsOk, CopiesOk, RunningOk, AccountsOk;
    var pc := Enqueueing(id, None);
    OwnersJoin(s.tasks, s.owner, s.world.queue.processing, t, pc);
    SlotsJoin(cfg.slots, s.tasks, s.slotOf, s.world.held, t, pc);
    JoinKeepsAccounts(s, t, pc);
    AnnounceNames(s.Rows(), s.world.queue, s.tasks, s.sweeps, t, id);
  }

  lemma UploadKeepsInv(cfg: Config, s: State, t: nat, job: JobRecord)
    requires Inv(cfg, s) && t !in s.tasks && job.Id() !in s.Rows()
    requires RowOk(job) && job.attemptCount == 0 && (job.status.Accepted? || job.status.Quarantined?)
    ensures Inv(cfg, ApplyUpload(s, t, job))
  {
    hide Inv;
    GrowKeepsInv(cfg, s, t, job);
    var s1 := SaveRow(s, job).(tally := s.tally[job.Id() := Tally(0, 0, 0, 0)]);
    if job.status.Accepted? {
      AnnounceKeepsInv(cfg, s1, t, job.Id());
    }
  }

  // ---- a handler advances or dies ----

  // The ledger changes at most at `id`.
  predicate OnlyRow(rows: map<Uuid, JobRecord>, rows': map<Uuid, JobRecord>, id: Uuid) {
    && rows'.Keys == rows.Keys
    && (forall j :: j in rows && j != id ==> rows'[j] == rows[j])
    && (Admitted(rows, id) ==> Admitted(rows', id))
  }

  lemma NamesMove(rows: map<Uuid, JobRecord>, rows': map<Uuid, JobRecord>, q: Wake, q': Wake, tasks: map<nat, Pc>,
                  sweeps: map<nat, seq<Uuid>>, t: nat, pc': Pc, id: Uuid)
    requires NamesOk(rows, q, tasks, sweeps) && t in tasks && Named(tasks[t]) == Some(id)
    requires Named(pc') == Some(id) || Named(pc').None?
    requires OnlyRow(rows, rows', id)
    requires forall x :: x in q'.pending ==> x in q.pending || x == id
    requires forall x :: x in q'.processing ==> x in q.processing
    ensures NamesOk(rows', q', SetTask(tasks, t, pc'), sweeps)
    ensures Admitted(rows', id)
  {
    assert Admitted(rows, id);
    assert forall j :: Admitted(rows, j) ==> Admitted(rows', j);
  }

  lemma CopiesMove(rows: map<Uuid, JobRecord>, rows': map<Uuid, JobRecord>, tasks: map<nat, Pc>, owner: map<Uuid, nat>,
                   processing: set<Uuid>, t: nat, pc': Pc, id: Uuid)
    requires CopiesOk(rows, tasks) && OwnersOk(tasks, owner, processing) && t in tasks && Owned(tasks[t]) == Some(id)
    requires OnlyRow(rows, rows', id) && id in rows
    requires PcOk(pc') && (Owned(pc').Some? ==> Owned(pc').value == id && CopyOk(rows'[id], pc'))
    ensures CopiesOk(rows', SetTask(tasks, t, pc'))
  {
    var tasks' := SetTask(tasks, t, pc');
    forall u | u in tasks' && Owned(tasks'[u]).Some? && Owned(tasks'[u]).value in rows'
      ensures CopyOk(rows'[Owned(tasks'[u]).value], tasks'[u])
    {
      if u != t {
        assert Owned(tasks[u]).value != id;
      }
    }
  }

  // Which attempts are open after task `t`, owner of `id`, moved to `pc'`.
  lemma OpenAfter(tasks: map<nat, Pc>, owner: map<Uuid, nat>, processing: set<Uuid>, t: nat, pc': Pc, id: Uuid)
    requires OwnersOk(tasks, owner, processing) && t in tasks && Owned(tasks[t]) == Some(id)
    requires Owned(pc') == Some(id) || Owned(pc').None?
    ensures var (tasks', owner') := (SetTask(tasks, t, pc'), OwnerAfter(owner, tasks[t], pc'));
            && Open(tasks', owner', id) == (Owes(pc') && Owned(pc').Some?)
            && SavesLater(tasks', owner', id) == (Unsaved(pc') && Owned(pc').Some?)
            && (forall j :: j != id ==> Open(tasks', owner', j) == Open(tasks, owner, j))
            && (forall j :: j != id ==> SavesLater(tasks', owner', j) == SavesLater(tasks, owner, j))
  {
    var tasks', owner' := SetTask(tasks, t, pc'), OwnerAfter(owner, tasks[t], pc');
    OpenMove(tasks, owner, processing, t, pc', id);
    forall j | j != id
      ensures Open(tasks', owner', j) == Open(tasks, owner, j) && SavesLater(tasks', owner', j) == SavesLater(tasks, owner, j)
    {
      OpenMove(tasks, owner, processing, t, pc', j);
    }
  }

  lemma AccountsMove(rows: map<Uuid, JobRecord>, attempts: seq<JobAttempt>, tasks: map<nat, Pc>, owner: map<Uuid, nat>,
                     tally: map<Uuid, Tally>, rows': map<Uuid, JobRecord>, attempts': seq<JobAttempt>, tasks': map<nat, Pc>,
                     owner': map<Uuid, nat>, tally': map<Uuid, Tally>, id: Uuid)
    requires AccountsOk(rows, attempts, tasks, owner, tally) && id in rows && OnlyRow(rows, rows', id)
    requires tally'.Keys == tally.Keys && forall j :: j in tally' && j != id ==> tally'[j] == tally[j]
    requires forall j :: j != id ==> AttemptNumbers(attempts', j) == AttemptNumbers(attempts, j)
    requires forall j :: j != id ==> Open(tasks', owner', j) == Open(tasks, owner, j)
    requires AccountOk(rows'[id], tally'[id], AttemptNumbers(attempts', id), Open(tasks', owner', id))
    ensures AccountsOk(rows', attempts', tasks', owner', tally')
  {
  }

  lemma RunningMove(rows: map<Uuid, JobRecord>, tasks: map<nat, Pc>, owner: map<Uuid, nat>, tally: map<Uuid, Tally>,
                    rows': map<Uuid, JobRecord>, tasks': map<nat, Pc>, owner': map<Uuid, nat>, tally': map<Uuid, Tally>, id: Uuid)
    requires RunningOk(rows, tasks, owner, tally) && id in rows && OnlyRow(rows, rows', id)
    requires tally'.Keys == tally.Keys && id in tally && forall j :: j in tally' && j != id ==> tally'[j] == tally[j]
    requires forall j :: j != id ==> SavesLater(tasks', owner', j) == SavesLater(tasks, owner, j)
    requires rows'[id].status.Running? ==> SavesLater(tasks', owner', id) || tally'[id].deaths > 0
    ensures RunningOk(rows', tasks', owner', tally')
  {
  }

  // What the owner `t` of `id` knows of it.
  ghost predicate OwnerFacts(s: State, t: nat, id: Uuid) {
    && t in s.tasks && Owned(s.tasks[t]) == Some(id)
    && Admitted(s.Rows(), id) && id in s.tally && id in s.world.queue.processing
    && CopyOk(s.Rows()[id], s.tasks[t]) && PcOk(s.tasks[t])
    && s.Rows()[id].Id() == id && RowOk(s.Rows()[id])
    && AccountOk(s.Rows()[id], s.tally[id], AttemptNumbers(s.world.attempts, id), Owes(s.tasks[t]))
    && (s.Rows()[id].status.Running? ==> Unsaved(s.tasks[t]) || s.tally[id].deaths > 0)
  }

  lemma OwnerKnows(cfg: Config, s: State, t: nat, id: Uuid)
    requires Inv(cfg, s) && t in s.tasks && Owned(s.tasks[t]) == Some(id)
    ensures OwnerFacts(s, t, id)
  {
    assert Named(s.tasks[t]) == Some(id);
    assert id in s.owner && s.owner[id] == t;
    assert Open(s.tasks, s.owner, id) == Owes(s.tasks[t]);
    assert SavesLater(s.tasks, s.owner, id) == Unsaved(s.tasks[t]);
  }

  // A move of the owner `t` to `pc'` that is good for the row, the copy, the slot and
  // the accounts of `id`, and touches nothing else.
  ghost predicate GoodMove(cfg: Config, s: State, w': World, t: nat, pc': Pc, tally': map<Uuid, Tally>, id: Uuid) {
    && t in s.tasks && id in s.Rows() && id in s.tally
    && (Named(pc') == Some(id) || Named(pc').None?)
    && OnlyRow(s.Rows(), w'.ledger.rows, id) && RowOk(w'.ledger.rows[id]) && w'.ledger.rows[id].Id() == id
    && w'.ledger.order == s.world.ledger.order
    && (w'.queue == s.world.queue || (Owned(pc').None? && w'.queue == Acknowledge(s.world.queue, id)))
    && PcOk(pc') && (Owned(pc').Some? ==> CopyOk(w'.ledger.rows[id], pc'))
    && ((SlotHeld(pc') == SlotHeld(s.tasks[t]) && w'.held == s.world.held)
        || (SlotHeld(s.tasks[t]).None? && SlotHeld(pc').Some? && SlotHeld(pc').value !in s.world.held
            && SlotHeld(pc').value < cfg.slots && w'.held == s.world.held + {SlotHeld(pc').value}))
    && tally'.Keys == s.tally.Keys && (forall j :: j in tally' && j != id ==> tally'[j] == s.tally[j])
    && (forall j :: j != id ==> AttemptNumbers(w'.attempts, j) == AttemptNumbers(s.world.attempts, j))
    && AccountOk(w'.ledger.rows[id], tally'[id], AttemptNumbers(w'.attempts, id), Owes(pc') && Owned(pc').Some?)
    && (w'.ledger.rows[id].status.Running? ==> (Unsaved(pc') && Owned(pc').Some?) || tally'[id].deaths > 0)
  }

  lemma OneRowTable(t: Table, t': Table, id: Uuid)
    requires TableOk(t) && OnlyRow(t.rows, t'.rows, id) && t'.order == t.order
    requires id in t'.rows ==> RowOk(t'.rows[id]) && t'.rows[id].Id() == id
    ensures TableOk(t')
  {
  }

  // A good move keeps the invariant.
  lemma MoveKeepsInv(cfg: Config, s: State, w': World, t: nat, pc': Pc, tally': map<Uuid, Tally>, id: Uuid)
    requires Inv(cfg, s) && OwnerFacts(s, t, id) && GoodMove(cfg, s, w', t, pc', tally', id)
    ensures Inv(cfg, Moved(s, w', t, pc', tally'))
  {
    hide NamesOk, OwnersOk, SlotsOk, CopiesOk, RunningOk, AccountsOk, TableOk, WakeOk;
    hide CopyOk, AccountOk, RowOk, OnlyRow, Admitted;
    assert Named(s.tasks[t]) == Some(id);
    AcknowledgeFacts(s.world.queue, id);
    OneRowTable(s.world.ledger, w'.ledger, id);
    NamesMove(s.Rows(), w'.ledger.rows, s.world.queue, w'.queue, s.tasks, s.sweeps, t, pc', id);
    OwnersMove(s.tasks, s.owner, s.world.queue.processing, t, pc', w'.queue.processing);
    SlotsMove(cfg.slots, s.tasks, s.slotOf, s.world.held, t, pc', w'.held);
    CopiesMove(s.Rows(), w'.ledger.rows, s.tasks, s.owner, s.world.queue.processing, t, pc', id);
    var tasks', owner' := SetTask(s.tasks, t, pc'), OwnerAfter(s.owner, s.tasks[t], pc');
    OpenAfter(s.tasks, s.owner, s.world.queue.processing, t, pc', id);
    AccountsMove(s.Rows(), s.world.attempts, s.tasks, s.owner, s.tally, w'.ledger.rows, w'.attempts, tasks', owner', tally', id);
    RunningMove(s.Rows(), s.tasks, s.owner, s.tally, w'.ledger.rows, tasks', owner', tally', id);
  }

  lemma PoppedIsGood(cfg: Config, s: State, t: nat, id: Uuid, inp: Inputs)
    requires OwnerFacts(s, t, id) && s.tasks[t].Popped?
    ensures var (w', pc') := HandlerStep(cfg, s.world, s.tasks[t], s.clock, inp);
            GoodMove(cfg, s, w', t, pc', if pc'.Working? then Bump(s.tally, id, 1, 0, 0, 0) else s.tally, id)
  {
    hide RowOk, GoodMove, Claim;
    if Claimable(s.Rows()[id].status) {
      ClaimIsGood(cfg, s, t, id);
    } else {
      IdleIsGood(cfg, s, t, id);
    }
  }

  lemma IdleIsGood(cfg: Config, s: State, t: nat, id: Uuid)
    requires OwnerFacts(s, t, id) && s.tasks[t].Popped? && !Claimable(s.Rows()[id].status)
    ensures GoodMove(cfg, s, s.world, t, Acking(id, false, None), s.tally, id)
  {
    hide RowOk;
  }

  lemma ClaimIsGood(cfg: Config, s: State, t: nat, id: Uuid)
    requires OwnerFacts(s, t, id) && s.tasks[t].Popped? && Claimable(s.Rows()[id].status)
    ensures var (ledger, claimed) := ClaimRow(s.world.ledger, id, cfg.owner, s.clock, cfg.leaseSeconds);
            GoodMove(cfg, s, s.world.(ledger := ledger), t, Working(claimed.value, s.clock), Bump(s.tally, id, 1, 0, 0, 0), id)
  {
    hide RowOk;
    ClaimFacts(s.Rows()[id], cfg.owner, s.clock, cfg.leaseSeconds);
  }

  lemma WorkingIsGood(cfg: Config, s: State, t: nat, id: Uuid, inp: Inputs)
    requires OwnerFacts(s, t, id) && s.tasks[t].Working?
    ensures var (w', pc') := AfterWork(cfg, s.world, s.tasks[t].claimed, s.clock, inp.outcome);
            GoodMove(cfg, s, w', t, pc', if pc'.Saving? && pc'.attempt.None? then Bump(s.tally, id, 0, 1, 0, 0) else s.tally, id)
  {
    hide GoodMove, OwnerFacts;
    if inp.outcome.Success? {
      EnteringIsGood(cfg, s, t, id);
    } else {
      FaultIsGood(cfg, s, t, id, inp.outcome);
    }
  }

  lemma FaultIsGood(cfg: Config, s: State, t: nat, id: Uuid, outcome: FaultOutcome)
    requires OwnerFacts(s, t, id) && s.tasks[t].Working? && !outcome.Success?
    ensures var (w', pc') := AfterWork(cfg, s.world, s.tasks[t].claimed, s.clock, outcome);
            pc'.Saving? && pc'.attempt.Some? && GoodMove(cfg, s, w', t, pc', s.tally, id)
  {
    hide RowOk, CompleteRetryableFailure, CompleteTerminalFailure;
    CompletionFacts(s.tasks[t].claimed, "injected timeout", s.clock);
    CompletionFacts(s.tasks[t].claimed, "injected failure", s.clock);
  }

  lemma EnteringIsGood(cfg: Config, s: State, t: nat, id: Uuid)
    requires OwnerFacts(s, t, id) && s.tasks[t].Working?
    ensures var (w', pc') := AfterWork(cfg, s.world, s.tasks[t].claimed, s.clock, Success);
            GoodMove(cfg, s, w', t, pc', if pc'.Saving? && pc'.attempt.None? then Bump(s.tally, id, 0, 1, 0, 0) else s.tally, id)
            && (pc'.Saving? ==> pc'.attempt.None?)
  {
    hide GoodMove, OwnerFacts;
    OwnerPcOk(s, t, id);
    match LeastFree(s.world.held, 0, cfg.slots)
    case None => ExhaustionIsGood(cfg, s, t, id);
    case Some(k) => SlotIsGood(cfg, s, t, id, k);
  }

  lemma ExhaustionIsGood(cfg: Config, s: State, t: nat, id: Uuid)
    requires OwnerFacts(s, t, id) && s.tasks[t].Working?
    ensures var updated := CompleteRetryableFailure(s.tasks[t].claimed, "inference capacity exhausted", s.clock).job;
            GoodMove(cfg, s, s.world, t, Saving(updated, None, None, s.clock), Bump(s.tally, id, 0, 1, 0, 0), id)
  {
    hide RowOk, CompleteRetryableFailure;
    CompletionFacts(s.tasks[t].claimed, "inference capacity exhausted", s.clock);
  }

  lemma SlotIsGood(cfg: Config, s: State, t: nat, id: Uuid, k: nat)
    requires OwnerFacts(s, t, id) && s.tasks[t].Working? && k < cfg.slots && k !in s.world.held
    ensures GoodMove(cfg, s, s.world.(held := s.world.held + {k}), t, InSlot(s.tasks[t].claimed, k, s.clock), s.tally, id)
  {
    hide RowOk;
  }

  lemma InSlotIsGood(cfg: Config, s: State, t: nat, id: Uuid, inp: Inputs)
    requires OwnerFacts(s, t, id) && s.tasks[t].InSlot?
    ensures var pc' := AfterInference(s.tasks[t].claimed, s.tasks[t].taken, s.clock, inp.stored, inp.reply);
            GoodMove(cfg, s, s.world, t, pc', if pc'.Releasing? then Bump(s.tally, id, 0, 0, 1, 1) else s.tally, id)
  {
    hide GoodMove, OwnerFacts, ResolvedRow, RowOk, CompleteSuccess, CompleteRetryableFailure, CompleteTerminalFailure;
    OwnerPcOk(s, t, id);
    var pc' := AfterInference(s.tasks[t].claimed, s.tasks[t].taken, s.clock, inp.stored, inp.reply);
    if pc'.Releasing? {
      EscapeIsGood(cfg, s, t, id);
    } else {
      match inp.reply {
        case Summary(text) => CompletionFacts(s.tasks[t].claimed, text, s.clock);
        case Error(_, message) => CompletionFacts(s.tasks[t].claimed, message, s.clock);
        case Escapes =>
      }
      AnyOutcome(s.tasks[t].claimed, pc'.updated);
      ReplyIsGood(cfg, s, t, id, pc');
    }
  }

  lemma AnyOutcome(claimed: JobRecord, updated: JobRecord)
    ensures ResolvedRow(claimed, updated, Timeout) || ResolvedRow(claimed, updated, Failure) ==> ResolvedRow(claimed, updated, Success)
  {
  }

  lemma EscapeIsGood(cfg: Config, s: State, t: nat, id: Uuid)
    requires OwnerFacts(s, t, id) && s.tasks[t].InSlot?
    ensures GoodMove(cfg, s, s.world, t, Releasing(s.tasks[t].taken), Bump(s.tally, id, 0, 0, 1, 1), id)
  {
    hide RowOk;
  }

  lemma ReplyIsGood(cfg: Config, s: State, t: nat, id: Uuid, pc': Pc)
    requires OwnerFacts(s, t, id) && s.tasks[t].InSlot?
    requires pc'.Saving? && pc'.slot == Some(s.tasks[t].taken) && ResolvedRow(s.tasks[t].claimed, pc'.updated, Success)
    requires pc'.attempt.Some? && pc'.attempt.value.jobId == s.tasks[t].claimed.Id()
    requires pc'.attempt.value.attemptNumber == s.tasks[t].claimed.attemptCount
    ensures GoodMove(cfg, s, s.world, t, pc', s.tally, id)
  {
    hide RowOk;
  }

  lemma SavingIsGood(cfg: Config, s: State, t: nat, id: Uuid, inp: Inputs)
    requires OwnerFacts(s, t, id) && s.tasks[t].Saving?
    ensures var (w', pc') := HandlerStep(cfg, s.world, s.tasks[t], s.clock, inp);
            GoodMove(cfg, s, w', t, pc', s.tally, id)
  {
  }

  lemma AccountRecorded(row: JobRecord, tally: Tally, numbers: seq<nat>)
    requires AccountOk(row, tally, numbers, true)
    ensures AccountOk(row, tally, numbers + [row.attemptCount], false)
  {
    var longer := numbers + [row.attemptCount];
    forall i, k | 0 <= i < k < |longer|
      ensures longer[i] < longer[k]
    {
      assert longer[i] == numbers[i] && numbers[i] in numbers;
    }
  }

  lemma RecordingIsGood(cfg: Config, s: State, t: nat, id: Uuid, inp: Inputs)
    requires OwnerFacts(s, t, id) && s.tasks[t].Recording?
    ensures var (w', pc') := HandlerStep(cfg, s.world, s.tasks[t], s.clock, inp);
            GoodMove(cfg, s, w', t, pc', s.tally, id)
  {
    var entry := s.tasks[t].entry;
    forall j
      ensures AttemptNumbers(s.world.attempts + [entry], j)
           == AttemptNumbers(s.world.attempts, j) + (if j == id then [entry.attemptNumber] else [])
    {
      AttemptNumbersAppend(s.world.attempts, entry, j);
    }
    AccountRecorded(s.Rows()[id], s.tally[id], AttemptNumbers(s.world.attempts, id));
  }

  lemma AckingIsGood(cfg: Config, s: State, t: nat, id: Uuid, inp: Inputs)
    requires OwnerFacts(s, t, id) && s.tasks[t].Acking?
    ensures var (w', pc') := HandlerStep(cfg, s.world, s.tasks[t], s.clock, inp);
            GoodMove(cfg, s, w', t, pc', s.tally, id)
  {
  }

  // A dead owner: its slot is freed, its open attempt is cut.
  lemma DeathIsGood(cfg: Config, s: State, t: nat, id: Uuid)
    requires OwnerFacts(s, t, id)
    ensures GoodMove(cfg, s, s.world, t, Free(SlotHeld(s.tasks[t])),
                     Bump(s.tally, id, 0, 0, if Owes(s.tasks[t]) then 1 else 0, 1), id)
  {
  }

  lemma OwnerPcOk(s: State, t: nat, id: Uuid)
    requires OwnerFacts(s, t, id)
    ensures t in s.tasks && PcOk(s.tasks[t])
  {
  }

  lemma OwnerStepKeepsInv(cfg: Config, s: State, t: nat, inp: Inputs)
    requires Inv(cfg, s) && t in s.tasks && Owned(s.tasks[t]).Some?
    ensures PcOk(s.tasks[t]) && Inv(cfg, ApplyAdvance(cfg, s, t, inp)) && Inv(cfg, ApplyDie(s, t))
  {
    hide Inv, GoodMove, OwnerFacts;
    var pc, id := s.tasks[t], Owned(s.tasks[t]).value;
    OwnerKnows(cfg, s, t, id);
    OwnerPcOk(s, t, id);
    var (w', pc') := HandlerStep(cfg, s.world, pc, s.clock, inp);
    var tally' := ApplyAdvance(cfg, s, t, inp).tally;
    assert GoodMove(cfg, s, w', t, pc', tally', id) by {
      match pc
      case Popped(_) => PoppedIsGood(cfg, s, t, id, inp);
      case Working(_, _) => WorkingIsGood(cfg, s, t, id, inp);
      case InSlot(_, _, _) => InSlotIsGood(cfg, s, t, id, inp);
      case Saving(_, _, _, _) => SavingIsGood(cfg, s, t, id, inp);
      case Recording(_, _, _) => RecordingIsGood(cfg, s, t, id, inp);
      case Acking(_, _, _) => AckingIsGood(cfg, s, t, id, inp);
    }
    MoveKeepsInv(cfg, s, w', t, pc', tally', id);
    DeathIsGood(cfg, s, t, id);
    MoveKeepsInv(cfg, s, s.world, t, Free(SlotHeld(pc)), ApplyDie(s, t).tally, id);
  }

  // ---- a task that owns nothing any more drops its last wake or its slot ----

  lemma LeaveNames(rows: map<Uuid, JobRecord>, q: Wake, q': Wake, tasks: map<nat, Pc>, sweeps: map<nat, seq<Uuid>>, t: nat, pc': Pc)
    requires NamesOk(rows, q, tasks, sweeps) && CopiesOk(rows, tasks) && t in tasks && Named(pc').None?
    requires q' == q || (tasks[t].Enqueueing? && q' == Enqueue(q, tasks[t].id))
    ensures NamesOk(rows, q', SetTask(tasks, t, pc'), sweeps) && CopiesOk(rows, SetTask(tasks, t, pc'))
  {
  }

  lemma LeaveAccounts(s: State, t: nat, pc': Pc)
    requires OwnersOk(s.tasks, s.owner, s.world.queue.processing) && t in s.tasks
    requires Owned(s.tasks[t]).None? && Owned(pc').None?
    requires RunningOk(s.world.ledger.rows, s.tasks, s.owner, s.tally)
    requires AccountsOk(s.world.ledger.rows, s.world.attempts, s.tasks, s.owner, s.tally)
    ensures RunningOk(s.world.ledger.rows, SetTask(s.tasks, t, pc'), s.owner, s.tally)
    ensures AccountsOk(s.world.ledger.rows, s.world.attempts, SetTask(s.tasks, t, pc'), s.owner, s.tally)
  {
    forall j
      ensures Open(SetTask(s.tasks, t, pc'), s.owner, j) == Open(s.tasks, s.owner, j)
      ensures SavesLater(SetTask(s.tasks, t, pc'), s.owner, j) == SavesLater(s.tasks, s.owner, j)
    {
      OpenMove(s.tasks, s.owner, s.world.queue.processing, t, pc', j);
    }
  }

  lemma LeaveKeepsInv(cfg: Config, s: State, w': World, t: nat, pc': Pc)
    requires Inv(cfg, s) && t in s.tasks && Owned(s.tasks[t]).None? && Named(pc').None?
    requires w'.ledger == s.world.ledger && w'.attempts == s.world.attempts
    requires w'.queue == s.world.queue || (s.tasks[t].Enqueueing? && w'.queue == Enqueue(s.world.queue, s.tasks[t].id))
    requires (SlotHeld(pc') == SlotHeld(s.tasks[t]) && w'.held == s.world.held)
             || (SlotHeld(s.tasks[t]).Some? && SlotHeld(pc').None? && w'.held == s.world.held - {SlotHeld(s.tasks[t]).value})
    ensures Inv(cfg, Moved(s, w', t, pc', s.tally))
  {
    hide NamesOk, OwnersOk, SlotsOk, CopiesOk, RunningOk, AccountsOk, TableOk;
    LeaveNames(s.Rows(), s.world.queue, w'.queue, s.tasks, s.sweeps, t, pc');
    OwnersMove(s.tasks, s.owner, s.world.queue.processing, t, pc', w'.queue.processing);
    SlotsMove(cfg.slots, s.tasks, s.slotOf, s.world.held, t, pc', w'.held);
    LeaveAccounts(s, t, pc');
  }

  lemma TailStepKeepsInv(cfg: Config, s: State, t: nat, inp: Inputs)
    requires Inv(cfg, s) && t in s.tasks && Owned(s.tasks[t]).None?
    ensures PcOk(s.tasks[t]) && Inv(cfg, ApplyAdvance(cfg, s, t, inp))
    ensures !s.tasks[t].Releasing? ==> Inv(cfg, ApplyDie(s, t))
  {
    hide NamesOk, OwnersOk, SlotsOk, RunningOk, AccountsOk, TableOk, WakeOk;
    var pc := s.tasks[t];
    var (w', pc') := HandlerStep(cfg, s.world, pc, s.clock, inp);
    LeaveKeepsInv(cfg, s, w', t, pc');
    if pc.Enqueueing? {
      LeaveKeepsInv(cfg, s, s.world, t, Free(pc.slot));
    }
  }

  // Every step of the protocol keeps the invariant.
  lemma StepKeepsInv(cfg: Config, s: State, a: Action)
    requires Inv(cfg, s) && Enabled(cfg, s, a)
    ensures Inv(cfg, Apply(cfg, s, a))
  {
    hide Inv, HandlerStep, ListCandidates, FreshJob;
    match a
    case Upload(t, job) =>
      FreshFacts(job, s.clock);
      UploadKeepsInv(cfg, s, t, job);
    case ReleaseScan(id) =>
      assert ApplyOp(s.Rows()[id], OpRelease, s.clock).Ok?;
      ScannerKeepsInv(cfg, s, id, ReleaseQuarantine(s.Rows()[id], s.clock).job);
    case RejectScan(id, reason) =>
      assert ApplyOp(s.Rows()[id], OpReject(reason), s.clock).Ok?;
      ScannerKeepsInv(cfg, s, id, RejectQuarantine(s.Rows()[id], reason, s.clock).job);
    case Pop(t) => PopKeepsInv(cfg, s, t);
    case Advance(t, inp) =>
      if Owned(s.tasks[t]).Some? {
        OwnerStepKeepsInv(cfg, s, t, inp);
      } else {
        TailStepKeepsInv(cfg, s, t, inp);
      }
    case Die(t) =>
      var inp := Inputs(Success, true, Escapes);
      if Owned(s.tasks[t]).Some? {
        OwnerStepKeepsInv(cfg, s, t, inp);
      } else {
        TailStepKeepsInv(cfg, s, t, inp);
      }
    case Sweep(r, limit) => SweepKeepsInv(cfg, s, r, limit);
    case Offer(r) => OfferKeepsInv(cfg, s, r);
    case Tick(_) => LossKeepsInv(cfg, s, a);
    case LosePending(_) => LossKeepsInv(cfg, s, a);
    case LoseProcessing(_) => LossKeepsInv(cfg, s, a);
  }

  lemma ScannerKeepsInv(cfg: Config, s: State, id: Uuid, job: JobRecord)
    requires Inv(cfg, s) && id in s.Rows() && s.Rows()[id].status.Quarantined?
    requires exists op: JobOp :: (op.OpRelease? || op.OpReject?) && ApplyOp(s.Rows()[id], op, s.clock) == Ok(job)
    ensures Inv(cfg, SaveRow(s, job))
  {
    assert s.Rows()[id].Id() == id && RowOk(s.Rows()[id]);
    ScanKeepsInv(cfg, s, job);
  }
}
