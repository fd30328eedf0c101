// What the protocol guarantees over whole runs, whatever is interleaved, lost or late.

module Guarantees {
  import opened Basics
  import opened Ids
  import opened Jobs
  import opened Queue
  import opened Ledger
  import opened Handler
  import opened Protocol

  // ----- runs -----

  ghost predicate ValidRun(cfg: Config, s: State, run: seq<Action>)
    decreases |run|
  {
    run == [] || (Enabled(cfg, s, run[0]) && ValidRun(cfg, Apply(cfg, s, run[0]), run[1..]))
  }

  ghost function Run(cfg: Config, s: State, run: seq<Action>): State
    requires ValidRun(cfg, s, run)
    decreases |run|
  {
    if run == [] then s else Run(cfg, Apply(cfg, s, run[0]), run[1..])
  }

  lemma {:induction false} RunsKeepInv(cfg: Config, s: State, run: seq<Action>)
    requires Inv(cfg, s) && ValidRun(cfg, s, run)
    ensures Inv(cfg, Run(cfg, s, run))
    decreases |run|
  {
    if run != [] {
      StepKeepsInv(cfg, s, run[0]);
      RunsKeepInv(cfg, Apply(cfg, s, run[0]), run[1..]);
    }
  }

  lemma {:induction false} RunsCompose(cfg: Config, s: State, first: seq<Action>, second: seq<Action>)
    requires ValidRun(cfg, s, first) && ValidRun(cfg, Run(cfg, s, first), second)
    ensures ValidRun(cfg, s, first + second)
    ensures Run(cfg, s, first + second) == Run(cfg, Run(cfg, s, first), second)
    decreases |first|
  {
    hide Enabled, Apply;
    if first == [] {
      assert first + second == second;
    } else {
      RunsCompose(cfg, Apply(cfg, s, first[0]), first[1..], second);
      assert (first + second)[1..] == first[1..] + second;
    }
  }

  // ----- what one step can do to a row -----

  predicate TableEdge(before: JobRecord, after: JobRecord) {
    && Allowed(before.status, after.status)
    && after.attemptCount == before.attemptCount + (if after.status.Running? then 1 else 0)
  }

  // A handler saves after the reconciler released its lease: these moves are not in the table.
  predicate LateSave(before: JobRecord, after: JobRecord) {
    && (before.status.Retry? || before.status.DeadLetter?)
    && (after.status.Succeeded? || after.status.DeadLetter? || (after.status.Retry? && before.status.Retry?))
    && after.attemptCount == before.attemptCount
  }

  predicate RowStep(before: JobRecord, after: JobRecord) {
    after == before || (after.info == before.info && (TableEdge(before, after) || LateSave(before, after)))
  }

  lemma ClaimRowStep(cfg: Config, s: State, t: nat, id: Uuid, inp: Inputs)
    requires OwnerFacts(s, t, id) && s.tasks[t].Popped?
    ensures var w' := HandlerStep(cfg, s.world, s.tasks[t], s.clock, inp).0;
            OnlyRow(s.Rows(), w'.ledger.rows, id) && RowStep(s.Rows()[id], w'.ledger.rows[id])
  {
  }

  lemma SaveRowStep(cfg: Config, s: State, t: nat, id: Uuid, inp: Inputs)
    requires OwnerFacts(s, t, id) && s.tasks[t].Saving?
    ensures var w' := HandlerStep(cfg, s.world, s.tasks[t], s.clock, inp).0;
            OnlyRow(s.Rows(), w'.ledger.rows, id) && RowStep(s.Rows()[id], w'.ledger.rows[id])
  {
  }

  lemma OtherStepsKeepLedger(cfg: Config, w: World, pc: Pc, now: nat, inp: Inputs)
    requires PcOk(pc) && !pc.Popped? && !pc.Saving?
    ensures HandlerStep(cfg, w, pc, now, inp).0.ledger == w.ledger
  {
  }

  lemma AdvanceRows(cfg: Config, s: State, t: nat, inp: Inputs, j: Uuid)
    requires Inv(cfg, s) && t in s.tasks && PcOk(s.tasks[t]) && j in s.Rows()
    ensures var s' := ApplyAdvance(cfg, s, t, inp); j in s'.Rows() && RowStep(s.Rows()[j], s'.Rows()[j])
  {
    hide Inv, OwnerFacts, HandlerStep, TableEdge, LateSave;
    if s.tasks[t].Popped? {
      OwnerKnows(cfg, s, t, s.tasks[t].id);
      ClaimRowStep(cfg, s, t, s.tasks[t].id, inp);
    } else if s.tasks[t].Saving? {
      OwnerKnows(cfg, s, t, s.tasks[t].updated.Id());
      SaveRowStep(cfg, s, t, s.tasks[t].updated.Id(), inp);
    } else {
      OtherStepsKeepLedger(cfg, s.world, s.tasks[t], s.clock, inp);
    }
  }

  // Any step in any run changes a row along an edge of the table or by a late save.
  lemma StepRows(cfg: Config, s: State, a: Action, j: Uuid)
    requires Inv(cfg, s) && Enabled(cfg, s, a) && j in s.Rows()
    ensures j in Apply(cfg, s, a).Rows() && RowStep(s.Rows()[j], Apply(cfg, s, a).Rows()[j])
  {
    hide Inv, ListCandidates;
    if a.Advance? {
      AdvanceRows(cfg, s, a.t, a.inp, j);
    } else {
      InvLedger(cfg, s);
      OtherRows(cfg, s, a, j);
    }
  }

  lemma OtherRows(cfg: Config, s: State, a: Action, j: Uuid)
    requires TableOk(s.world.ledger) && Enabled(cfg, s, a) && !a.Advance? && j in s.Rows()
    ensures j in Apply(cfg, s, a).Rows() && RowStep(s.Rows()[j], Apply(cfg, s, a).Rows()[j])
  {
    hide TableOk, RowOk, ListCandidates, Touch;
    if a.Sweep? {
      SweepRowStep(s.world.ledger, s.clock, a.limit, j);
    } else if a.ReleaseScan? || a.RejectScan? {
      RowAt(s.world.ledger, a.id);
    }
  }

  lemma SweepRowStep(t: Table, now: nat, limit: nat, j: Uuid)
    requires TableOk(t) && j in t.rows
    ensures var t' := ListCandidates(t, now, limit).0; j in t'.rows && RowStep(t.rows[j], t'.rows[j])
  {
    hide ListCandidates, RowOk;
    CandidateFacts(t, now, limit);
    assert RowOk(t.rows[j]);
    TouchKeepsRow(t.rows[j], now);
  }

  // The moves open to a terminal row.
  predicate TerminalStep(before: JobRecord, after: JobRecord) {
    && Terminal(after.status) && after.attemptCount == before.attemptCount
    && (after.status == before.status || (before.status.DeadLetter? && after.status.Succeeded?))
    && (!before.status.DeadLetter? ==> after == before)
  }

  lemma TerminalRowStep(before: JobRecord, after: JobRecord)
    requires RowStep(before, after) && Terminal(before.status)
    ensures TerminalStep(before, after)
  {
  }

  // Terminal stays terminal, late saves included: once SUCCEEDED, REJECTED or
  // DEAD_LETTER a job never leaves these, and the only change of status among them is
  // DEAD_LETTER to SUCCEEDED; SUCCEEDED and REJECTED rows are frozen altogether.
  lemma {:induction false} TerminalForever(cfg: Config, s: State, run: seq<Action>, j: Uuid)
    requires Inv(cfg, s) && ValidRun(cfg, s, run)
    requires j in s.Rows() && Terminal(s.Rows()[j].status)
    ensures var end := Run(cfg, s, run);
            j in end.Rows() && TerminalStep(s.Rows()[j], end.Rows()[j])
    decreases |run|
  {
    hide Inv, Enabled, Apply, RowStep;
    if run != [] {
      StepRows(cfg, s, run[0], j);
      TerminalRowStep(s.Rows()[j], Apply(cfg, s, run[0]).Rows()[j]);
      StepKeepsInv(cfg, s, run[0]);
      TerminalForever(cfg, Apply(cfg, s, run[0]), run[1..], j);
    }
  }

  // The attempt ceiling over whole runs: every claim ever won is counted by the row,
  // the count never decreases and never passes max_retries + 1, and a claimable row
  // has an attempt left, although the claim itself checks no ceiling.
  lemma {:induction false} AttemptCeiling(cfg: Config, s: State, run: seq<Action>, j: Uuid)
    requires Inv(cfg, s) && ValidRun(cfg, s, run) && j in s.Rows()
    ensures var end := Run(cfg, s, run);
            && j in end.Rows() && j in end.tally
            && end.tally[j].claims == end.Rows()[j].attemptCount <= end.Rows()[j].info.maxRetries + 1
            && s.Rows()[j].attemptCount <= end.Rows()[j].attemptCount
            && end.Rows()[j].info == s.Rows()[j].info
            && end.Rows()[j].AttemptsRemaining() == end.Rows()[j].info.maxRetries + 1 - end.Rows()[j].attemptCount
            && (Claimable(end.Rows()[j].status) ==> end.Rows()[j].attemptCount <= end.Rows()[j].info.maxRetries)
    decreases |run|
  {
    hide Inv, Enabled, Apply;
    if run != [] {
      StepRows(cfg, s, run[0], j);
      StepKeepsInv(cfg, s, run[0]);
      AttemptCeiling(cfg, Apply(cfg, s, run[0]), run[1..], j);
    } else {
      CeilingHolds(cfg, s, j);
    }
  }

  lemma CeilingHolds(cfg: Config, s: State, j: Uuid)
    requires Inv(cfg, s) && j in s.Rows()
    ensures j in s.tally && s.tally[j].claims == s.Rows()[j].attemptCount <= s.Rows()[j].info.maxRetries + 1
    ensures Claimable(s.Rows()[j].status) ==> s.Rows()[j].attemptCount <= s.Rows()[j].info.maxRetries
  {
    hide NamesOk, OwnersOk, SlotsOk, CopiesOk, RunningOk, WakeOk;
    assert AccountOk(s.Rows()[j], s.tally[j], AttemptNumbers(s.world.attempts, j), Open(s.tasks, s.owner, j));
  }

  // ----- what every reachable state satisfies -----

  ghost predicate Reachable(cfg: Config, s: State) {
    exists run :: ValidRun(cfg, Initial(), run) && Run(cfg, Initial(), run) == s
  }

  lemma ReachableInv(cfg: Config, s: State)
    requires Reachable(cfg, s)
    ensures Inv(cfg, s)
  {
    var run :| ValidRun(cfg, Initial(), run) && Run(cfg, Initial(), run) == s;
    InitialInv(cfg);
    RunsKeepInv(cfg, Initial(), run);
  }

  // Wake exclusion: pending ids are distinct and not in processing; two handlers never
  // own, let alone save, the same job; what a handler owns is in processing; a RUNNING
  // row has exactly one handler that will save it unless a handler of the job died; and
  // every id that is queued or handled names a row that is neither quarantined nor rejected.
  lemma WakeExclusion(cfg: Config, s: State)
    requires Reachable(cfg, s)
    ensures WakeOk(s.world.queue)
    ensures forall t, u :: t in s.tasks && u in s.tasks && t != u && Owned(s.tasks[t]).Some? ==> Owned(s.tasks[t]) != Owned(s.tasks[u])
    ensures forall t :: t in s.tasks && Owned(s.tasks[t]).Some? ==> Owned(s.tasks[t]).value in s.world.queue.processing
    ensures forall j :: j in s.Rows() && s.Rows()[j].status.Running? ==>
              j in s.tally && (s.tally[j].deaths > 0 || exists t :: t in s.tasks && Unsaved(s.tasks[t]) && Owned(s.tasks[t]) == Some(j))
    ensures forall x :: Holds(s.world.queue, x) ==> Admitted(s.Rows(), x)
    ensures forall t :: t in s.tasks && Owned(s.tasks[t]).Some? ==> Admitted(s.Rows(), Owned(s.tasks[t]).value)
  {
    hide NamesOk, OwnersOk, SlotsOk, CopiesOk, RunningOk, AccountsOk, TableOk, WakeOk, Reachable, Admitted, SavesLater;
    ReachableInv(cfg, s);
    NamedAdmitted(s.Rows(), s.world.queue, s.tasks, s.sweeps);
    OwnersApart(s.tasks, s.owner, s.world.queue.processing);
    TalliesKnown(s);
    forall j | j in s.Rows() && s.Rows()[j].status.Running?
      ensures j in s.tally && (s.tally[j].deaths > 0 || exists t :: t in s.tasks && Unsaved(s.tasks[t]) && Owned(s.tasks[t]) == Some(j))
    {
      if SavesLater(s.tasks, s.owner, j) {
        SaverOwns(s.tasks, s.owner, s.world.queue.processing, j);
      }
    }
  }

  lemma NamedAdmitted(rows: map<Uuid, JobRecord>, q: Wake, tasks: map<nat, Pc>, sweeps: map<nat, seq<Uuid>>)
    requires NamesOk(rows, q, tasks, sweeps)
    ensures forall x :: Holds(q, x) ==> Admitted(rows, x)
    ensures forall t :: t in tasks && Owned(tasks[t]).Some? ==> Admitted(rows, Owned(tasks[t]).value)
  {
    forall t | t in tasks && Owned(tasks[t]).Some?
      ensures Admitted(rows, Owned(tasks[t]).value)
    {
      assert Named(tasks[t]) == Owned(tasks[t]);
    }
  }

  lemma OwnersApart(tasks: map<nat, Pc>, owner: map<Uuid, nat>, processing: set<Uuid>)
    requires OwnersOk(tasks, owner, processing)
    ensures forall t, u :: t in tasks && u in tasks && t != u && Owned(tasks[t]).Some? ==> Owned(tasks[t]) != Owned(tasks[u])
    ensures forall t :: t in tasks && Owned(tasks[t]).Some? ==> Owned(tasks[t]).value in processing
  {
  }

  lemma SaverOwns(tasks: map<nat, Pc>, owner: map<Uuid, nat>, processing: set<Uuid>, j: Uuid)
    requires OwnersOk(tasks, owner, processing) && SavesLater(tasks, owner, j)
    ensures exists t :: t in tasks && Unsaved(tasks[t]) && Owned(tasks[t]) == Some(j)
  {
    var t := owner[j];
    assert t in tasks && Unsaved(tasks[t]) && Owned(tasks[t]) == Some(j);
  }

  lemma TalliesKnown(s: State)
    requires RunningOk(s.Rows(), s.tasks, s.owner, s.tally) && AccountsOk(s.Rows(), s.world.attempts, s.tasks, s.owner, s.tally)
    ensures s.tally.Keys == s.Rows().Keys
    ensures forall j :: j in s.Rows() && s.Rows()[j].status.Running? ==> SavesLater(s.tasks, s.owner, j) || s.tally[j].deaths > 0
  {
  }

  // Attempt history: the recorded attempt numbers of a job strictly increase and stay
  // within its attempts (the unique constraint never fires), and once no handler has an
  // attempt of it open, every attempt is recorded, ended by slot exhaustion, or cut off
  // by a death. Without deaths the last kind is empty.
  lemma HistoryConservation(cfg: Config, s: State, j: Uuid)
    requires Reachable(cfg, s) && j in s.Rows()
    ensures j in s.tally
    ensures var numbers := AttemptNumbers(s.world.attempts, j);
            && Increasing(numbers)
            && (forall n :: n in numbers ==> 1 <= n <= s.Rows()[j].attemptCount)
            && ((forall t :: t in s.tasks && Owned(s.tasks[t]) == Some(j) ==> !Owes(s.tasks[t])) ==>
                 s.Rows()[j].attemptCount == |numbers| + s.tally[j].exhausted + s.tally[j].cut)
            && (s.tally[j].deaths == 0 ==> s.tally[j].cut == 0)
  {
    ReachableInv(cfg, s);
    assert AccountOk(s.Rows()[j], s.tally[j], AttemptNumbers(s.world.attempts, j), Open(s.tasks, s.owner, j));
    if Open(s.tasks, s.owner, j) {
      assert Owned(s.tasks[s.owner[j]]) == Some(j);
    }
  }

  lemma {:induction false} InjectionBound(ts: set<nat>, f: map<nat, nat>, n: nat)
    requires forall t :: t in ts ==> t in f && f[t] < n
    requires forall t, u :: t in ts && u in ts && t != u ==> f[t] != f[u]
    ensures |ts| <= n
    decreases n
  {
    if n == 0 {
      assert ts == {};
    } else if t :| t in ts && f[t] == n - 1 {
      InjectionBound(ts - {t}, f, n - 1);
    } else {
      InjectionBound(ts, f, n - 1);
    }
  }

  ghost function Holders(tasks: map<nat, Pc>): set<nat> {
    set t | t in tasks && SlotHeld(tasks[t]).Some?
  }

  lemma SlotBound(slots: nat, tasks: map<nat, Pc>, slotOf: map<nat, nat>, held: set<nat>)
    requires SlotsOk(slots, tasks, slotOf, held)
    ensures |Holders(tasks)| <= slots
  {
    InjectionBound(Holders(tasks), map t | t in Holders(tasks) :: SlotHeld(tasks[t]).value, slots);
  }

  lemma SlotMatch(slots: nat, tasks: map<nat, Pc>, slotOf: map<nat, nat>, held: set<nat>)
    requires SlotsOk(slots, tasks, slotOf, held)
    ensures forall k :: k in held <==> exists t :: t in tasks && SlotHeld(tasks[t]) == Some(k)
    ensures forall t, u :: t in tasks && u in tasks && t != u && SlotHeld(tasks[t]).Some? ==> SlotHeld(tasks[t]) != SlotHeld(tasks[u])
  {
    forall k | k in held
      ensures exists t :: t in tasks && SlotHeld(tasks[t]) == Some(k)
    {
      assert SlotHeld(tasks[slotOf[k]]) == Some(k);
    }
  }

  // The inference cap: held slots and the handlers between acquire and release match
  // one to one, so never more handlers than slots are inside an inference call.
  lemma InferenceCap(cfg: Config, s: State)
    requires Reachable(cfg, s)
    ensures forall k :: k in s.world.held <==> exists t :: t in s.tasks && SlotHeld(s.tasks[t]) == Some(k)
    ensures forall t, u :: t in s.tasks && u in s.tasks && t != u && SlotHeld(s.tasks[t]).Some? ==> SlotHeld(s.tasks[t]) != SlotHeld(s.tasks[u])
    ensures |Holders(s.tasks)| <= cfg.slots
    ensures forall t :: t in s.tasks && s.tasks[t].InSlot? ==> t in Holders(s.tasks)
  {
    hide NamesOk, OwnersOk, SlotsOk, CopiesOk, RunningOk, AccountsOk, TableOk, WakeOk, Reachable;
    ReachableInv(cfg, s);
    SlotMatch(cfg.slots, s.tasks, s.slotOf, s.world.held);
    SlotBound(cfg.slots, s.tasks, s.slotOf, s.world.held);
  }

  // ----- what a dead handler leaves behind -----

  // The id is marked as being processed, and no handler processes it.
  ghost predicate Stranded(s: State, j: Uuid) {
    j in s.Rows() && j in s.world.queue.processing && j !in s.owner
  }

  lemma MoveOfAnother(cfg: Config, s: State, t: nat, inp: Inputs, j: Uuid)
    requires Inv(cfg, s) && Stranded(s, j) && t in s.tasks && PcOk(s.tasks[t])
    ensures var s' := ApplyAdvance(cfg, s, t, inp);
            Stranded(s', j) && s'.Rows()[j].attemptCount == s.Rows()[j].attemptCount
  {
    hide NamesOk, SlotsOk, CopiesOk, RunningOk, AccountsOk, RowOk, OwnerFacts, AccountOk, CopyOk;
    var id := Owned(s.tasks[t]);
    if id.Some? {
      OwnerKnows(cfg, s, t, id.value);
      OwnerMovesOnly(cfg, s, t, id.value, inp);
      AcknowledgeFacts(s.world.queue, id.value);
    } else {
      OtherStepsKeepLedger(cfg, s.world, s.tasks[t], s.clock, inp);
    }
  }

  lemma OwnerMovesOnly(cfg: Config, s: State, t: nat, id: Uuid, inp: Inputs)
    requires OwnerFacts(s, t, id)
    ensures var (w', pc') := HandlerStep(cfg, s.world, s.tasks[t], s.clock, inp);
            && OnlyRow(s.Rows(), w'.ledger.rows, id)
            && (w'.queue == s.world.queue || w'.queue == Acknowledge(s.world.queue, id))
            && (Named(pc') == Some(id) || Named(pc').None?)
  {
    hide HandlerStep, OwnerFacts;
    OwnerNames(cfg, s, t, id, inp);
    if s.tasks[t].Popped? {
      ClaimRowStep(cfg, s, t, id, inp);
    } else if s.tasks[t].Saving? {
      SaveRowStep(cfg, s, t, id, inp);
    } else {
      OtherStepsKeepLedger(cfg, s.world, s.tasks[t], s.clock, inp);
    }
  }

  lemma OwnerNames(cfg: Config, s: State, t: nat, id: Uuid, inp: Inputs)
    requires OwnerFacts(s, t, id)
    ensures t in s.tasks && PcOk(s.tasks[t])
    ensures var (w', pc') := HandlerStep(cfg, s.world, s.tasks[t], s.clock, inp);
            && (w'.queue == s.world.queue || w'.queue == Acknowledge(s.world.queue, id))
            && (Named(pc') == Some(id) || Named(pc').None?)
  {
    hide RowOk, AccountOk;
  }

  lemma StrandedStep(cfg: Config, s: State, a: Action, j: Uuid)
    requires Inv(cfg, s) && Enabled(cfg, s, a) && Stranded(s, j)
    requires a.LoseProcessing? ==> j !in a.ids
    ensures Stranded(Apply(cfg, s, a), j) && Apply(cfg, s, a).Rows()[j].attemptCount == s.Rows()[j].attemptCount
  {
    hide Inv, Stranded, ListCandidates, HandlerStep;
    if a.Advance? {
      MoveOfAnother(cfg, s, a.t, a.inp, j);
    } else {
      InvLedger(cfg, s);
      if a.Sweep? || a.ReleaseScan? || a.RejectScan? {
        RowsStepStrands(cfg, s, a, j);
      } else {
        QueueStepStrands(cfg, s, a, j);
      }
    }
  }

  lemma InvLedger(cfg: Config, s: State)
    requires Inv(cfg, s)
    ensures TableOk(s.world.ledger) && WakeOk(s.world.queue)
  {
  }

  lemma RowsStepStrands(cfg: Config, s: State, a: Action, j: Uuid)
    requires TableOk(s.world.ledger) && Enabled(cfg, s, a) && Stranded(s, j)
    requires a.Sweep? || a.ReleaseScan? || a.RejectScan?
    ensures Stranded(Apply(cfg, s, a), j) && Apply(cfg, s, a).Rows()[j].attemptCount == s.Rows()[j].attemptCount
  {
    hide RowOk, ListCandidates, Touch, TableOk;
    if a.Sweep? {
      CandidateFacts(s.world.ledger, s.clock, a.limit);
      RowAt(s.world.ledger, j);
      TouchKeepsRow(s.Rows()[j], s.clock);
    } else {
      RowAt(s.world.ledger, a.id);
    }
  }

  lemma QueueStepStrands(cfg: Config, s: State, a: Action, j: Uuid)
    requires WakeOk(s.world.queue) && Enabled(cfg, s, a) && Stranded(s, j)
    requires !a.Advance? && !a.Sweep? && !a.ReleaseScan? && !a.RejectScan? && (a.LoseProcessing? ==> j !in a.ids)
    ensures Stranded(Apply(cfg, s, a), j) && Apply(cfg, s, a).Rows()[j].attemptCount == s.Rows()[j].attemptCount
  {
    if a.Pop? {
      assert s.world.queue.pending[0] in s.world.queue.pending;
    }
  }

  // A job whose handler died between pop and acknowledge is never run again: whatever the
  // reconcilers and the other workers do, its id stays marked as being processed, so it is
  // not requeued, not popped and not claimed, until the queue loses its processing entry.
  lemma {:induction false} StrandedForever(cfg: Config, s: State, run: seq<Action>, j: Uuid)
    requires Inv(cfg, s) && ValidRun(cfg, s, run) && Stranded(s, j)
    requires forall i :: 0 <= i < |run| && run[i].LoseProcessing? ==> j !in run[i].ids
    ensures var end := Run(cfg, s, run);
            && Stranded(end, j) && j !in end.world.queue.pending
            && end.Rows()[j].attemptCount == s.Rows()[j].attemptCount
    decreases |run|
  {
    hide Enabled, Apply, Stranded, NamesOk, OwnersOk, SlotsOk, CopiesOk, RunningOk, AccountsOk, TableOk;
    if run != [] {
      StrandedStep(cfg, s, run[0], j);
      StepKeepsInv(cfg, s, run[0]);
      StrandedForever(cfg, Apply(cfg, s, run[0]), run[1..], j);
    } else {
      NotPending(s, j);
    }
  }

  lemma NotPending(s: State, j: Uuid)
    requires WakeOk(s.world.queue) && Stranded(s, j)
    ensures j in s.Rows() && j !in s.world.queue.pending
  {
  }

  // An exception that escapes the inference phase, a missing PDF included, does the same.
  lemma EscapeStrands(cfg: Config, s: State, t: nat, inp: Inputs)
    requires Inv(cfg, s) && Enabled(cfg, s, Advance(t, inp)) && s.tasks[t].InSlot? && (!inp.stored || inp.reply.Escapes?)
    ensures forall j :: Stranded(Apply(cfg, s, Advance(t, inp)), j) <==> Stranded(s, j) || j == s.tasks[t].claimed.Id()
  {
    hide SlotsOk, CopiesOk, RunningOk, AccountsOk, TableOk, WakeOk;
    assert Named(s.tasks[t]) == Owned(s.tasks[t]);
  }

  // A death strands exactly the job the handler owned.
  lemma DeathStrands(cfg: Config, s: State, t: nat)
    requires Inv(cfg, s) && Enabled(cfg, s, Die(t)) && Owned(s.tasks[t]).Some?
    ensures forall j :: Stranded(Apply(cfg, s, Die(t)), j) <==> Stranded(s, j) || j == Owned(s.tasks[t]).value
  {
    hide SlotsOk, CopiesOk, RunningOk, AccountsOk, TableOk, WakeOk;
    assert Named(s.tasks[t]) == Owned(s.tasks[t]);
  }
}
