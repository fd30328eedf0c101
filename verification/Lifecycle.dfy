// Uploads as runs of the protocol, and the whole story: from an empty system, uploads,
// the loss of everything queued, and recovery leave every accepted job settled.

module Lifecycle {
  import opened Basics
  import opened Ids
  import opened Jobs
  import opened Queue
  import opened Ledger
  import opened Storage
  import opened Faults
  import opened Handler
  import opened Recovery
  import opened Protocol
  import opened Guarantees
  import opened Sequential
  import opened Refinement
  import opened Uploads
  import opened Worker

  // ----- one upload -----

  // The steps of one upload: none when no row is inserted; otherwise the row, and then its
  // wake arrives, or the request ends before it.
  function UploadRun(s: State, req: Request, scanRequired: bool, maxRetries: nat, t: nat): seq<Action>
    requires s.clock <= req.now
  {
    var job := RowFor(req, scanRequired, maxRetries);
    [Tick(req.now - s.clock)] + if Inserts(s.world.ledger, req) then InsertRun(job, Arrives(req), t) else []
  }

  ghost predicate SameShelf(s: State, shelf: Shelf) {
    s.world.ledger == shelf.ledger && s.world.queue == shelf.queue
  }

  lemma InsertIsRun(cfg: Config, s: State, req: Request, scanRequired: bool, maxRetries: nat, t: nat)
    requires t !in s.tasks && s.clock == req.now && Inserts(s.world.ledger, req)
    ensures var job := RowFor(req, scanRequired, maxRetries);
            Enabled(cfg, s, Upload(t, job)) && job.Id() == req.job
  {
  }

  // The announced wake arrives ..
  lemma WakeArrives(cfg: Config, s: State, job: JobRecord, t: nat)
    requires t !in s.tasks && Claimable(job.status)
    ensures var s1, a := ApplyUpload(s, t, job), Advance(t, Inputs(Success, true, Escapes));
            && Enabled(cfg, s1, a)
            && Apply(cfg, s1, a)
               == s1.(world := s1.world.(queue := Enqueue(s1.world.queue, job.Id())), tasks := s.tasks)
  {
    assert s.tasks[t := Enqueueing(job.Id(), None)] - {t} == s.tasks;
  }

  // .. or the request dies first.
  lemma WakeDies(cfg: Config, s: State, job: JobRecord, t: nat)
    requires t !in s.tasks && Claimable(job.status)
    ensures var s1 := ApplyUpload(s, t, job);
            Enabled(cfg, s1, Die(t)) && Apply(cfg, s1, Die(t)) == s1.(tasks := s.tasks)
  {
    assert s.tasks[t := Enqueueing(job.Id(), None)] - {t} == s.tasks;
  }

  // The row of an upload and what follows it, without the clock.
  function InsertRun(job: JobRecord, arrives: bool, t: nat): seq<Action> {
    if !Claimable(job.status) then [Upload(t, job)]
    else [Upload(t, job)] + [if arrives then Advance(t, Inputs(Success, true, Escapes)) else Die(t)]
  }

  lemma InsertEnds(cfg: Config, s: State, job: JobRecord, arrives: bool, t: nat)
    requires t !in s.tasks && Enabled(cfg, s, Upload(t, job))
    ensures var run := InsertRun(job, arrives, t);
            && ValidRun(cfg, s, run)
            && var end := Run(cfg, s, run);
               && end.world.ledger == Put(s.world.ledger, job) && end.world.held == s.world.held && end.world.attempts == s.world.attempts
               && end.world.queue == (if Claimable(job.status) && arrives then Enqueue(s.world.queue, job.Id()) else s.world.queue)
               && end.tasks == s.tasks && end.sweeps == s.sweeps && end.clock == s.clock
  {
    hide ValidRun, Run, Put, Enqueue, FreshJob;
    var s2 := ApplyUpload(s, t, job);
    if !Claimable(job.status) {
      NoSteps(cfg, s2);
      PrependStep(cfg, s, Upload(t, job), []);
      assert [Upload(t, job)] + [] == [Upload(t, job)];
    } else {
      var last := if arrives then Advance(t, Inputs(Success, true, Escapes)) else Die(t);
      WakeArrives(cfg, s, job, t);
      WakeDies(cfg, s, job, t);
      NoSteps(cfg, Apply(cfg, s2, last));
      PrependStep(cfg, s2, last, []);
      assert [last] + [] == [last];
      PrependStep(cfg, s, Upload(t, job), [last]);
    }
  }

  // A row is inserted when the put returns, the insert takes effect and the id is new.
  predicate Inserts(ledger: Table, req: Request) {
    req.put.Succeeds? && !req.insert.RaisesBefore? && req.job !in ledger.rows
  }

  predicate Arrives(req: Request) {
    req.insert.Succeeds? && !req.queueDown
  }

  lemma ContractEffects(s: Shelf, req: Request, scanRequired: bool, maxRetries: nat)
    ensures var s', job := UploadContract(s, req, scanRequired, maxRetries), RowFor(req, scanRequired, maxRetries);
            && s'.ledger == (if Inserts(s.ledger, req) then Put(s.ledger, job) else s.ledger)
            && s'.queue == (if Inserts(s.ledger, req) && Claimable(job.status) && Arrives(req) then Enqueue(s.queue, req.job) else s.queue)
  {
    hide ObjectKeyFor, Put, Enqueue;
  }

  // An upload, whatever of it fails, is a run of the protocol with the same ledger and queue.
  lemma UploadIsRun(cfg: Config, s: State, shelf: Shelf, req: Request, scanRequired: bool, maxRetries: nat, t: nat)
    requires SameShelf(s, shelf) && t !in s.tasks && s.clock <= req.now
    ensures var run, shelf' := UploadRun(s, req, scanRequired, maxRetries, t), UploadContract(shelf, req, scanRequired, maxRetries);
            && ValidRun(cfg, s, run)
            && var end := Run(cfg, s, run);
               && end.world == s.world.(ledger := shelf'.ledger, queue := shelf'.queue)
               && end.tasks == s.tasks && end.sweeps == s.sweeps && end.clock == req.now
  {
    hide ValidRun, Run, RowFor, Put, InsertRun, UploadContract, Enabled, Enqueue, Apply, Inserts;
    ContractEffects(shelf, req, scanRequired, maxRetries);
    var tick, job, s1 := Tick(req.now - s.clock), RowFor(req, scanRequired, maxRetries), s.(clock := req.now);
    TickIs(cfg, s, req.now);
    var rest: seq<Action> := [];
    if Inserts(shelf.ledger, req) {
      InsertIsRun(cfg, s1, req, scanRequired, maxRetries, t);
      rest := InsertRun(job, Arrives(req), t);
      InsertEnds(cfg, s1, job, Arrives(req), t);
    } else {
      NoSteps(cfg, s1);
    }
    PrependStep(cfg, s, tick, rest);
  }

  lemma TickIs(cfg: Config, s: State, now: nat)
    requires s.clock <= now
    ensures Enabled(cfg, s, Tick(now - s.clock)) && Apply(cfg, s, Tick(now - s.clock)) == s.(clock := now)
  {
  }

  // ----- many uploads -----

  // The requests come one after another between the two moments.
  predicate InTime(reqs: seq<Request>, from: nat, to: nat)
    decreases |reqs|
  {
    if reqs == [] then from <= to
    else InTime(reqs[..|reqs| - 1], from, reqs[|reqs| - 1].now) && reqs[|reqs| - 1].now <= to
  }

  lemma {:induction false} UploadsAreRun(cfg: Config, s: State, shelf: Shelf, reqs: seq<Request>, scanRequired: bool, maxRetries: nat,
                                         to: nat, t: nat) returns (run: seq<Action>)
    requires SameShelf(s, shelf) && t !in s.tasks && InTime(reqs, s.clock, to)
    ensures ValidRun(cfg, s, run)
    ensures var end, shelf' := Run(cfg, s, run), UploadAll(shelf, reqs, scanRequired, maxRetries);
            && end.world == s.world.(ledger := shelf'.ledger, queue := shelf'.queue)
            && end.tasks == s.tasks && end.sweeps == s.sweeps && end.clock <= to
    decreases |reqs|
  {
    hide ValidRun, Run, UploadContract, UploadRun;
    if reqs == [] {
      run := [];
      NoSteps(cfg, s);
    } else {
      var last := reqs[|reqs| - 1];
      var first := UploadsAreRun(cfg, s, shelf, reqs[..|reqs| - 1], scanRequired, maxRetries, last.now, t);
      var s1 := Run(cfg, s, first);
      var shelf1 := UploadAll(shelf, reqs[..|reqs| - 1], scanRequired, maxRetries);
      UploadIsRun(cfg, s1, shelf1, last, scanRequired, maxRetries, t);
      RunsCompose(cfg, s, first, UploadRun(s1, last, scanRequired, maxRetries, t));
      run := first + UploadRun(s1, last, scanRequired, maxRetries, t);
    }
  }

  // ----- from an empty system to recovery -----

  function EmptyShelf(objects: map<string, Bytes>): Shelf {
    Shelf(Table([], map[]), Wake([], {}), objects)
  }

  // Uploads leave no row RUNNING and nothing in processing.
  lemma {:induction false} UploadedStatuses(objects: map<string, Bytes>, reqs: seq<Request>, scanRequired: bool, maxRetries: nat)
    ensures var shelf := UploadAll(EmptyShelf(objects), reqs, scanRequired, maxRetries);
            && shelf.queue.processing == {}
            && forall j :: j in shelf.ledger.rows ==> !shelf.ledger.rows[j].status.Running?
    decreases |reqs|
  {
    if reqs != [] {
      UploadedStatuses(objects, reqs[..|reqs| - 1], scanRequired, maxRetries);
    }
  }

  // What one upload adds to the table.
  lemma AcceptedIsRow(s: Shelf, req: Request, scanRequired: bool, maxRetries: nat)
    ensures var s' := UploadContract(s, req, scanRequired, maxRetries);
            && s.ledger.rows.Keys <= s'.ledger.rows.Keys
            && (req.put.Succeeds? && req.insert.Succeeds? ==> req.job in s'.ledger.rows)
  {
  }

  // Every state of the story is one of the protocol, so its guarantees hold throughout.
  lemma StoryIsReachable(cfg: Config, objects: map<string, Bytes>, reqs: seq<Request>, scanRequired: bool, maxRetries: nat,
                         now: nat, limit: nat, deeds: seq<Deed>, to: nat) returns (end: State)
    requires InTime(reqs, 0, now) && Timely(deeds, now, to)
    requires var lost := World(UploadAll(EmptyShelf(objects), reqs, scanRequired, maxRetries).ledger, Wake([], {}), {}, []);
             Work(cfg, limit, lost, deeds).Some?
    ensures Reachable(cfg, end) && end.tasks == map[]
    ensures var lost := World(UploadAll(EmptyShelf(objects), reqs, scanRequired, maxRetries).ledger, Wake([], {}), {}, []);
            Some(end.world) == Work(cfg, limit, lost, deeds)
  {
    hide ValidRun, Run, Work, Timely, UploadAll, Apply, Enabled;
    UploadedStatuses(objects, reqs, scanRequired, maxRetries);
    var up := UploadsAreRun(cfg, Initial(), EmptyShelf(objects), reqs, scanRequired, maxRetries, now, 0);
    var s1 := Run(cfg, Initial(), up);
    var s2 := LossIsRun(cfg, s1, now);
    assert Reachable(cfg, s1);
    var lose := s2.0;
    RunsCompose(cfg, Initial(), up, lose);
    assert Reachable(cfg, s2.1);
    end := WorkStaysReachable(cfg, s2.1, limit, deeds, to, 0, 0);
  }

  // Time passes and the pending ids are lost.
  lemma LossIsRun(cfg: Config, s: State, now: nat) returns (r: (seq<Action>, State))
    requires s.clock <= now
    ensures ValidRun(cfg, s, r.0) && Run(cfg, s, r.0) == r.1
    ensures r.1 == s.(clock := now, world := s.world.(queue := s.world.queue.(pending := [])))
  {
    var ids := set x | x in s.world.queue.pending;
    var s1 := s.(clock := now);
    WithoutEverything(s.world.queue.pending, ids);
    var s2 := s1.(world := s.world.(queue := s.world.queue.(pending := [])));
    NoSteps(cfg, s2);
    PrependStep(cfg, s1, LosePending(ids), []);
    PrependStep(cfg, s, Tick(now - s.clock), [LosePending(ids)] + []);
    r := ([Tick(now - s.clock)] + ([LosePending(ids)] + []), s2);
  }

  // From an empty ledger and queue: uploads with fresh ids, of which none deletes the PDF of a
  // row it inserted, whatever else of them fails; then everything queued is lost; then
  // recovery. In the end every job is quarantined or terminal, every accepted upload has its
  // row and its PDF unchanged, and the world is one the protocol reaches.
  method UploadLoseRecover(app: AppState, worker: Worker, reqs: seq<Request>, now: nat, oracle: (Uuid, nat) -> Reply)
    returns (accepted: seq<bool>)
    requires worker.jobs == app.jobs && worker.queue == app.queue && worker.storage == app.storage && worker.batchSize > 0
    requires app.Contents() == EmptyShelf(app.storage.objects) && app.jobs.Held() == {} && app.jobs.attempts == []
    requires FreshIds(app.Contents(), reqs) && InTime(reqs, 0, now) && forall i :: 0 <= i < |reqs| ==> !Orphans(reqs[i])
    requires forall id, n :: !oracle(id, n).Escapes?
    modifies app.jobs`jobs, app.jobs`attempts, app.jobs`held, app.queue, app.storage
    ensures |accepted| == |reqs|
    ensures forall i :: 0 <= i < |reqs| ==> accepted[i] == (reqs[i].put.Succeeds? && reqs[i].insert.Succeeds?)
    ensures forall i :: 0 <= i < |reqs| && accepted[i] ==> reqs[i].job in app.jobs.jobs.rows
    ensures forall j :: j in app.jobs.jobs.rows ==>
              Settled(app.jobs.jobs.rows[j]) && app.jobs.jobs.rows[j].info.objectKey in app.storage.objects
    ensures forall i :: 0 <= i < |reqs| && accepted[i] ==>
              app.storage.objects[app.jobs.jobs.rows[reqs[i].job].info.objectKey] == reqs[i].content
    ensures app.queue.Contents() == Wake([], {})
    ensures exists s :: Reachable(worker.Cfg(), s) && s.world == worker.Snapshot() && s.tasks == map[]
  {
    hide Work, Timely, Recovered, RowsStored, UploadContract, Orphans, Settled, TableOk, UploadAll, FreshIds;
    ghost var start := app.Contents();
    accepted := UploadEach(app, reqs);
    UploadedStatuses(start.objects, reqs, app.scanRequired, app.maxRetries);
    ghost var shelf := app.Contents();
    EmptyStored(start);
    SafeUploadsKeep(start, reqs, map[], app.scanRequired, app.maxRetries);
    ghost var contents := Uploaded(start, reqs, map[], app.scanRequired, app.maxRetries);
    StoredRows(shelf, contents);
    forall i | 0 <= i < |reqs| && accepted[i]
      ensures reqs[i].job in contents && contents[reqs[i].job] == reqs[i].content
    {
      UploadedContent(start, reqs, map[], app.scanRequired, app.maxRetries, i);
    }
    app.queue.pending := [];
    ghost var lost := worker.Snapshot();
    ghost var end, deeds := now, [];
    end, deeds := worker.Recover(now, oracle);
    NothingStuck(lost.ledger, app.jobs.jobs, now, worker.batchSize);
    RecoveredKeys(lost.ledger, app.jobs.jobs, now, worker.batchSize);
    ghost var s := StoryIsReachable(worker.Cfg(), start.objects, reqs, app.scanRequired, app.maxRetries, now, worker.batchSize, deeds, end);
  }

  lemma EmptyStored(s: Shelf)
    requires s == EmptyShelf(s.objects)
    ensures RowsStored(s, map[])
  {
  }

  lemma StoredRows(s: Shelf, contents: map<Uuid, Bytes>)
    requires RowsStored(s, contents)
    ensures TableOk(s.ledger)
    ensures forall j :: j in s.ledger.rows ==>
              var key := s.ledger.rows[j].info.objectKey; j in contents && key in s.objects && s.objects[key] == contents[j]
  {
  }

  // The remembered content of an inserted row is that of its request.
  lemma {:induction false} UploadedContent(s: Shelf, reqs: seq<Request>, contents: map<Uuid, Bytes>, scanRequired: bool, maxRetries: nat, i: nat)
    requires FreshIds(s, reqs) && i < |reqs| && reqs[i].put.Succeeds? && !reqs[i].insert.RaisesBefore?
    ensures var all := Uploaded(s, reqs, contents, scanRequired, maxRetries); reqs[i].job in all && all[reqs[i].job] == reqs[i].content
    decreases |reqs|
  {
    hide UploadContract, UploadAll;
    if i == |reqs| - 1 {
      NewToLedger(s, reqs, scanRequired, maxRetries);
    } else {
      assert reqs[i].job != reqs[|reqs| - 1].job;
      UploadedContent(s, reqs[..|reqs| - 1], contents, scanRequired, maxRetries, i);
    }
  }

  lemma RecoveredKeys(t0: Table, t: Table, now: nat, limit: nat)
    requires Recovered(t0, t, now, limit, {})
    ensures t.rows.Keys == t0.rows.Keys && forall j :: j in t0.rows ==> t.rows[j].info == t0.rows[j].info
  {
  }

  lemma NoUploads(s: Shelf, reqs: seq<Request>, scanRequired: bool, maxRetries: nat)
    ensures UploadAll(s, reqs[..0], scanRequired, maxRetries) == s
  {
  }

  lemma OneMore(s: Shelf, reqs: seq<Request>, scanRequired: bool, maxRetries: nat, i: nat)
    requires FreshIds(s, reqs) && i < |reqs|
    ensures UploadAll(s, reqs[..i + 1], scanRequired, maxRetries)
         == UploadContract(UploadAll(s, reqs[..i], scanRequired, maxRetries), reqs[i], scanRequired, maxRetries)
    ensures reqs[i].job !in UploadAll(s, reqs[..i], scanRequired, maxRetries).ledger.rows
  {
    assert reqs[..i + 1][..i] == reqs[..i] && reqs[..i + 1][i] == reqs[i];
    NewToLedger(s, reqs[..i + 1], scanRequired, maxRetries);
  }

  // The requests one after another.
  method UploadEach(app: AppState, reqs: seq<Request>) returns (accepted: seq<bool>)
    requires FreshIds(app.Contents(), reqs)
    modifies app.jobs`jobs, app.queue, app.storage
    ensures app.Contents() == UploadAll(old(app.Contents()), reqs, app.scanRequired, app.maxRetries)
    ensures |accepted| == |reqs|
    ensures forall i :: 0 <= i < |reqs| ==> accepted[i] == (reqs[i].put.Succeeds? && reqs[i].insert.Succeeds?)
    ensures forall i :: 0 <= i < |reqs| && accepted[i] ==> reqs[i].job in app.jobs.jobs.rows
  {
    hide UploadContract, UploadAll, FreshIds;
    ghost var start := app.Contents();
    accepted := [];
    var i := 0;
    NoUploads(start, reqs, app.scanRequired, app.maxRetries);
    while i < |reqs|
      invariant 0 <= i <= |reqs| && |accepted| == i
      invariant app.Contents() == UploadAll(start, reqs[..i], app.scanRequired, app.maxRetries)
      invariant forall k :: 0 <= k < i ==> accepted[k] == (reqs[k].put.Succeeds? && reqs[k].insert.Succeeds?)
      invariant forall k :: 0 <= k < i && accepted[k] ==> reqs[k].job in app.jobs.jobs.rows
    {
      ghost var before := app.Contents();
      OneMore(start, reqs, app.scanRequired, app.maxRetries, i);
      AcceptedIsRow(before, reqs[i], app.scanRequired, app.maxRetries);
      var ok := app.Upload(reqs[i]);
      accepted := accepted + [ok];
      i := i + 1;
    }
    assert reqs[..i] == reqs;
  }
}
