// The upload path (api.py): put the PDF, insert the row, delete the PDF again when the
// insert fails, enqueue the job when it is claimable and the queue is up.

module Uploads {
  import opened Basics
  import opened Ids
  import opened Jobs
  import opened Queue
  import opened Ledger
  import opened Storage

  datatype Shelf = Shelf(ledger: Table, queue: Wake, objects: map<string, Bytes>)

  // One request with what the environment does to it.
  datatype Request = Request(vendor: Uuid, job: Uuid, filename: Option<string>, sha256: string, content: Bytes, now: nat,
                             put: Effect, insert: Effect, deleteFails: bool, queueDown: bool)

  // A put or an insert that raises may have taken effect all the same: the object store
  // or the database has done its part and only the confirmation is lost.
  datatype Effect = Succeeds | RaisesBefore | RaisesAfter

  function RowFor(req: Request, scanRequired: bool, maxRetries: nat): JobRecord {
    NewJob(req.vendor, req.job, ObjectKeyFor(req.vendor, req.job), scanRequired, req.filename, Some(req.sha256), maxRetries, req.now)
  }

  function UploadContract(s: Shelf, req: Request, scanRequired: bool, maxRetries: nat): Shelf {
    var key, job := ObjectKeyFor(req.vendor, req.job), RowFor(req, scanRequired, maxRetries);
    if req.put.RaisesBefore? then s
    else if req.put.RaisesAfter? then s.(objects := s.objects[key := req.content])
    else if !req.insert.Succeeds? || req.job in s.ledger.rows then
      Shelf(if req.insert.RaisesAfter? && req.job !in s.ledger.rows then Put(s.ledger, job) else s.ledger, s.queue,
            if req.deleteFails then s.objects[key := req.content] else s.objects[key := req.content] - {key})
    else
      Shelf(Put(s.ledger, job),
            if Claimable(job.status) && !req.queueDown then Enqueue(s.queue, req.job) else s.queue,
            s.objects[key := req.content])
  }

  class AppState {
    const jobs: InMemoryJobRepository
    const queue: InMemoryJobQueue
    const storage: InMemoryObjectStorage
    const scanRequired: bool
    const maxRetries: nat

    constructor (jobs: InMemoryJobRepository, queue: InMemoryJobQueue, storage: InMemoryObjectStorage, scanRequired: bool, maxRetries: nat)
      ensures this.jobs == jobs && this.queue == queue && this.storage == storage
      ensures this.scanRequired == scanRequired && this.maxRetries == maxRetries
    {
      this.jobs, this.queue, this.storage, this.scanRequired, this.maxRetries := jobs, queue, storage, scanRequired, maxRetries;
    }

    ghost function Contents(): Shelf
      reads jobs, queue, storage
    {
      Shelf(jobs.jobs, queue.Contents(), storage.objects)
    }

    // `accepted` is the 202 response; otherwise an exception reaches the client.
    method Upload(req: Request) returns (accepted: bool)
      modifies jobs`jobs, queue, storage
      ensures Contents() == UploadContract(old(Contents()), req, scanRequired, maxRetries)
      ensures accepted == (req.put.Succeeds? && req.insert.Succeeds? && req.job !in old(jobs.jobs).rows)
    {
      if req.put.RaisesBefore? {
        return false;
      }
      var key := storage.PutPdf(req.vendor, req.job, req.content, req.sha256);
      if req.put.RaisesAfter? {
        return false;
      }
      var job := NewJob(req.vendor, req.job, key, scanRequired, req.filename, Some(req.sha256), maxRetries, req.now);
      var inserted := false;
      if !req.insert.RaisesBefore? {
        var added := jobs.Insert(job);
        inserted := added && req.insert.Succeeds?;
      }
      if !inserted {
        if !req.deleteFails {
          storage.Delete(key);
        }
        return false;
      }
      if Claimable(job.status) && !req.queueDown {
        queue.Offer(req.job);
      }
      return true;
    }
  }

  // ----- row-object integrity -----

  // `contents` remembers what was uploaded with each row.
  ghost predicate RowsStored(s: Shelf, contents: map<Uuid, Bytes>) {
    && TableOk(s.ledger)
    && (forall j :: j in s.ledger.rows ==>
         && s.ledger.rows[j].info.objectKey == ObjectKeyFor(s.ledger.rows[j].info.vendorId, j)
         && j in contents && s.ledger.rows[j].info.objectKey in s.objects
         && s.objects[s.ledger.rows[j].info.objectKey] == contents[j])
  }

  function Remember(s: Shelf, req: Request, contents: map<Uuid, Bytes>): map<Uuid, Bytes> {
    if !req.put.Succeeds? || req.insert.RaisesBefore? || req.job in s.ledger.rows then contents else contents[req.job := req.content]
  }

  // The insert took effect and raised, and the compensating delete then removed the PDF.
  predicate Orphans(req: Request) {
    req.put.Succeeds? && req.insert.RaisesAfter? && !req.deleteFails
  }

  // When an upload leaves every row's PDF stored unchanged: with a new id, unless it
  // orphans its row; with the id of a row of the same vendor, only if it stores nothing, or
  // merely repeats the stored bytes and no delete follows.
  predicate SafeUpload(s: Shelf, req: Request, contents: map<Uuid, Bytes>) {
    req.put.RaisesBefore? ||
    if req.job !in s.ledger.rows then !Orphans(req)
    else
      || s.ledger.rows[req.job].info.vendorId != req.vendor
      || ((req.put.RaisesAfter? || req.deleteFails) && req.job in contents && contents[req.job] == req.content)
  }

  lemma OwnKey(s: Shelf, req: Request, contents: map<Uuid, Bytes>, j: Uuid)
    requires RowsStored(s, contents) && j in s.ledger.rows
    requires s.ledger.rows[j].info.objectKey == ObjectKeyFor(req.vendor, req.job)
    ensures j == req.job && s.ledger.rows[j].info.vendorId == req.vendor
  {
    KeyInjective(s.ledger.rows[j].info.vendorId, j, req.vendor, req.job);
  }

  // With the ledger unchanged it is enough that no row's object changed.
  lemma ObjectsKept(s: Shelf, s': Shelf, contents: map<Uuid, Bytes>)
    requires RowsStored(s, contents) && s'.ledger == s.ledger
    requires forall j :: j in s.ledger.rows ==>
               var key := s.ledger.rows[j].info.objectKey; key in s'.objects && (key in s.objects ==> s'.objects[key] == s.objects[key])
    ensures RowsStored(s', contents)
  {
    hide TableOk, ObjectKeyFor;
  }

  // A request for the id of a row.
  lemma KnownIdKeeps(s: Shelf, req: Request, contents: map<Uuid, Bytes>, scanRequired: bool, maxRetries: nat)
    requires RowsStored(s, contents) && SafeUpload(s, req, contents) && req.job in s.ledger.rows
    ensures RowsStored(UploadContract(s, req, scanRequired, maxRetries), Remember(s, req, contents))
  {
    hide TableOk, ObjectKeyFor;
    forall j | j in s.ledger.rows && s.ledger.rows[j].info.objectKey == ObjectKeyFor(req.vendor, req.job)
      ensures j == req.job && s.ledger.rows[j].info.vendorId == req.vendor
    {
      OwnKey(s, req, contents, j);
    }
    ObjectsKept(s, UploadContract(s, req, scanRequired, maxRetries), contents);
  }

  // A request for a new id: no row has its key.
  lemma NewIdKeeps(s: Shelf, req: Request, contents: map<Uuid, Bytes>, scanRequired: bool, maxRetries: nat)
    requires RowsStored(s, contents) && SafeUpload(s, req, contents) && req.job !in s.ledger.rows
    ensures RowsStored(UploadContract(s, req, scanRequired, maxRetries), Remember(s, req, contents))
  {
    hide TableOk, ObjectKeyFor, RowOk, RowFor;
    var job := RowFor(req, scanRequired, maxRetries);
    NewRowOk(req, scanRequired, maxRetries);
    NewRowKeyed(req, scanRequired, maxRetries);
    PutKeepsTable(s.ledger, job);
    forall j | j in s.ledger.rows
      ensures s.ledger.rows[j].info.objectKey != ObjectKeyFor(req.vendor, req.job)
    {
      if s.ledger.rows[j].info.objectKey == ObjectKeyFor(req.vendor, req.job) {
        OwnKey(s, req, contents, j);
      }
    }
  }

  lemma NewRowOk(req: Request, scanRequired: bool, maxRetries: nat)
    ensures var job := RowFor(req, scanRequired, maxRetries); RowOk(job) && job.Id() == req.job
  {
  }

  lemma NewRowKeyed(req: Request, scanRequired: bool, maxRetries: nat)
    ensures var info := RowFor(req, scanRequired, maxRetries).info;
            info.jobId == req.job && info.vendorId == req.vendor && info.objectKey == ObjectKeyFor(req.vendor, req.job)
  {
  }

  lemma SafeUploadKeeps(s: Shelf, req: Request, contents: map<Uuid, Bytes>, scanRequired: bool, maxRetries: nat)
    requires RowsStored(s, contents) && SafeUpload(s, req, contents)
    ensures RowsStored(UploadContract(s, req, scanRequired, maxRetries), Remember(s, req, contents))
  {
    hide RowsStored, SafeUpload, UploadContract, Remember;
    if req.job in s.ledger.rows {
      KnownIdKeeps(s, req, contents, scanRequired, maxRetries);
    } else {
      NewIdKeeps(s, req, contents, scanRequired, maxRetries);
    }
  }

  lemma UnsafeUploadBreaks(s: Shelf, req: Request, contents: map<Uuid, Bytes>, scanRequired: bool, maxRetries: nat)
    requires RowsStored(s, contents) && !SafeUpload(s, req, contents)
    ensures !RowsStored(UploadContract(s, req, scanRequired, maxRetries), Remember(s, req, contents))
  {
    var s', key := UploadContract(s, req, scanRequired, maxRetries), ObjectKeyFor(req.vendor, req.job);
    if req.job in s.ledger.rows {
      assert s'.ledger == s.ledger && s.ledger.rows[req.job].info.objectKey == key;
    } else {
      assert s'.ledger.rows[req.job].info.objectKey == key && key !in s'.objects;
    }
  }

  lemma UploadKeepsObjectsIff(s: Shelf, req: Request, contents: map<Uuid, Bytes>, scanRequired: bool, maxRetries: nat)
    requires RowsStored(s, contents)
    ensures RowsStored(UploadContract(s, req, scanRequired, maxRetries), Remember(s, req, contents)) <==> SafeUpload(s, req, contents)
  {
    hide RowsStored, SafeUpload;
    if SafeUpload(s, req, contents) {
      SafeUploadKeeps(s, req, contents, scanRequired, maxRetries);
    } else {
      UnsafeUploadBreaks(s, req, contents, scanRequired, maxRetries);
    }
  }

  lemma UploadRows(s: Shelf, req: Request, scanRequired: bool, maxRetries: nat, j: Uuid)
    requires j in UploadContract(s, req, scanRequired, maxRetries).ledger.rows
    ensures j in s.ledger.rows || j == req.job
  {
  }

  function UploadAll(s: Shelf, reqs: seq<Request>, scanRequired: bool, maxRetries: nat): Shelf {
    if reqs == [] then s
    else UploadContract(UploadAll(s, reqs[..|reqs| - 1], scanRequired, maxRetries), reqs[|reqs| - 1], scanRequired, maxRetries)
  }

  // The bytes of the request that created the row, found in the request log.
  ghost function Uploaded(s: Shelf, reqs: seq<Request>, contents: map<Uuid, Bytes>, scanRequired: bool, maxRetries: nat): map<Uuid, Bytes> {
    if reqs == [] then contents
    else
      var before := reqs[..|reqs| - 1];
      Remember(UploadAll(s, before, scanRequired, maxRetries), reqs[|reqs| - 1], Uploaded(s, before, contents, scanRequired, maxRetries))
  }

  // Requests with ids that are new to the ledger and to each other.
  ghost predicate FreshIds(s: Shelf, reqs: seq<Request>) {
    && (forall i :: 0 <= i < |reqs| ==> reqs[i].job !in s.ledger.rows)
    && (forall i, k :: 0 <= i < k < |reqs| ==> reqs[i].job != reqs[k].job)
  }

  lemma {:induction false} UploadedRows(s: Shelf, reqs: seq<Request>, scanRequired: bool, maxRetries: nat, j: Uuid)
    requires j in UploadAll(s, reqs, scanRequired, maxRetries).ledger.rows
    ensures j in s.ledger.rows || exists i :: 0 <= i < |reqs| && reqs[i].job == j
    decreases |reqs|
  {
    hide UploadContract;
    if reqs != [] {
      var before, last := reqs[..|reqs| - 1], reqs[|reqs| - 1];
      UploadRows(UploadAll(s, before, scanRequired, maxRetries), last, scanRequired, maxRetries, j);
      if j in UploadAll(s, before, scanRequired, maxRetries).ledger.rows {
        UploadedRows(s, before, scanRequired, maxRetries, j);
        if j !in s.ledger.rows {
          var i :| 0 <= i < |before| && before[i].job == j;
          assert reqs[i].job == j;
        }
      } else {
        assert reqs[|reqs| - 1].job == j;
      }
    }
  }

  // A row whose PDF is gone.
  ghost predicate Orphaned(s: Shelf, j: Uuid) {
    && j in s.ledger.rows && s.ledger.rows[j].info.jobId == j
    && s.ledger.rows[j].info.objectKey == ObjectKeyFor(s.ledger.rows[j].info.vendorId, j)
    && s.ledger.rows[j].info.objectKey !in s.objects
  }

  // Later uploads of other jobs never bring it back.
  lemma OrphanStays(s: Shelf, req: Request, scanRequired: bool, maxRetries: nat, j: Uuid)
    requires Orphaned(s, j) && req.job != j
    ensures Orphaned(UploadContract(s, req, scanRequired, maxRetries), j)
  {
    hide ObjectKeyFor;
    var vendor := s.ledger.rows[j].info.vendorId;
    if ObjectKeyFor(vendor, j) == ObjectKeyFor(req.vendor, req.job) {
      KeyInjective(vendor, j, req.vendor, req.job);
    }
  }

  lemma {:induction false} OrphansStay(s: Shelf, reqs: seq<Request>, scanRequired: bool, maxRetries: nat, n: nat)
    requires FreshIds(s, reqs) && n < |reqs| && Orphans(reqs[n])
    ensures Orphaned(UploadAll(s, reqs, scanRequired, maxRetries), reqs[n].job)
    decreases |reqs|
  {
    hide UploadContract, Orphaned;
    var before, last := reqs[..|reqs| - 1], reqs[|reqs| - 1];
    var s1 := UploadAll(s, before, scanRequired, maxRetries);
    if n < |before| {
      OrphansStay(s, before, scanRequired, maxRetries, n);
      assert before[n].job != last.job;
      OrphanStays(s1, last, scanRequired, maxRetries, reqs[n].job);
    } else {
      NewToLedger(s, reqs, scanRequired, maxRetries);
      OrphanMade(s1, last, scanRequired, maxRetries);
    }
  }

  lemma OrphanMade(s: Shelf, req: Request, scanRequired: bool, maxRetries: nat)
    requires Orphans(req) && req.job !in s.ledger.rows
    ensures Orphaned(UploadContract(s, req, scanRequired, maxRetries), req.job)
  {
  }

  lemma NewToLedger(s: Shelf, reqs: seq<Request>, scanRequired: bool, maxRetries: nat)
    requires FreshIds(s, reqs) && reqs != []
    ensures reqs[|reqs| - 1].job !in UploadAll(s, reqs[..|reqs| - 1], scanRequired, maxRetries).ledger.rows
  {
    var before, last := reqs[..|reqs| - 1], reqs[|reqs| - 1];
    if last.job in UploadAll(s, before, scanRequired, maxRetries).ledger.rows {
      UploadedRows(s, before, scanRequired, maxRetries, last.job);
    }
  }

  lemma {:induction false} SafeUploadsKeep(s: Shelf, reqs: seq<Request>, contents: map<Uuid, Bytes>, scanRequired: bool, maxRetries: nat)
    requires RowsStored(s, contents) && FreshIds(s, reqs)
    requires forall i :: 0 <= i < |reqs| ==> !Orphans(reqs[i])
    ensures RowsStored(UploadAll(s, reqs, scanRequired, maxRetries), Uploaded(s, reqs, contents, scanRequired, maxRetries))
    decreases |reqs|
  {
    hide RowsStored, UploadContract, Remember, Orphans;
    if reqs != [] {
      var before, last := reqs[..|reqs| - 1], reqs[|reqs| - 1];
      SafeUploadsKeep(s, before, contents, scanRequired, maxRetries);
      NewToLedger(s, reqs, scanRequired, maxRetries);
      UploadKeepsObjectsIff(UploadAll(s, before, scanRequired, maxRetries), last, Uploaded(s, before, contents, scanRequired, maxRetries),
                            scanRequired, maxRetries);
    }
  }

  // After any sequence of uploads with fresh ids, whichever of them fail to put, to
  // insert, to delete again or to enqueue, every row's PDF is stored unchanged if and only
  // if none lost the confirmation of its insert and then deleted its PDF.
  lemma RowObjectIntegrity(s: Shelf, reqs: seq<Request>, contents: map<Uuid, Bytes>, scanRequired: bool, maxRetries: nat)
    requires RowsStored(s, contents) && FreshIds(s, reqs)
    ensures RowsStored(UploadAll(s, reqs, scanRequired, maxRetries), Uploaded(s, reqs, contents, scanRequired, maxRetries))
            <==> forall i :: 0 <= i < |reqs| ==> !Orphans(reqs[i])
  {
    hide Orphans, UploadAll, Uploaded, FreshIds;
    if n :| 0 <= n < |reqs| && Orphans(reqs[n]) {
      OrphansStay(s, reqs, scanRequired, maxRetries, n);
    } else {
      SafeUploadsKeep(s, reqs, contents, scanRequired, maxRetries);
    }
  }

  // ----- the other way round: every stored PDF has its row -----

  ghost predicate ObjectsOwned(s: Shelf) {
    forall key :: key in s.objects ==> exists j :: j in s.ledger.rows && s.ledger.rows[j].info.objectKey == key
  }

  ghost predicate RowsKeyed(s: Shelf) {
    forall j :: j in s.ledger.rows ==>
      s.ledger.rows[j].info.jobId == j && s.ledger.rows[j].info.objectKey == ObjectKeyFor(s.ledger.rows[j].info.vendorId, j)
  }

  // The PDF was stored, and no row was inserted nor the PDF deleted again.
  predicate Litters(req: Request) {
    req.put.RaisesAfter? || (req.put.Succeeds? && req.insert.RaisesBefore? && req.deleteFails)
  }

  // When an upload leaves a PDF that is no row's: with the id of another vendor's row, whatever
  // it stores and does not delete again.
  predicate Strays(s: Shelf, req: Request) {
    if req.job !in s.ledger.rows then Litters(req)
    else s.ledger.rows[req.job].info.vendorId != req.vendor && (req.put.RaisesAfter? || (req.put.Succeeds? && req.deleteFails))
  }

  lemma UploadKeepsKeys(s: Shelf, req: Request, scanRequired: bool, maxRetries: nat)
    requires RowsKeyed(s)
    ensures RowsKeyed(UploadContract(s, req, scanRequired, maxRetries))
  {
    hide ObjectKeyFor, RowFor;
    NewRowKeyed(req, scanRequired, maxRetries);
  }

  // The PDF of the request afterwards, and all others.
  lemma UploadObjects(s: Shelf, req: Request, scanRequired: bool, maxRetries: nat)
    ensures var s', key := UploadContract(s, req, scanRequired, maxRetries), ObjectKeyFor(req.vendor, req.job);
            && (forall k :: k != key ==> (k in s'.objects <==> k in s.objects))
            && (Strays(s, req) ==> key in s'.objects && (req.job in s'.ledger.rows <==> req.job in s.ledger.rows))
            && (!Strays(s, req) && key in s'.objects && key !in s.objects ==>
                 req.job in s'.ledger.rows && (req.job in s.ledger.rows ==> s.ledger.rows[req.job].info.vendorId == req.vendor))
  {
    hide ObjectKeyFor, RowFor;
    NewRowKeyed(req, scanRequired, maxRetries);
  }

  // The old rows, and the new one if there is one.
  lemma UploadKeepsRows(s: Shelf, req: Request, scanRequired: bool, maxRetries: nat)
    ensures var rows, rows' := s.ledger.rows, UploadContract(s, req, scanRequired, maxRetries).ledger.rows;
            && rows.Keys <= rows'.Keys && (forall j :: j in rows ==> rows'[j] == rows[j])
            && (req.job !in rows && req.job in rows' ==> rows'[req.job].info.objectKey == ObjectKeyFor(req.vendor, req.job))
  {
    hide ObjectKeyFor, RowFor;
    NewRowKeyed(req, scanRequired, maxRetries);
  }

  // One upload leaves no PDF without a row if and only if it does not stray.
  lemma UploadOwnsObjectsIff(s: Shelf, req: Request, scanRequired: bool, maxRetries: nat)
    requires ObjectsOwned(s) && RowsKeyed(s)
    ensures ObjectsOwned(UploadContract(s, req, scanRequired, maxRetries)) <==> !Strays(s, req)
  {
    hide ObjectKeyFor, UploadContract, Strays, Litters;
    var s', key := UploadContract(s, req, scanRequired, maxRetries), ObjectKeyFor(req.vendor, req.job);
    UploadObjects(s, req, scanRequired, maxRetries);
    UploadKeepsRows(s, req, scanRequired, maxRetries);
    UploadKeepsKeys(s, req, scanRequired, maxRetries);
    if Strays(s, req) {
      StrayKey(s, req);
      forall j | j in s'.ledger.rows
        ensures s'.ledger.rows[j].info.objectKey != key
      {
        if s'.ledger.rows[j].info.objectKey == key {
          KeyInjective(s'.ledger.rows[j].info.vendorId, j, req.vendor, req.job);
        }
      }
    } else {
      forall k | k in s'.objects
        ensures exists j :: j in s'.ledger.rows && s'.ledger.rows[j].info.objectKey == k
      {
        if k in s.objects {
          var j :| j in s.ledger.rows && s.ledger.rows[j].info.objectKey == k;
          assert j in s'.ledger.rows && s'.ledger.rows[j].info.objectKey == k;
        } else {
          assert s'.ledger.rows[req.job].info.objectKey == k;
        }
      }
    }
  }

  lemma StrayKey(s: Shelf, req: Request)
    requires Strays(s, req)
    ensures req.job in s.ledger.rows ==> s.ledger.rows[req.job].info.vendorId != req.vendor
  {
  }

  // A stored PDF without a row.
  ghost predicate Stray(s: Shelf, vendor: Uuid, j: Uuid) {
    ObjectKeyFor(vendor, j) in s.objects && j !in s.ledger.rows
  }

  lemma StrayStays(s: Shelf, req: Request, scanRequired: bool, maxRetries: nat, vendor: Uuid, j: Uuid)
    requires Stray(s, vendor, j) && req.job != j
    ensures Stray(UploadContract(s, req, scanRequired, maxRetries), vendor, j)
  {
    hide ObjectKeyFor;
    if ObjectKeyFor(vendor, j) == ObjectKeyFor(req.vendor, req.job) {
      KeyInjective(vendor, j, req.vendor, req.job);
    }
  }

  lemma StrayMade(s: Shelf, req: Request, scanRequired: bool, maxRetries: nat)
    requires Litters(req) && req.job !in s.ledger.rows
    ensures Stray(UploadContract(s, req, scanRequired, maxRetries), req.vendor, req.job)
  {
  }

  lemma {:induction false} StraysStay(s: Shelf, reqs: seq<Request>, scanRequired: bool, maxRetries: nat, n: nat)
    requires FreshIds(s, reqs) && n < |reqs| && Litters(reqs[n])
    ensures Stray(UploadAll(s, reqs, scanRequired, maxRetries), reqs[n].vendor, reqs[n].job)
    decreases |reqs|
  {
    hide UploadContract, Stray, Litters;
    var before, last := reqs[..|reqs| - 1], reqs[|reqs| - 1];
    var s1 := UploadAll(s, before, scanRequired, maxRetries);
    if n < |before| {
      StraysStay(s, before, scanRequired, maxRetries, n);
      assert before[n].job != last.job;
      StrayStays(s1, last, scanRequired, maxRetries, reqs[n].vendor, reqs[n].job);
    } else {
      NewToLedger(s, reqs, scanRequired, maxRetries);
      StrayMade(s1, last, scanRequired, maxRetries);
    }
  }

  lemma StrayIsUnowned(s: Shelf, vendor: Uuid, j: Uuid)
    requires Stray(s, vendor, j) && RowsKeyed(s)
    ensures !ObjectsOwned(s)
  {
    hide ObjectKeyFor;
    var key := ObjectKeyFor(vendor, j);
    forall i | i in s.ledger.rows
      ensures s.ledger.rows[i].info.objectKey != key
    {
      if s.ledger.rows[i].info.objectKey == key {
        KeyInjective(s.ledger.rows[i].info.vendorId, i, vendor, j);
      }
    }
  }

  lemma {:induction false} UploadsKeepKeys(s: Shelf, reqs: seq<Request>, scanRequired: bool, maxRetries: nat)
    requires RowsKeyed(s)
    ensures RowsKeyed(UploadAll(s, reqs, scanRequired, maxRetries))
    decreases |reqs|
  {
    hide UploadContract, RowsKeyed;
    if reqs != [] {
      UploadsKeepKeys(s, reqs[..|reqs| - 1], scanRequired, maxRetries);
      UploadKeepsKeys(UploadAll(s, reqs[..|reqs| - 1], scanRequired, maxRetries), reqs[|reqs| - 1], scanRequired, maxRetries);
    }
  }

  lemma {:induction false} TidyUploadsKeep(s: Shelf, reqs: seq<Request>, scanRequired: bool, maxRetries: nat)
    requires ObjectsOwned(s) && RowsKeyed(s) && FreshIds(s, reqs)
    requires forall i :: 0 <= i < |reqs| ==> !Litters(reqs[i])
    ensures ObjectsOwned(UploadAll(s, reqs, scanRequired, maxRetries))
    decreases |reqs|
  {
    hide UploadContract, ObjectsOwned, RowsKeyed, Litters;
    if reqs != [] {
      var before, last := reqs[..|reqs| - 1], reqs[|reqs| - 1];
      TidyUploadsKeep(s, before, scanRequired, maxRetries);
      UploadsKeepKeys(s, before, scanRequired, maxRetries);
      NewToLedger(s, reqs, scanRequired, maxRetries);
      UploadOwnsObjectsIff(UploadAll(s, before, scanRequired, maxRetries), last, scanRequired, maxRetries);
    }
  }

  // The dual of RowObjectIntegrity: after any sequence of uploads with fresh ids every stored
  // PDF is some row's if and only if no put raised after it had stored its PDF, and none that
  // returned was followed by an insert that left no row and a delete that failed.
  lemma ObjectRowIntegrity(s: Shelf, reqs: seq<Request>, scanRequired: bool, maxRetries: nat)
    requires ObjectsOwned(s) && RowsKeyed(s) && FreshIds(s, reqs)
    ensures ObjectsOwned(UploadAll(s, reqs, scanRequired, maxRetries)) <==> forall i :: 0 <= i < |reqs| ==> !Litters(reqs[i])
  {
    hide Litters, UploadAll, FreshIds, ObjectsOwned, RowsKeyed;
    if n :| 0 <= n < |reqs| && Litters(reqs[n]) {
      StraysStay(s, reqs, scanRequired, maxRetries, n);
      UploadsKeepKeys(s, reqs, scanRequired, maxRetries);
      StrayIsUnowned(UploadAll(s, reqs, scanRequired, maxRetries), reqs[n].vendor, reqs[n].job);
    } else {
      TidyUploadsKeep(s, reqs, scanRequired, maxRetries);
    }
  }
}
