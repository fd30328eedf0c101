// What a sequence of uploads leaves in the ledger and the queue: one row per inserted
// request, in the order of the requests, and the order in which reconciling wakes them.

module Arrivals {
  import opened Basics
  import opened Ids
  import opened Jobs
  import opened Queue
  import opened Ledger
  import opened Reconcile
  import opened Storage
  import opened Uploads

  // The ids of the requests whose rows are inserted, in request order ..
  function Inserted(reqs: seq<Request>): seq<Uuid> {
    if reqs == [] then []
    else
      var last := reqs[|reqs| - 1];
      Inserted(reqs[..|reqs| - 1]) + (if last.put.Succeeds? && !last.insert.RaisesBefore? then [last.job] else [])
  }

  // .. and of those that are also offered to the queue when no scan is required.
  function Announced(reqs: seq<Request>): seq<Uuid> {
    if reqs == [] then []
    else
      var last := reqs[|reqs| - 1];
      Announced(reqs[..|reqs| - 1]) + (if last.put.Succeeds? && last.insert.Succeeds? && !last.queueDown then [last.job] else [])
  }

  lemma {:induction false} InsertedIs(reqs: seq<Request>, j: Uuid)
    ensures j in Inserted(reqs) <==>
            exists i :: 0 <= i < |reqs| && reqs[i].job == j && reqs[i].put.Succeeds? && !reqs[i].insert.RaisesBefore?
  {
    if reqs != [] {
      var before := reqs[..|reqs| - 1];
      InsertedIs(before, j);
      if i :| 0 <= i < |reqs| && reqs[i].job == j && reqs[i].put.Succeeds? && !reqs[i].insert.RaisesBefore? {
        assert i < |before| ==> before[i] == reqs[i];
      }
      if j in Inserted(before) {
        var i :| 0 <= i < |before| && before[i].job == j && before[i].put.Succeeds? && !before[i].insert.RaisesBefore?;
        assert reqs[i] == before[i];
      }
    }
  }

  // ----- the ledger -----

  // The table gets the ids of the inserted requests in request order, behind what it had.
  lemma {:induction false} UploadsInOrder(s: Shelf, reqs: seq<Request>, scanRequired: bool, maxRetries: nat)
    requires FreshIds(s, reqs)
    ensures UploadAll(s, reqs, scanRequired, maxRetries).ledger.order == s.ledger.order + Inserted(reqs)
    decreases |reqs|
  {
    if reqs == [] {
      assert s.ledger.order + [] == s.ledger.order;
    } else {
      var before, last := reqs[..|reqs| - 1], reqs[|reqs| - 1];
      UploadsInOrder(s, before, scanRequired, maxRetries);
      NewToLedger(s, reqs, scanRequired, maxRetries);
      UploadOrder(UploadAll(s, before, scanRequired, maxRetries), last, scanRequired, maxRetries);
      Regroup(s.ledger.order, Inserted(before), if last.put.Succeeds? && !last.insert.RaisesBefore? then [last.job] else []);
    }
  }

  lemma UploadOrder(s: Shelf, req: Request, scanRequired: bool, maxRetries: nat)
    requires req.job !in s.ledger.rows
    ensures UploadContract(s, req, scanRequired, maxRetries).ledger.order
         == s.ledger.order + (if req.put.Succeeds? && !req.insert.RaisesBefore? then [req.job] else [])
  {
    hide ObjectKeyFor;
    assert s.ledger.order + [] == s.ledger.order;
  }

  // The row of an inserted request, field by field.
  function NewRow(req: Request, scanRequired: bool, maxRetries: nat): JobRecord {
    JobRecord(JobInfo(req.vendor, req.job, "vendors/" + Text(req.vendor) + "/jobs/" + Text(req.job) + "/source.pdf", maxRetries,
                      Text(req.vendor) + ":" + Text(req.job), req.filename, Some(req.sha256), req.now),
              if scanRequired then Quarantined else Accepted, 0, None, None, None, req.now)
  }

  lemma UploadRow(s: Shelf, req: Request, scanRequired: bool, maxRetries: nat)
    ensures var rows, rows' := s.ledger.rows, UploadContract(s, req, scanRequired, maxRetries).ledger.rows;
            rows' == if req.put.Succeeds? && !req.insert.RaisesBefore? && req.job !in rows
                     then rows[req.job := NewRow(req, scanRequired, maxRetries)] else rows
  {
    assert ObjectKeyFor(req.vendor, req.job) == "vendors/" + Text(req.vendor) + "/jobs/" + Text(req.job) + "/source.pdf";
  }

  // Rows there before stay as they are.
  lemma {:induction false} OldRowsStay(s: Shelf, reqs: seq<Request>, scanRequired: bool, maxRetries: nat, j: Uuid)
    requires j in s.ledger.rows
    ensures var rows := UploadAll(s, reqs, scanRequired, maxRetries).ledger.rows; j in rows && rows[j] == s.ledger.rows[j]
    decreases |reqs|
  {
    hide UploadContract;
    if reqs != [] {
      var before := reqs[..|reqs| - 1];
      OldRowsStay(s, before, scanRequired, maxRetries, j);
      UploadRow(UploadAll(s, before, scanRequired, maxRetries), reqs[|reqs| - 1], scanRequired, maxRetries);
    }
  }

  // Each request has a row exactly if it was inserted: quarantined if a scan is required, else
  // accepted, without an attempt, a lease or a summary, and named after its vendor and job.
  lemma {:induction false} RowOfRequest(s: Shelf, reqs: seq<Request>, scanRequired: bool, maxRetries: nat, i: nat)
    requires FreshIds(s, reqs) && i < |reqs|
    ensures var (req, rows) := (reqs[i], UploadAll(s, reqs, scanRequired, maxRetries).ledger.rows);
            && (req.job in rows <==> req.put.Succeeds? && !req.insert.RaisesBefore?)
            && (req.job in rows ==> rows[req.job] == NewRow(req, scanRequired, maxRetries))
    decreases |reqs|
  {
    hide UploadContract, NewRow;
    var before, last := reqs[..|reqs| - 1], reqs[|reqs| - 1];
    UploadRow(UploadAll(s, before, scanRequired, maxRetries), last, scanRequired, maxRetries);
    NewToLedger(s, reqs, scanRequired, maxRetries);
    if i < |before| {
      RowOfRequest(s, before, scanRequired, maxRetries, i);
      assert before[i].job != last.job;
    }
  }

  lemma {:induction false} UploadsKeepTable(s: Shelf, reqs: seq<Request>, scanRequired: bool, maxRetries: nat)
    requires TableOk(s.ledger)
    ensures TableOk(UploadAll(s, reqs, scanRequired, maxRetries).ledger)
    decreases |reqs|
  {
    hide UploadContract, TableOk;
    if reqs != [] {
      UploadsKeepTable(s, reqs[..|reqs| - 1], scanRequired, maxRetries);
      UploadKeepsTable(UploadAll(s, reqs[..|reqs| - 1], scanRequired, maxRetries), reqs[|reqs| - 1], scanRequired, maxRetries);
    }
  }

  lemma UploadKeepsTable(s: Shelf, req: Request, scanRequired: bool, maxRetries: nat)
    requires TableOk(s.ledger)
    ensures TableOk(UploadContract(s, req, scanRequired, maxRetries).ledger)
  {
    hide TableOk, ObjectKeyFor, RowOk, Put;
    NewRowOk(req, scanRequired, maxRetries);
    PutKeepsTable(s.ledger, RowFor(req, scanRequired, maxRetries));
  }

  // ----- the queue -----

  // With a scan required no upload offers anything to the queue; without, the queue gets the
  // announced ids in request order.
  lemma {:induction false} UploadsQueue(s: Shelf, reqs: seq<Request>, scanRequired: bool, maxRetries: nat)
    requires FreshIds(s, reqs) && forall i :: 0 <= i < |reqs| ==> !Holds(s.queue, reqs[i].job)
    ensures UploadAll(s, reqs, scanRequired, maxRetries).queue
         == Wake(s.queue.pending + (if scanRequired then [] else Announced(reqs)), s.queue.processing)
    decreases |reqs|
  {
    hide UploadContract;
    if reqs == [] {
      assert s.queue.pending + [] == s.queue.pending;
    } else {
      var before, last := reqs[..|reqs| - 1], reqs[|reqs| - 1];
      UploadsQueue(s, before, scanRequired, maxRetries);
      NewToLedger(s, reqs, scanRequired, maxRetries);
      NotAnnounced(before, last.job);
      UploadQueue(UploadAll(s, before, scanRequired, maxRetries), last, scanRequired, maxRetries);
      Regroup(s.queue.pending, Announced(before), if last.put.Succeeds? && last.insert.Succeeds? && !last.queueDown then [last.job] else []);
    }
  }

  lemma UploadQueue(s: Shelf, req: Request, scanRequired: bool, maxRetries: nat)
    requires req.job !in s.ledger.rows && (scanRequired || !Holds(s.queue, req.job))
    ensures UploadContract(s, req, scanRequired, maxRetries).queue
         == if !scanRequired && req.put.Succeeds? && req.insert.Succeeds? && !req.queueDown
            then s.queue.(pending := s.queue.pending + [req.job]) else s.queue
  {
    hide ObjectKeyFor;
  }

  lemma {:induction false} NotAnnounced(reqs: seq<Request>, j: Uuid)
    requires forall i :: 0 <= i < |reqs| ==> reqs[i].job != j
    ensures j !in Announced(reqs)
  {
    if reqs != [] {
      NotAnnounced(reqs[..|reqs| - 1], j);
    }
  }

  // ----- reconciling after the queue is lost -----

  lemma {:induction false} ReadyIsAll(ids: seq<Uuid>, rows: map<Uuid, JobRecord>, now: nat, waiting: bool)
    requires forall j :: j in ids ==> j in rows && rows[j].Id() == j
    requires forall j :: j in ids ==> if waiting then rows[j].status.Accepted? else rows[j].status.Quarantined?
    ensures JobIds(Ready(ids, rows, now)) == if waiting then ids else []
  {
    if ids != [] {
      ReadyIsAll(ids[1..], rows, now, waiting);
      var rest := Ready(ids[1..], rows, now);
      assert JobIds([rows[ids[0]]] + rest) == [ids[0]] + JobIds(rest);
    }
  }

  // The ready rows after the uploads: those there before, then the uploads in their order.
  lemma ReadyAfterUploads(s: Shelf, reqs: seq<Request>, scanRequired: bool, maxRetries: nat, now: nat)
    requires TableOk(s.ledger) && FreshIds(s, reqs)
    ensures var t := UploadAll(s, reqs, scanRequired, maxRetries).ledger;
            && TableOk(t)
            && JobIds(Ready(t.order, t.rows, now))
               == JobIds(Ready(s.ledger.order, s.ledger.rows, now)) + if scanRequired then [] else Inserted(reqs)
  {
    hide UploadAll, RowOk, Touch, FreshIds;
    var t, ids := UploadAll(s, reqs, scanRequired, maxRetries).ledger, Inserted(reqs);
    UploadsKeepTable(s, reqs, scanRequired, maxRetries);
    UploadsInOrder(s, reqs, scanRequired, maxRetries);
    ReadyAppend(s.ledger.order, ids, t.rows, now);
    forall j | j in s.ledger.order
      ensures t.rows[j] == s.ledger.rows[j]
    {
      OldRowsStay(s, reqs, scanRequired, maxRetries, j);
    }
    ReadyFrame(s.ledger.order, s.ledger.rows, t.rows, now);
    forall j | j in ids
      ensures if scanRequired then t.rows[j].status.Quarantined? else t.rows[j].status.Accepted?
    {
      InsertedIs(reqs, j);
      var i :| 0 <= i < |reqs| && reqs[i].job == j && reqs[i].put.Succeeds? && !reqs[i].insert.RaisesBefore?;
      RowOfRequest(s, reqs, scanRequired, maxRetries, i);
    }
    ReadyIsAll(ids, t.rows, now, !scanRequired);
    IdsAppend(Ready(s.ledger.order, s.ledger.rows, now), Ready(ids, t.rows, now));
  }

  lemma IdsAppend(a: seq<JobRecord>, b: seq<JobRecord>)
    ensures JobIds(a + b) == JobIds(a) + JobIds(b)
  {
  }

  // When the whole queue is lost after the uploads, one pass wakes the first `limit` of the rows
  // that were ready before, oldest first, and then of the uploads, in the order they came in.
  lemma OldestUploadsWoken(s: Shelf, reqs: seq<Request>, scanRequired: bool, maxRetries: nat, now: nat, limit: nat)
    requires TableOk(s.ledger) && FreshIds(s, reqs)
    ensures var t := UploadAll(s, reqs, scanRequired, maxRetries).ledger;
            var waking := JobIds(Ready(s.ledger.order, s.ledger.rows, now)) + if scanRequired then [] else Inserted(reqs);
            && TableOk(t)
            && ReconcileOnce(t, Wake([], {}), now, limit).1 == Wake(waking[..Min(limit, |waking|)], {})
  {
    hide UploadAll, RowOk, Touch, FreshIds, Ready, JobIds, ReconcileOnce;
    var t := UploadAll(s, reqs, scanRequired, maxRetries).ledger;
    ReadyAfterUploads(s, reqs, scanRequired, maxRetries, now);
    PassAppends(t, Wake([], {}), now, limit);
    var waking := JobIds(Ready(t.order, t.rows, now));
    SameCount(Ready(t.order, t.rows, now));
    UnheldAll(Wake([], {}), waking[..Min(limit, |waking|)]);
    assert [] + waking[..Min(limit, |waking|)] == waking[..Min(limit, |waking|)];
  }

  lemma SameCount(jobs: seq<JobRecord>)
    ensures |JobIds(jobs)| == |jobs|
  {
  }
}
