// The in-memory job ledger (jobs.py, second half): an insertion-ordered table of
// rows, the append-only attempt history, the reconcile scan and the slot pool.

module Ledger {
  import opened Basics
  import opened Ids
  import opened Jobs

  // A Python dict: keys in insertion order, one row each.
  datatype Table = Table(order: seq<Uuid>, rows: map<Uuid, JobRecord>)

  ghost predicate TableOk(t: Table) {
    && NoDup(t.order)
    && (forall j :: j in t.order <==> j in t.rows)
    && (forall j :: j in t.rows ==> t.rows[j].Id() == j && RowOk(t.rows[j]))
  }

  // Every listed key has a row.
  predicate Listed(t: Table) {
    forall j :: j in t.order ==> j in t.rows
  }

  // `self.jobs[job.job_id] = job`: overwrites blindly, keeps the position of a known key.
  function Put(t: Table, job: JobRecord): Table {
    Table(if job.Id() in t.rows then t.order else t.order + [job.Id()], t.rows[job.Id() := job])
  }

  lemma PutKeepsTable(t: Table, job: JobRecord)
    requires TableOk(t) && RowOk(job)
    ensures TableOk(Put(t, job))
  {
  }

  lemma OneMoreRow(t: Table, id: Uuid, row: JobRecord)
    requires TableOk(t) && id in t.rows && row.Id() == id && RowOk(row)
    ensures TableOk(Table(t.order, t.rows[id := row]))
  {
  }

  lemma RowAt(t: Table, id: Uuid)
    requires TableOk(t) && id in t.rows
    ensures t.rows[id].Id() == id && RowOk(t.rows[id])
  {
  }

  predicate CanClaim(t: Table, id: Uuid) {
    id in t.rows && Claimable(t.rows[id].status)
  }

  function ClaimRow(t: Table, id: Uuid, owner: string, now: nat, leaseSeconds: nat): (Table, Option<JobRecord>) {
    if !CanClaim(t, id) then (t, None)
    else var claimed := Claim(t.rows[id], owner, now, leaseSeconds).job;
         (Table(t.order, t.rows[id := claimed]), Some(claimed))
  }

  // ----- the reconcile scan -----

  // What the scan leaves in a row it visits.
  function Touch(job: JobRecord, now: nat): JobRecord {
    if LeaseExpired(job, now) then ReleaseExpiredLease(job, now).job else job
  }

  // The loop, from the current position on.
  function Scan(order: seq<Uuid>, rows: map<Uuid, JobRecord>, now: nat, limit: nat, found: seq<JobRecord>)
    : (r: (map<Uuid, JobRecord>, seq<JobRecord>))
    requires forall j :: j in order ==> j in rows
  {
    if order == [] then (rows, found)
    else
      var job := Touch(rows[order[0]], now);
      var rows' := rows[order[0] := job];
      var found' := if Claimable(job.status) then found + [job] else found;
      if |found'| >= limit then (rows', found') else Scan(order[1..], rows', now, limit, found')
  }

  function ListCandidates(t: Table, now: nat, limit: nat): (Table, seq<JobRecord>)
    requires Listed(t)
  {
    var (rows, found) := Scan(t.order, t.rows, now, limit, []);
    (Table(t.order, rows), found[..Min(limit, |found|)])
  }

  // Independent specification: every row, in insertion order, that is claimable or
  // becomes so by expiry.
  function Ready(order: seq<Uuid>, rows: map<Uuid, JobRecord>, now: nat): (r: seq<JobRecord>)
    requires forall j :: j in order ==> j in rows
    ensures forall x :: x in r ==> Claimable(x.status)
  {
    if order == [] then []
    else
      var job := Touch(rows[order[0]], now);
      (if Claimable(job.status) then [job] else []) + Ready(order[1..], rows, now)
  }

  lemma {:induction false} ReadyFrame(order: seq<Uuid>, rows: map<Uuid, JobRecord>, rows': map<Uuid, JobRecord>, now: nat)
    requires forall j :: j in order ==> j in rows && j in rows' && Touch(rows[j], now) == Touch(rows'[j], now)
    ensures Ready(order, rows, now) == Ready(order, rows', now)
  {
    if order != [] {
      ReadyFrame(order[1..], rows, rows', now);
    }
  }

  lemma {:induction false} ReadyMembers(order: seq<Uuid>, rows: map<Uuid, JobRecord>, now: nat)
    requires forall j :: j in order ==> j in rows && rows[j].Id() == j
    ensures forall x :: x in Ready(order, rows, now) <==> x.Id() in order && x == Touch(rows[x.Id()], now) && Claimable(x.status)
  {
    if order != [] {
      ReadyMembers(order[1..], rows, now);
    }
  }

  lemma {:induction false} ReadyNoDup(order: seq<Uuid>, rows: map<Uuid, JobRecord>, now: nat)
    requires NoDup(order)
    requires forall j :: j in order ==> j in rows && rows[j].Id() == j
    ensures NoDup(Ready(order, rows, now))
  {
    if order != [] {
      ReadyNoDup(order[1..], rows, now);
      ReadyMembers(order[1..], rows, now);
      assert order[0] !in order[1..];
    }
  }

  lemma ReadyStep(order: seq<Uuid>, rows: map<Uuid, JobRecord>, now: nat)
    requires order != [] && forall j :: j in order ==> j in rows
    ensures var job := Touch(rows[order[0]], now);
            Ready(order, rows, now) == (if Claimable(job.status) then [job] else []) + Ready(order[1..], rows, now)
  {
  }

  lemma {:induction false} ReadyAppend(a: seq<Uuid>, b: seq<Uuid>, rows: map<Uuid, JobRecord>, now: nat)
    requires forall j :: j in a + b ==> j in rows
    ensures (forall j :: j in a ==> j in rows) && (forall j :: j in b ==> j in rows)
    ensures Ready(a + b, rows, now) == Ready(a, rows, now) + Ready(b, rows, now)
  {
    assert forall j :: j in a ==> j in a + b;
    assert forall j :: j in b ==> j in a + b;
    if a == [] {
      assert a + b == b;
    } else {
      assert (a + b)[1..] == a[1..] + b && (a + b)[0] == a[0];
      ReadyAppend(a[1..], b, rows, now);
      hide Touch, Ready;
      var job := Touch(rows[a[0]], now);
      var first := if Claimable(job.status) then [job] else [];
      ReadyStep(a, rows, now);
      ReadyStep(a + b, rows, now);
      Regroup(first, Ready(a[1..], rows, now), Ready(b, rows, now));
    }
  }

  // How many rows the scan visits when `want` more candidates complete the batch.
  function Visited(order: seq<Uuid>, rows: map<Uuid, JobRecord>, now: nat, want: int): (v: nat)
    requires forall j :: j in order ==> j in rows
    ensures v <= |order|
  {
    if order == [] then 0
    else
      var left := if Claimable(Touch(rows[order[0]], now).status) then want - 1 else want;
      if left <= 0 then 1 else 1 + Visited(order[1..], rows, now, left)
  }

  lemma {:induction false} VisitedFrame(order: seq<Uuid>, rows: map<Uuid, JobRecord>, rows': map<Uuid, JobRecord>,
                                        now: nat, want: int)
    requires forall j :: j in order ==> j in rows && j in rows' && Touch(rows[j], now) == Touch(rows'[j], now)
    ensures Visited(order, rows, now, want) == Visited(order, rows', now, want)
  {
    if order != [] {
      var left := if Claimable(Touch(rows[order[0]], now).status) then want - 1 else want;
      VisitedFrame(order[1..], rows, rows', now, left);
    }
  }

  // The scan stops at the row that completes the batch, or at the end of the table.
  lemma {:induction false} VisitedIsLeast(order: seq<Uuid>, rows: map<Uuid, JobRecord>, now: nat, want: int, k: nat)
    requires forall j :: j in order ==> j in rows
    requires 0 < k <= |order|
    ensures var v := Visited(order, rows, now, want);
            && (k < v ==> |Ready(order[..k], rows, now)| < want)
            && (k == v < |order| ==> |Ready(order[..k], rows, now)| >= want)
  {
    var left := if Claimable(Touch(rows[order[0]], now).status) then want - 1 else want;
    assert order[..k][1..] == order[1..][..k - 1];
    if left > 0 && k > 1 {
      VisitedIsLeast(order[1..], rows, now, left, k - 1);
    }
  }

  // The scan replaces exactly the visited rows by what a visit leaves of them.
  lemma {:induction false} ScanTouches(order: seq<Uuid>, rows: map<Uuid, JobRecord>, now: nat, limit: nat,
                                       found: seq<JobRecord>)
    requires NoDup(order) && forall j :: j in order ==> j in rows
    ensures var (v, rows') := (Visited(order, rows, now, limit - |found|), Scan(order, rows, now, limit, found).0);
            && rows'.Keys == rows.Keys
            && (forall i :: 0 <= i < v ==> rows'[order[i]] == Touch(rows[order[i]], now))
            && (forall i :: v <= i < |order| ==> rows'[order[i]] == rows[order[i]])
            && (forall j :: j in rows && j !in order ==> rows'[j] == rows[j])
  {
    if order != [] {
      var job := Touch(rows[order[0]], now);
      var rows1 := rows[order[0] := job];
      var found1 := if Claimable(job.status) then found + [job] else found;
      var tail := order[1..];
      forall i | 0 < i < |order|
        ensures order[i] == tail[i - 1] && order[i] != order[0] && rows1[order[i]] == rows[order[i]]
      {
      }
      if |found1| < limit {
        ScanTouches(tail, rows1, now, limit, found1);
        VisitedFrame(tail, rows, rows1, now, limit - |found1|);
      }
    }
  }

  lemma {:induction false} ScanFinds(order: seq<Uuid>, rows: map<Uuid, JobRecord>, now: nat, limit: nat,
                                     found: seq<JobRecord>)
    requires NoDup(order) && forall j :: j in order ==> j in rows
    requires |found| < limit
    ensures var all := found + Ready(order, rows, now);
            Scan(order, rows, now, limit, found).1 == all[..Min(limit, |all|)]
  {
    if order != [] {
      var job := Touch(rows[order[0]], now);
      var rows1 := rows[order[0] := job];
      var found1 := if Claimable(job.status) then found + [job] else found;
      assert order[0] !in order[1..];
      ReadyFrame(order[1..], rows, rows1, now);
      assert found + Ready(order, rows, now) == found1 + Ready(order[1..], rows, now);
      if |found1| < limit {
        ScanFinds(order[1..], rows1, now, limit, found1);
      }
    }
  }

  // For any limit the candidates are the first `limit` ready rows in insertion
  // order, and the only change is that expired leases among the visited rows are released.
  lemma CandidatesAreFirstReady(t: Table, now: nat, limit: nat)
    requires TableOk(t)
    ensures var ready := Ready(t.order, t.rows, now);
            var v := Visited(t.order, t.rows, now, limit);
            var (t', candidates) := ListCandidates(t, now, limit);
            && candidates == ready[..Min(limit, |ready|)]
            && t'.order == t.order && t'.rows.Keys == t.rows.Keys
            && (forall i :: 0 <= i < v ==> t'.rows[t.order[i]] == Touch(t.rows[t.order[i]], now))
            && (forall i :: v <= i < |t.order| ==> t'.rows[t.order[i]] == t.rows[t.order[i]])
  {
    hide Touch, RowOk, Ready, Visited, Scan;
    ScanTouches(t.order, t.rows, now, limit, []);
    if limit > 0 {
      ScanFinds(t.order, t.rows, now, limit, []);
      assert [] + Ready(t.order, t.rows, now) == Ready(t.order, t.rows, now);
    }
  }

  // A found row is the row the ledger now holds.
  lemma {:induction false} ScanFoundRows(order: seq<Uuid>, rows: map<Uuid, JobRecord>, now: nat, limit: nat,
                                         found: seq<JobRecord>)
    requires NoDup(order) && forall j :: j in order ==> j in rows && rows[j].Id() == j
    requires forall f :: f in found ==> f.Id() !in order && f.Id() in rows && rows[f.Id()] == f && Claimable(f.status)
    ensures var (rows', found') := Scan(order, rows, now, limit, found);
            forall f :: f in found' ==> f.Id() in rows' && rows'[f.Id()] == f && Claimable(f.status)
  {
    if order != [] {
      var job := Touch(rows[order[0]], now);
      var rows1 := rows[order[0] := job];
      var found1 := if Claimable(job.status) then found + [job] else found;
      assert order[0] !in order[1..];
      if |found1| < limit {
        ScanFoundRows(order[1..], rows1, now, limit, found1);
      }
    }
  }

  // What other proofs need of the scan, row by row.
  lemma CandidateFacts(t: Table, now: nat, limit: nat)
    requires TableOk(t)
    ensures var (t', candidates) := ListCandidates(t, now, limit);
            && TableOk(t') && t'.order == t.order && t'.rows.Keys == t.rows.Keys
            && (forall j :: j in t.rows ==> t'.rows[j] == t.rows[j] || t'.rows[j] == Touch(t.rows[j], now))
            && (forall c :: c in candidates ==> c.Id() in t'.rows && t'.rows[c.Id()] == c && Claimable(c.status))
            && |candidates| <= limit
  {
    ScanTouches(t.order, t.rows, now, limit, []);
    ScanFoundRows(t.order, t.rows, now, limit, []);
    var t' := ListCandidates(t, now, limit).0;
    forall j | j in t.rows
      ensures t'.rows[j] == t.rows[j] || t'.rows[j] == Touch(t.rows[j], now)
    {
      var i :| 0 <= i < |t.order| && t.order[i] == j;
    }
    forall j | j in t.rows
      ensures t'.rows[j].Id() == j && RowOk(t'.rows[j])
    {
      TouchKeepsRow(t.rows[j], now);
    }
  }

  lemma TouchKeepsRow(job: JobRecord, now: nat)
    requires RowOk(job)
    ensures RowOk(Touch(job, now)) && job.info == Touch(job, now).info
    ensures Touch(job, now).attemptCount == job.attemptCount
    ensures Touch(job, now) != job ==> Allowed(job.status, Touch(job, now).status)
  {
  }

  // Scanning twice at the same moment is scanning once.
  lemma {:induction false} ScanAgain(order: seq<Uuid>, rows: map<Uuid, JobRecord>, now: nat, limit: nat, found: seq<JobRecord>)
    requires NoDup(order) && forall j :: j in order ==> j in rows
    ensures var (rows', found') := Scan(order, rows, now, limit, found);
            && rows'.Keys == rows.Keys
            && (forall j :: j in rows && j !in order ==> rows'[j] == rows[j])
            && Scan(order, rows', now, limit, found) == (rows', found')
  {
    if order != [] {
      var job := Touch(rows[order[0]], now);
      var rows1 := rows[order[0] := job];
      var found1 := if Claimable(job.status) then found + [job] else found;
      var (rows', found') := Scan(order, rows, now, limit, found);
      assert order[0] !in order[1..];
      if |found1| < limit {
        ScanAgain(order[1..], rows1, now, limit, found1);
      }
      assert rows'[order[0]] == job == Touch(job, now);
      assert rows'[order[0] := job] == rows';
    }
  }

  lemma ScanNothing(rows: map<Uuid, JobRecord>, now: nat, limit: nat, found: seq<JobRecord>)
    ensures Scan([], rows, now, limit, found) == (rows, found)
  {
  }

  lemma ScanRow(order: seq<Uuid>, rows: map<Uuid, JobRecord>, now: nat, limit: nat, found: seq<JobRecord>, i: nat)
    requires i < |order| && forall j :: j in order ==> j in rows
    ensures var job := Touch(rows[order[i]], now);
            var (rows', found') := (rows[order[i] := job], if Claimable(job.status) then found + [job] else found);
            Scan(order[i..], rows, now, limit, found)
            == if |found'| >= limit then (rows', found') else Scan(order[i + 1..], rows', now, limit, found')
  {
    assert order[i..][1..] == order[i + 1..];
  }

  // ----- the slot pool -----

  function LeastFree(held: set<nat>, from: nat, slots: nat): (r: Option<nat>)
    requires from <= slots
    ensures match r
            case Some(s) => from <= s < slots && s !in held && forall k :: from <= k < s ==> k in held
            case None => forall k :: from <= k < slots ==> k in held
    decreases slots - from
  {
    if from == slots then None
    else if from !in held then Some(from)
    else LeastFree(held, from + 1, slots)
  }

  // ----- the attempt history -----

  function AttemptNumbers(attempts: seq<JobAttempt>, id: Uuid): seq<nat> {
    if attempts == [] then []
    else
      var last := attempts[|attempts| - 1];
      AttemptNumbers(attempts[..|attempts| - 1], id) + (if last.jobId == id then [last.attemptNumber] else [])
  }

  lemma AttemptNumbersAppend(attempts: seq<JobAttempt>, a: JobAttempt, id: Uuid)
    ensures AttemptNumbers(attempts + [a], id) == AttemptNumbers(attempts, id) + (if a.jobId == id then [a.attemptNumber] else [])
  {
    assert (attempts + [a])[..|attempts|] == attempts;
  }

  // ----- the class -----

  class InMemoryJobRepository {
    var jobs: Table
    var attempts: seq<JobAttempt>
    const slots: nat
    var held: map<nat, bool>

    ghost function Held(): set<nat>
      reads this
    {
      set s | s in held && held[s]
    }

    constructor (inferenceSlots: nat)
      ensures jobs == Table([], map[]) && attempts == [] && slots == inferenceSlots && Held() == {}
    {
      jobs, attempts, slots, held := Table([], map[]), [], inferenceSlots, map[];
    }

    // The ValueError for a known id is the answer false.
    method Insert(job: JobRecord) returns (ok: bool)
      modifies this`jobs
      ensures ok == (job.Id() !in old(jobs).rows)
      ensures jobs == if ok then Put(old(jobs), job) else old(jobs)
      ensures ok ==> jobs.order == old(jobs).order + [job.info.jobId] && jobs.rows == old(jobs).rows[job.info.jobId := job]
    {
      if job.Id() in jobs.rows {
        return false;
      }
      jobs := Table(jobs.order + [job.Id()], jobs.rows[job.Id() := job]);
      return true;
    }

    method Save(job: JobRecord)
      modifies this`jobs
      ensures jobs == Put(old(jobs), job)
      ensures jobs.rows == old(jobs).rows[job.info.jobId := job]
      ensures jobs.order == old(jobs).order + (if job.info.jobId in old(jobs).rows then [] else [job.info.jobId])
    {
      jobs := Put(jobs, job);
    }

    method ClaimJob(id: Uuid, owner: string, now: nat, leaseSeconds: nat) returns (claimed: Option<JobRecord>)
      modifies this`jobs
      ensures (jobs, claimed) == ClaimRow(old(jobs), id, owner, now, leaseSeconds)
      ensures claimed.Some? <==> id in old(jobs).rows && (old(jobs).rows[id].status.Accepted? || old(jobs).rows[id].status.Retry?)
      ensures claimed.None? ==> jobs == old(jobs)
      ensures claimed.Some? ==>
                && jobs == Table(old(jobs).order, old(jobs).rows[id := claimed.value])
                && claimed.value == JobRecord(old(jobs).rows[id].info, Running, old(jobs).rows[id].attemptCount + 1, Some(owner),
                                              Some(now + leaseSeconds), old(jobs).rows[id].resultSummary, now)
    {
      if id !in jobs.rows || !Claimable(jobs.rows[id].status) {
        return None;
      }
      claimed := Some(Claim(jobs.rows[id], owner, now, leaseSeconds).job);
      jobs := Table(jobs.order, jobs.rows[id := claimed.value]);
    }

    method RecordAttempt(a: JobAttempt)
      modifies this`attempts
      ensures attempts == old(attempts) + [a]
    {
      attempts := attempts + [a];
    }

    method ListReconcileCandidates(now: nat, limit: nat) returns (candidates: seq<JobRecord>)
      requires TableOk(jobs)
      modifies this`jobs
      ensures (jobs, candidates) == ListCandidates(old(jobs), now, limit)
    {
      hide RowOk, Scan, NoDup;
      candidates := [];
      var i := 0;
      ghost var goal := Scan(jobs.order, jobs.rows, now, limit, []);
      while i < |jobs.order|
        invariant 0 <= i <= |jobs.order|
        invariant jobs.order == old(jobs).order && jobs.rows.Keys == old(jobs).rows.Keys
        invariant forall k :: i <= k < |jobs.order| ==> jobs.rows[jobs.order[k]].Id() == jobs.order[k]
        invariant Scan(jobs.order[i..], jobs.rows, now, limit, candidates) == goal
      {
        var job := jobs.rows[jobs.order[i]];
        ScanRow(jobs.order, jobs.rows, now, limit, candidates, i);
        if Claimable(job.status) {
          candidates := candidates + [job];
          assert jobs.rows[jobs.order[i] := job] == jobs.rows;
        } else if job.status.Running? && job.leaseExpiresAt.Some? && job.leaseExpiresAt.value <= now {
          var released := ReleaseExpiredLease(job, now).job;
          jobs := Table(jobs.order, jobs.rows[job.Id() := released]);
          if Claimable(released.status) {
            candidates := candidates + [released];
          }
        } else {
          assert jobs.rows[jobs.order[i] := job] == jobs.rows;
        }
        i := i + 1;
        if |candidates| >= limit {
          break;
        }
      }
      ScanNothing(jobs.rows, now, limit, candidates);
      assert i == |jobs.order| ==> jobs.order[i..] == [];
      assert (jobs.rows, candidates) == goal;
      candidates := candidates[..Min(limit, |candidates|)];
    }

    method AcquireInferenceSlot() returns (slot: Option<nat>)
      modifies this`held
      ensures slot == LeastFree(old(Held()), 0, slots)
      ensures Held() == old(Held()) + (if slot.Some? then {slot.value} else {})
    {
      var s := 0;
      while s < slots
        invariant 0 <= s <= slots && held == old(held)
        invariant LeastFree(Held(), s, slots) == LeastFree(Held(), 0, slots)
      {
        if !(s in held && held[s]) {
          held := held[s := true];
          return Some(s);
        }
        s := s + 1;
      }
      return None;
    }

    method ReleaseInferenceSlot(slot: nat)
      modifies this`held
      ensures Held() == old(Held()) - {slot}
    {
      held := held[slot := false];
    }
  }
}
