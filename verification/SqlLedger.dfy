// The PostgreSQL reconcile scan (jobs_sql.py) as table operations: one query that
// selects expired rows, a loop that releases them, a second query in update order.

module SqlLedger {
  import opened Basics
  import opened Ids
  import opened Jobs
  import opened Ledger

  // SELECT .. WHERE status = 'running' AND lease_expires_at <= now LIMIT limit:
  // some rows, in any order.
  ghost predicate AnswersExpired(rows: map<Uuid, JobRecord>, now: nat, limit: nat, answer: seq<Uuid>) {
    && NoDup(answer) && |answer| <= limit
    && (forall j :: j in answer ==> j in rows && LeaseExpired(rows[j], now))
    && (|answer| == limit || forall j :: j in rows && LeaseExpired(rows[j], now) ==> j in answer)
  }

  // SELECT .. WHERE status IN ('accepted','retry') ORDER BY updated_at ASC LIMIT limit.
  ghost predicate AnswersClaimable(rows: map<Uuid, JobRecord>, limit: nat, answer: seq<JobRecord>) {
    && NoDup(answer) && |answer| <= limit
    && (forall r :: r in answer ==> r.Id() in rows && rows[r.Id()] == r && Claimable(r.status))
    && (forall i, k :: 0 <= i < k < |answer| ==> answer[i].updatedAt <= answer[k].updatedAt)
    && (forall j :: j in rows && Claimable(rows[j].status) && rows[j] !in answer ==>
          |answer| == limit && forall r :: r in answer ==> r.updatedAt <= rows[j].updatedAt)
  }

  // The rows after the expiry loop.
  ghost function ReleaseAll(rows: map<Uuid, JobRecord>, now: nat, expired: seq<Uuid>): (r: map<Uuid, JobRecord>)
    ensures r.Keys == rows.Keys
  {
    map j | j in rows :: if j in expired then Touch(rows[j], now) else rows[j]
  }

  // Rows by age, oldest first; what ORDER BY updated_at does with them.
  function InsertByAge(r: JobRecord, s: seq<JobRecord>): (t: seq<JobRecord>)
    ensures |t| == |s| + 1 && forall x :: x in t <==> x == r || x in s
  {
    if s == [] then [r]
    else if r.updatedAt <= s[0].updatedAt then [r] + s
    else [s[0]] + InsertByAge(r, s[1..])
  }

  function ByAge(s: seq<JobRecord>): (t: seq<JobRecord>)
    ensures |t| == |s| && forall x :: x in t <==> x in s
  {
    if s == [] then [] else InsertByAge(s[0], ByAge(s[1..]))
  }

  ghost predicate Aged(s: seq<JobRecord>) {
    forall i, k :: 0 <= i < k < |s| ==> s[i].updatedAt <= s[k].updatedAt
  }

  lemma {:induction false} InsertKeepsAge(r: JobRecord, s: seq<JobRecord>)
    requires Aged(s) && NoDup(s) && r !in s
    ensures Aged(InsertByAge(r, s)) && NoDup(InsertByAge(r, s))
  {
    if s != [] && r.updatedAt > s[0].updatedAt {
      InsertKeepsAge(r, s[1..]);
      var t := InsertByAge(r, s[1..]);
      forall k | 0 <= k < |t|
        ensures s[0].updatedAt <= t[k].updatedAt && s[0] != t[k]
      {
        assert t[k] in t;
      }
    }
  }

  lemma {:induction false} ByAgeFacts(s: seq<JobRecord>)
    requires NoDup(s)
    ensures Aged(ByAge(s)) && NoDup(ByAge(s))
  {
    if s != [] {
      ByAgeFacts(s[1..]);
      assert s[0] !in s[1..];
      InsertKeepsAge(s[0], ByAge(s[1..]));
    }
  }

  // The claimable rows, each once.
  ghost predicate ListsClaimable(rows: map<Uuid, JobRecord>, list: seq<JobRecord>) {
    && NoDup(list)
    && (forall r :: r in list ==> r.Id() in rows && rows[r.Id()] == r && Claimable(r.status))
    && (forall j :: j in rows && Claimable(rows[j].status) ==> rows[j] in list)
  }

  lemma TakeOldest(s: seq<JobRecord>, n: nat)
    requires Aged(s) && NoDup(s) && n <= |s|
    ensures Aged(s[..n]) && NoDup(s[..n])
    ensures forall r :: r in s[..n] ==> r in s
    ensures n == |s| ==> s[..n] == s
    ensures forall r, x :: r in s[..n] && x in s && x !in s[..n] ==> r.updatedAt <= x.updatedAt
  {
    TakeHas(s, n);
    forall r, x | r in s[..n] && x in s && x !in s[..n]
      ensures r.updatedAt <= x.updatedAt
    {
      var i :| 0 <= i < n && s[..n][i] == r;
      var k :| 0 <= k < |s| && s[k] == x;
    }
  }

  // The oldest of them answer the second query.
  lemma OldestAnswer(rows: map<Uuid, JobRecord>, list: seq<JobRecord>, limit: nat)
    requires ListsClaimable(rows, list)
    ensures var oldest := ByAge(list)[..Min(limit, |list|)];
            && AnswersClaimable(rows, limit, oldest)
            && (forall r, x :: r in oldest && x in list && x !in oldest ==> r.updatedAt <= x.updatedAt)
  {
    hide ByAge, AnswersClaimable, ListsClaimable, NoDup, Aged;
    ListsOnce(rows, list);
    ByAgeFacts(list);
    var n := Min(limit, |list|);
    TakeOldest(ByAge(list), n);
    SortedAnswers(rows, list, ByAge(list)[..n], limit);
  }

  lemma ListsOnce(rows: map<Uuid, JobRecord>, list: seq<JobRecord>)
    requires ListsClaimable(rows, list)
    ensures NoDup(list)
  {
  }

  lemma SortedAnswers(rows: map<Uuid, JobRecord>, list: seq<JobRecord>, oldest: seq<JobRecord>, limit: nat)
    requires ListsClaimable(rows, list) && Aged(oldest) && NoDup(oldest) && |oldest| <= limit
    requires forall r :: r in oldest ==> r in list
    requires |oldest| < limit ==> forall r :: r in list ==> r in oldest
    requires forall r, x :: r in oldest && x in list && x !in oldest ==> r.updatedAt <= x.updatedAt
    ensures AnswersClaimable(rows, limit, oldest)
  {
    forall j | j in rows && Claimable(rows[j].status) && rows[j] !in oldest
      ensures |oldest| == limit && forall r :: r in oldest ==> r.updatedAt <= rows[j].updatedAt
    {
      assert rows[j] in list;
    }
  }

  // The members of a set in some order: PostgreSQL promises none.
  method Collect(ids: set<Uuid>) returns (s: seq<Uuid>)
    ensures NoDup(s) && forall j :: j in s <==> j in ids
  {
    s := [];
    var left := ids;
    while left != {}
      invariant left <= ids && NoDup(s)
      invariant forall j :: j in s <==> j in ids && j !in left
      decreases |left|
    {
      var j :| j in left;
      assert j !in s;
      left := left - {j};
      s := s + [j];
    }
  }

  function RowsOf(rows: map<Uuid, JobRecord>, ids: seq<Uuid>): (list: seq<JobRecord>)
    requires NoDup(ids) && forall j :: j in ids <==> j in rows && Claimable(rows[j].status)
    requires forall j :: j in rows ==> rows[j].Id() == j
    ensures ListsClaimable(rows, list)
  {
    assert forall i :: 0 <= i < |ids| ==> ids[i] in ids;
    var list := seq(|ids|, i requires 0 <= i < |ids| => rows[ids[i]]);
    assert forall i :: 0 <= i < |ids| ==> list[i].Id() == ids[i];
    list
  }

  class SqlAlchemyJobRepository {
    var rows: map<Uuid, JobRecord>

    method SelectExpired(now: nat, limit: nat) returns (answer: seq<Uuid>)
      ensures AnswersExpired(rows, now, limit, answer)
    {
      var all := Collect(set j | j in rows && LeaseExpired(rows[j], now));
      answer := all[..Min(limit, |all|)];
      assert forall j :: j in answer ==> j in all;
      assert |answer| < limit ==> answer == all;
    }

    method SelectClaimable(limit: nat) returns (answer: seq<JobRecord>)
      requires forall j :: j in rows ==> rows[j].Id() == j
      ensures AnswersClaimable(rows, limit, answer)
    {
      var ids := Collect(set j | j in rows && Claimable(rows[j].status));
      var list := RowsOf(rows, ids);
      OldestAnswer(rows, list, limit);
      answer := ByAge(list)[..Min(limit, |list|)];
    }

    // Both queries with the expiry loop between them, whatever the first one answers.
    method ListReconcileCandidates(now: nat, limit: nat) returns (candidates: seq<JobRecord>, ghost expired: seq<Uuid>)
      requires forall j :: j in rows ==> rows[j].Id() == j
      modifies this
      ensures AnswersExpired(old(rows), now, limit, expired) && rows == ReleaseAll(old(rows), now, expired)
      ensures AnswersClaimable(rows, limit, candidates)
      ensures forall i, k :: 0 <= i < k < |candidates| ==>
                candidates[i] != candidates[k] && candidates[i].updatedAt <= candidates[k].updatedAt
      ensures forall r :: r in candidates ==>
                r.Id() in rows && rows[r.Id()] == r && (r.status.Accepted? || r.status.Retry?)
      ensures |candidates| < limit ==>
                forall j :: j in rows && (rows[j].status.Accepted? || rows[j].status.Retry?) ==> rows[j] in candidates
    {
      var answer := SelectExpired(now, limit);
      expired := answer;
      ReleaseExpired(now, limit, answer);
      candidates := SelectClaimable(limit);
    }

    // The loop over the first answer.
    method ReleaseExpired(now: nat, limit: nat, expired: seq<Uuid>)
      requires AnswersExpired(rows, now, limit, expired)
      modifies this
      ensures rows == ReleaseAll(old(rows), now, expired)
    {
      var i := 0;
      while i < |expired|
        invariant 0 <= i <= |expired|
        invariant rows == ReleaseAll(old(rows), now, expired[..i])
      {
        var j := expired[i];
        assert j !in expired[..i];
        assert expired[..i + 1] == expired[..i] + [j];
        rows := rows[j := ReleaseExpiredLease(rows[j], now).job];
        i := i + 1;
      }
      assert expired[..i] == expired;
    }

    // SELECT .. FOR UPDATE with the status filter, then the row update.
    method ClaimJob(id: Uuid, owner: string, now: nat, leaseSeconds: nat) returns (claimed: Option<JobRecord>)
      modifies this
      ensures var (t', c) := ClaimRow(Table([], old(rows)), id, owner, now, leaseSeconds);
              rows == t'.rows && claimed == c
      ensures claimed.Some? <==> id in old(rows) && (old(rows)[id].status.Accepted? || old(rows)[id].status.Retry?)
      ensures rows == if claimed.Some? then old(rows)[id := claimed.value] else old(rows)
      ensures claimed.Some? ==>
                claimed.value == JobRecord(old(rows)[id].info, Running, old(rows)[id].attemptCount + 1, Some(owner),
                                           Some(now + leaseSeconds), old(rows)[id].resultSummary, now)
    {
      if id !in rows || !Claimable(rows[id].status) {
        return None;
      }
      var job := Claim(rows[id], owner, now, leaseSeconds).job;
      rows := rows[id := job];
      return Some(job);
    }

    // Unlike the in-memory ledger, an unknown id is a KeyError (the answer false).
    method SaveRow(job: JobRecord) returns (found: bool)
      modifies this
      ensures found == (job.Id() in old(rows))
      ensures rows == if found then old(rows)[job.Id() := job] else old(rows)
    {
      found := job.Id() in rows;
      if found {
        rows := rows[job.Id() := job];
      }
    }
  }

  // ----- the two reconcilers -----

  // A batch as large as the table misses nothing.
  lemma FullBatch<T(!new)>(s: seq<T>, all: set<T>)
    requires NoDup(s) && (forall x :: x in s ==> x in all) && |s| >= |all|
    ensures forall x :: x in all ==> x in s
  {
    CountNoDup(s);
    var a := Elements(s);
    assert a * all == a;
    assert |all| == |a * all| + |all - a|;
    assert all - a == {};
  }

  // The rows whose lease has expired, in table order.
  function Expired(order: seq<Uuid>, rows: map<Uuid, JobRecord>, now: nat): (r: seq<Uuid>)
    requires forall j :: j in order ==> j in rows
    ensures forall j :: j in r <==> j in order && LeaseExpired(rows[j], now)
    ensures |r| <= |order|
  {
    if order == [] then []
    else (if LeaseExpired(rows[order[0]], now) then [order[0]] else []) + Expired(order[1..], rows, now)
  }

  lemma {:induction false} ExpiredNoDup(order: seq<Uuid>, rows: map<Uuid, JobRecord>, now: nat)
    requires NoDup(order) && forall j :: j in order ==> j in rows
    ensures NoDup(Expired(order, rows, now))
  {
    if order != [] {
      ExpiredNoDup(order[1..], rows, now);
      assert order[0] !in order[1..];
    }
  }

  // Whatever the database answers, both reconcilers leave the same ledger.
  ghost predicate SameLedgers(t: Table, now: nat, limit: nat)
    requires Listed(t)
  {
    forall expired :: AnswersExpired(t.rows, now, limit, expired) ==>
      ReleaseAll(t.rows, now, expired) == ListCandidates(t, now, limit).0.rows
  }

  // The batch has room for every expired row, and the in-memory scan gets to all of them.
  predicate BatchCovers(t: Table, now: nat, limit: nat)
    requires Listed(t)
  {
    && |Expired(t.order, t.rows, now)| <= limit
    && (forall i :: Visited(t.order, t.rows, now, limit) <= i < |t.order| ==> !LeaseExpired(t.rows[t.order[i]], now))
  }

  ghost function TouchAll(rows: map<Uuid, JobRecord>, now: nat): (r: map<Uuid, JobRecord>)
    ensures r.Keys == rows.Keys
  {
    map j | j in rows :: Touch(rows[j], now)
  }

  // When the expired rows fit the batch, every answer has all of them.
  lemma AllExpiredAnswered(t: Table, now: nat, limit: nat, expired: seq<Uuid>)
    requires TableOk(t) && |Expired(t.order, t.rows, now)| <= limit && AnswersExpired(t.rows, now, limit, expired)
    ensures ReleaseAll(t.rows, now, expired) == TouchAll(t.rows, now)
  {
    hide RowOk;
    var all := Expired(t.order, t.rows, now);
    ExpiredNoDup(t.order, t.rows, now);
    CountNoDup(all);
    if |expired| == limit {
      FullBatch(expired, Elements(all));
    }
  }

  lemma OnlyExpiredChange(job: JobRecord, now: nat)
    ensures Touch(job, now) == job <==> !LeaseExpired(job, now)
  {
  }

  // With more expired rows than the batch has room for, two answers leave different ledgers.
  lemma TooManyExpired(t: Table, now: nat, limit: nat)
    requires TableOk(t) && 0 < limit < |Expired(t.order, t.rows, now)|
    ensures !SameLedgers(t, now, limit)
  {
    hide RowOk, ListCandidates, Touch, Expired, LeaseExpired;
    var all := Expired(t.order, t.rows, now);
    ExpiredNoDup(t.order, t.rows, now);
    var first, second := all[..limit], all[1..limit + 1];
    assert all[0] == first[0] && all[0] !in second;
    assert AnswersExpired(t.rows, now, limit, first) && AnswersExpired(t.rows, now, limit, second);
    OnlyExpiredChange(t.rows[all[0]], now);
    assert ReleaseAll(t.rows, now, first)[all[0]] != ReleaseAll(t.rows, now, second)[all[0]];
  }

  // The rows after the in-memory scan: all are touched exactly if no expired one is beyond it.
  lemma ScanCoversIff(t: Table, now: nat, limit: nat)
    requires TableOk(t)
    ensures ListCandidates(t, now, limit).0.rows == TouchAll(t.rows, now) <==>
            forall i :: Visited(t.order, t.rows, now, limit) <= i < |t.order| ==> !LeaseExpired(t.rows[t.order[i]], now)
  {
    hide RowOk, ListCandidates, Touch, Visited;
    CandidatesAreFirstReady(t, now, limit);
    var v, rows' := Visited(t.order, t.rows, now, limit), ListCandidates(t, now, limit).0.rows;
    forall i | 0 <= i < |t.order|
      ensures rows'[t.order[i]] == TouchAll(t.rows, now)[t.order[i]] <==> i < v || !LeaseExpired(t.rows[t.order[i]], now)
    {
      OnlyExpiredChange(t.rows[t.order[i]], now);
    }
  }

  // Both reconcilers leave the same ledger if and only if the batch covers the expired rows.
  lemma LedgersAgreeIff(t: Table, now: nat, limit: nat)
    requires TableOk(t) && limit > 0
    ensures SameLedgers(t, now, limit) <==> BatchCovers(t, now, limit)
  {
    hide RowOk, ListCandidates, Touch, Visited, Expired;
    if |Expired(t.order, t.rows, now)| > limit {
      TooManyExpired(t, now, limit);
    } else {
      ScanCoversIff(t, now, limit);
      var all := Expired(t.order, t.rows, now);
      ExpiredNoDup(t.order, t.rows, now);
      assert AnswersExpired(t.rows, now, limit, all);
      forall expired | AnswersExpired(t.rows, now, limit, expired)
        ensures ReleaseAll(t.rows, now, expired) == TouchAll(t.rows, now)
      {
        AllExpiredAnswered(t, now, limit, expired);
      }
    }
  }

  // In particular for any limit of at least the number of rows.
  lemma LedgersAgree(t: Table, now: nat, limit: nat, expired: seq<Uuid>)
    requires TableOk(t) && limit >= |t.rows| && AnswersExpired(t.rows, now, limit, expired)
    ensures ReleaseAll(t.rows, now, expired) == ListCandidates(t, now, limit).0.rows
  {
    hide RowOk, ListCandidates, Touch, Visited;
    assert |t.order| == |t.rows| by {
      CountNoDup(t.order);
      assert Elements(t.order) == t.rows.Keys;
    }
    VisitsAll(t.order, t.rows, now, limit);
    if limit > 0 {
      LedgersAgreeIff(t, now, limit);
      assert SameLedgers(t, now, limit);
    } else {
      CandidatesAreFirstReady(t, now, limit);
    }
  }

  lemma {:induction false} VisitsAll(order: seq<Uuid>, rows: map<Uuid, JobRecord>, now: nat, want: int)
    requires forall j :: j in order ==> j in rows
    requires want >= |order|
    ensures Visited(order, rows, now, want) == |order|
  {
    if |order| > 1 {
      VisitsAll(order[1..], rows, now, if Claimable(Touch(rows[order[0]], now).status) then want - 1 else want);
    }
  }

  // ----- the candidates -----

  // Whatever the database answers, both reconcilers list the same rows, each once.
  ghost predicate SameCandidates(t: Table, now: nat, limit: nat)
    requires Listed(t)
  {
    forall answer :: AnswersClaimable(TouchAll(t.rows, now), limit, answer) ==> SameMembers(answer, ListCandidates(t, now, limit).1)
  }

  ghost predicate SameMembers(a: seq<JobRecord>, b: seq<JobRecord>) {
    forall r :: r in a <==> r in b
  }

  // Every ready row within the batch is older than every ready row beyond it.
  predicate OldestFirst(ready: seq<JobRecord>, limit: nat) {
    forall i, k :: 0 <= i < limit <= k < |ready| ==> ready[i].updatedAt < ready[k].updatedAt
  }

  lemma ReadyListsClaimable(t: Table, now: nat)
    requires TableOk(t)
    ensures ListsClaimable(TouchAll(t.rows, now), Ready(t.order, t.rows, now))
  {
    hide RowOk, Touch;
    var rows, ready := TouchAll(t.rows, now), Ready(t.order, t.rows, now);
    ReadyMembers(t.order, t.rows, now);
    ReadyNoDup(t.order, t.rows, now);
    forall j | j in rows
      ensures rows[j].Id() == j
    {
      TouchKeepsId(t.rows[j], now);
    }
  }

  lemma TouchKeepsId(job: JobRecord, now: nat)
    ensures Touch(job, now).Id() == job.Id()
  {
  }

  // An answer as long as the batch that misses a row of it has one from beyond it.
  lemma SomeBeyond(ready: seq<JobRecord>, n: nat, answer: seq<JobRecord>, i: nat)
    requires NoDup(ready) && NoDup(answer) && i < n <= |ready| && |answer| >= n && ready[i] !in answer
    requires forall r :: r in answer ==> r in ready
    ensures exists k :: n <= k < |ready| && ready[k] in answer
  {
    var batch := ready[..n];
    TakeHas(ready, n);
    CountNoDup(batch);
    if r :| r in answer && r !in batch {
      var k :| 0 <= k < |ready| && ready[k] == r;
    } else {
      FullBatch(answer, Elements(batch));
    }
  }

  // An answer has every claimable row that is older than some claimable row it has not.
  lemma AnswerIsPrefix(rows: map<Uuid, JobRecord>, ready: seq<JobRecord>, limit: nat, answer: seq<JobRecord>)
    requires ListsClaimable(rows, ready) && OldestFirst(ready, limit) && AnswersClaimable(rows, limit, answer)
    ensures SameMembers(answer, ready[..Min(limit, |ready|)])
  {
    var n := Min(limit, |ready|);
    var batch := ready[..n];
    CountNoDup(batch);
    CountNoDup(answer);
    forall i | 0 <= i < n
      ensures ready[i] in answer
    {
      assert ready[i] in ready;
      if ready[i] !in answer {
        SomeBeyond(ready, n, answer, i);
        assert false;
      }
    }
    if n == limit {
      FullBatch(batch, Elements(answer));
    } else {
      assert batch == ready;
    }
  }

  // A ready row beyond the batch that is no younger than one within it is in some answer.
  lemma YoungerWithinBatch(rows: map<Uuid, JobRecord>, ready: seq<JobRecord>, limit: nat, i: nat, k: nat)
    returns (answer: seq<JobRecord>)
    requires ListsClaimable(rows, ready) && i < limit <= k < |ready| && ready[k].updatedAt <= ready[i].updatedAt
    ensures AnswersClaimable(rows, limit, answer) && !SameMembers(answer, ready[..limit])
  {
    OldestAnswer(rows, ready, limit);
    answer := ByAge(ready)[..limit];
    assert ready[i] in ready[..limit] && ready[k] in ready && ready[k] !in ready[..limit];
    if SameMembers(answer, ready[..limit]) {
      var p :| 0 <= p < limit && answer[p] == ready[i];
      assert ready[i].updatedAt <= ready[k].updatedAt;
      answer := Swapped(rows, ready, limit, answer, p, ready[k]);
    }
  }

  lemma Swapped(rows: map<Uuid, JobRecord>, ready: seq<JobRecord>, limit: nat, oldest: seq<JobRecord>, p: nat, x: JobRecord)
    returns (answer: seq<JobRecord>)
    requires ListsClaimable(rows, ready) && AnswersClaimable(rows, limit, oldest) && |oldest| == limit && p < limit
    requires x in ready && x !in oldest && x.updatedAt == oldest[p].updatedAt
    requires forall r, y :: r in oldest && y in ready && y !in oldest ==> r.updatedAt <= y.updatedAt
    ensures AnswersClaimable(rows, limit, answer) && x in answer
  {
    answer := oldest[p := x];
    assert answer[p] == x && oldest[p] in oldest;
    forall i | 0 <= i < |oldest| && i != p
      ensures answer[i] in oldest && oldest[i] in answer
    {
      assert answer[i] == oldest[i];
    }
    forall j | j in rows && Claimable(rows[j].status) && rows[j] !in answer
      ensures rows[j] == oldest[p] || rows[j] !in oldest
    {
      if rows[j] in oldest {
        var i :| 0 <= i < |oldest| && oldest[i] == rows[j];
      }
    }
  }

  // Over the ledger both leave, the candidates agree if and only if the batch is the oldest.
  lemma CandidatesAgreeIff(t: Table, now: nat, limit: nat)
    requires TableOk(t) && limit > 0
    ensures SameCandidates(t, now, limit) <==> OldestFirst(Ready(t.order, t.rows, now), limit)
  {
    hide RowOk, ListCandidates, Touch, AnswersClaimable, ListsClaimable, SameMembers, Ready, Visited;
    var rows, ready := TouchAll(t.rows, now), Ready(t.order, t.rows, now);
    ReadyListsClaimable(t, now);
    CandidatesAreFirstReady(t, now, limit);
    if OldestFirst(ready, limit) {
      forall answer | AnswersClaimable(rows, limit, answer)
        ensures SameMembers(answer, ListCandidates(t, now, limit).1)
      {
        AnswerIsPrefix(rows, ready, limit, answer);
      }
    } else {
      var i, k :| 0 <= i < limit <= k < |ready| && ready[i].updatedAt >= ready[k].updatedAt;
      var answer := YoungerWithinBatch(rows, ready, limit, i, k);
    }
  }

  // ----- the two together -----

  // Whatever the two queries answer: the same ledger and the same candidates.
  ghost predicate SameReconcile(t: Table, now: nat, limit: nat)
    requires Listed(t)
  {
    forall expired :: AnswersExpired(t.rows, now, limit, expired) ==>
      && ReleaseAll(t.rows, now, expired) == ListCandidates(t, now, limit).0.rows
      && (forall answer :: AnswersClaimable(ReleaseAll(t.rows, now, expired), limit, answer) ==>
            SameMembers(answer, ListCandidates(t, now, limit).1))
  }

  // The exact condition under which PostgreSQL and the in-memory ledger reconcile alike.
  lemma ReconcilersAgreeIff(t: Table, now: nat, limit: nat)
    requires TableOk(t) && limit > 0
    ensures SameReconcile(t, now, limit) <==> BatchCovers(t, now, limit) && OldestFirst(Ready(t.order, t.rows, now), limit)
  {
    hide RowOk, ListCandidates, Touch, AnswersClaimable, SameMembers, Ready, Visited, OldestFirst, Expired;
    LedgersAgreeIff(t, now, limit);
    CandidatesAgreeIff(t, now, limit);
    if BatchCovers(t, now, limit) {
      var all := Expired(t.order, t.rows, now);
      ExpiredNoDup(t.order, t.rows, now);
      assert AnswersExpired(t.rows, now, limit, all);
      forall expired | AnswersExpired(t.rows, now, limit, expired)
        ensures ReleaseAll(t.rows, now, expired) == TouchAll(t.rows, now)
      {
        AllExpiredAnswered(t, now, limit, expired);
      }
    }
  }

  // In particular for any limit of at least the number of rows, each candidate once.
  lemma ReconcilersAgree(t: Table, now: nat, limit: nat, expired: seq<Uuid>, answer: seq<JobRecord>)
    requires TableOk(t) && limit >= |t.rows|
    requires AnswersExpired(t.rows, now, limit, expired)
    requires AnswersClaimable(ReleaseAll(t.rows, now, expired), limit, answer)
    ensures var (t', candidates) := ListCandidates(t, now, limit);
            && ReleaseAll(t.rows, now, expired) == t'.rows
            && NoDup(candidates) && |candidates| == |answer|
            && (forall r :: r in answer <==> r in candidates)
  {
    hide RowOk, ListCandidates, Touch, Visited, Ready;
    LedgersAgree(t, now, limit, expired);
    var ready := Ready(t.order, t.rows, now);
    ReadyNoDup(t.order, t.rows, now);
    ReadyLength(t.order, t.rows, now);
    CountNoDup(t.order);
    assert Elements(t.order) == t.rows.Keys;
    CandidatesAreFirstReady(t, now, limit);
    VisitsAll(t.order, t.rows, now, limit);
    ScanCoversIff(t, now, limit);
    ReadyListsClaimable(t, now);
    AnswerIsPrefix(TouchAll(t.rows, now), ready, limit, answer);
    SameLength(answer, ListCandidates(t, now, limit).1);
  }

  lemma {:induction false} ReadyLength(order: seq<Uuid>, rows: map<Uuid, JobRecord>, now: nat)
    requires forall j :: j in order ==> j in rows
    ensures |Ready(order, rows, now)| <= |order|
  {
    if order != [] {
      ReadyLength(order[1..], rows, now);
    }
  }

  lemma SameLength<T(!new)>(a: seq<T>, b: seq<T>)
    requires NoDup(a) && NoDup(b) && forall x :: x in a <==> x in b
    ensures |a| == |b|
  {
    CountNoDup(a);
    CountNoDup(b);
    assert Elements(a) == Elements(b);
  }

  // An instance: the in-memory scan stops once the batch is full, PostgreSQL still
  // releases an expired lease further down.
  lemma SmallBatchesDiffer(waiting: JobRecord, expired: JobRecord, now: nat)
    requires waiting.Id() != expired.Id() && Claimable(waiting.status) && LeaseExpired(expired, now)
    ensures var t := Table([waiting.Id(), expired.Id()], map[waiting.Id() := waiting, expired.Id() := expired]);
            && AnswersExpired(t.rows, now, 1, [expired.Id()])
            && ListCandidates(t, now, 1).0.rows[expired.Id()] == expired
            && ReleaseAll(t.rows, now, [expired.Id()])[expired.Id()] != expired
  {
    var t := Table([waiting.Id(), expired.Id()], map[waiting.Id() := waiting, expired.Id() := expired]);
    assert Scan(t.order, t.rows, now, 1, []).0 == t.rows[waiting.Id() := waiting];
  }
}
