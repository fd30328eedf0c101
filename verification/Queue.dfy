// The wake transport (queue.py): the in-memory queue, the Valkey two-list queue,
// and how far the second refines the first.

module Queue {
  import opened Basics
  import opened Ids

  // ----- the in-memory queue as a value -----

  datatype Wake = Wake(pending: seq<Uuid>, processing: set<Uuid>)

  predicate Holds(q: Wake, id: Uuid) {
    id in q.pending || id in q.processing
  }

  function Enqueue(q: Wake, id: Uuid): Wake {
    if Holds(q, id) then q else q.(pending := q.pending + [id])
  }

  function PopWake(q: Wake): (Wake, Option<Uuid>) {
    if q.pending == [] then (q, None)
    else (Wake(q.pending[1..], q.processing + {q.pending[0]}), Some(q.pending[0]))
  }

  function Acknowledge(q: Wake, id: Uuid): Wake {
    Wake(Without(q.pending, {id}), q.processing - {id})
  }

  function RequeueIfMissing(q: Wake, id: Uuid): (Wake, bool) {
    if Holds(q, id) then (q, false) else (q.(pending := q.pending + [id]), true)
  }

  // Each id is waiting at most once, and never while it is being processed.
  ghost predicate WakeOk(q: Wake) {
    NoDup(q.pending) && forall x :: x in q.pending ==> x !in q.processing
  }

  lemma AcknowledgeFacts(q: Wake, id: Uuid)
    requires WakeOk(q)
    ensures WakeOk(Acknowledge(q, id))
    ensures !Holds(Acknowledge(q, id), id)
    ensures forall x :: x != id ==> (Holds(Acknowledge(q, id), x) <==> Holds(q, x))
    ensures id !in q.pending ==> Acknowledge(q, id).pending == q.pending
    ensures forall k :: 0 <= k < |q.pending| && q.pending[k] == id ==>
              Acknowledge(q, id).pending == q.pending[..k] + q.pending[k + 1..]
  {
    WithoutNoDup(q.pending, {id});
    if id !in q.pending {
      WithoutNothing(q.pending, {id});
    }
    forall k | 0 <= k < |q.pending| && q.pending[k] == id
      ensures Acknowledge(q, id).pending == q.pending[..k] + q.pending[k + 1..]
    {
      WithoutOne(q.pending, k);
    }
  }

  lemma {:induction false} WithoutOne(s: seq<Uuid>, k: nat)
    requires NoDup(s) && k < |s|
    ensures Without(s, {s[k]}) == s[..k] + s[k + 1..]
  {
    if k == 0 {
      WithoutNothing(s[1..], {s[0]});
    } else {
      WithoutOne(s[1..], k - 1);
      assert s[0] != s[k] && s[1..][..k - 1] == s[1..k] && s[1..][k..] == s[k + 1..];
      assert s[..k] == [s[0]] + s[1..k];
    }
  }

  // ----- the in-memory queue as the class -----

  class InMemoryJobQueue {
    var pending: seq<Uuid>
    var processing: set<Uuid>

    ghost function Contents(): Wake
      reads this
    {
      Wake(pending, processing)
    }

    constructor ()
      ensures Contents() == Wake([], {})
    {
      pending, processing := [], {};
    }

    method Offer(id: Uuid)
      modifies this
      ensures Contents() == Enqueue(old(Contents()), id)
      ensures pending == (if id in old(pending) || id in old(processing) then old(pending) else old(pending) + [id])
      ensures processing == old(processing)
    {
      if id !in pending && id !in processing {
        pending := pending + [id];
      }
    }

    method Pop() returns (id: Option<Uuid>)
      modifies this
      ensures (Contents(), id) == PopWake(old(Contents()))
      ensures old(pending) == [] ==> id.None? && pending == [] && processing == old(processing)
      ensures old(pending) != [] ==>
                id == Some(old(pending)[0]) && pending == old(pending)[1..] && processing == old(processing) + {old(pending)[0]}
    {
      if pending == [] {
        return None;
      }
      id := Some(pending[0]);
      pending := pending[1..];
      processing := processing + {id.value};
    }

    method Ack(id: Uuid)
      modifies this
      ensures Contents() == Acknowledge(old(Contents()), id)
      ensures pending == Without(old(pending), {id}) && processing == old(processing) - {id}
    {
      processing := processing - {id};
      if id in pending {
        pending := Without(pending, {id});
      } else {
        WithoutNothing(pending, {id});
      }
    }

    method Requeue(id: Uuid) returns (added: bool)
      modifies this
      ensures (Contents(), added) == RequeueIfMissing(old(Contents()), id)
      ensures added == (id !in old(pending) && id !in old(processing))
      ensures pending == (if added then old(pending) + [id] else old(pending)) && processing == old(processing)
    {
      if id in pending || id in processing {
        return false;
      }
      pending := pending + [id];
      return true;
    }
  }

  // ----- the Valkey queue: two lists and the commands used on them -----

  datatype Lists = Lists(pending: seq<Uuid>, processing: seq<Uuid>)

  function Lrem(list: seq<Uuid>, id: Uuid): seq<Uuid> {
    Without(list, {id})
  }

  function Rpush(list: seq<Uuid>, id: Uuid): seq<Uuid> {
    list + [id]
  }

  function ValkeyEnqueue(v: Lists, id: Uuid): Lists {
    v.(pending := Rpush(Lrem(v.pending, id), id))
  }

  function ValkeyPop(v: Lists): (Lists, Option<Uuid>) {
    if v.pending == [] then (v, None)
    else (Lists(v.pending[1..], Rpush(v.processing, v.pending[0])), Some(v.pending[0]))
  }

  function ValkeyAck(v: Lists, id: Uuid): Lists {
    Lists(Lrem(v.pending, id), Lrem(v.processing, id))
  }

  function ValkeyRequeue(v: Lists, id: Uuid): (Lists, bool) {
    if id in v.pending || id in v.processing then (v, false)
    else (v.(pending := Rpush(v.pending, id)), true)
  }

  class ValkeyJobQueue {
    var pending: seq<Uuid>
    var processing: seq<Uuid>

    ghost function Contents(): Lists
      reads this
    {
      Lists(pending, processing)
    }

    method Offer(id: Uuid)
      modifies this
      ensures Contents() == ValkeyEnqueue(old(Contents()), id)
      ensures pending == Without(old(pending), {id}) + [id] && processing == old(processing)
    {
      pending := Lrem(pending, id);
      pending := Rpush(pending, id);
    }

    method Pop() returns (id: Option<Uuid>)
      modifies this
      ensures (Contents(), id) == ValkeyPop(old(Contents()))
      ensures old(pending) == [] ==> id.None? && pending == [] && processing == old(processing)
      ensures old(pending) != [] ==>
                id == Some(old(pending)[0]) && pending == old(pending)[1..] && processing == old(processing) + [old(pending)[0]]
    {
      if pending == [] {
        return None;
      }
      id := Some(pending[0]);
      pending, processing := pending[1..], Rpush(processing, id.value);
    }

    method Ack(id: Uuid)
      modifies this
      ensures Contents() == ValkeyAck(old(Contents()), id)
      ensures pending == Without(old(pending), {id}) && processing == Without(old(processing), {id})
    {
      processing := Lrem(processing, id);
      pending := Lrem(pending, id);
    }

    method Requeue(id: Uuid) returns (added: bool)
      modifies this
      ensures (Contents(), added) == ValkeyRequeue(old(Contents()), id)
      ensures added == (id !in old(pending) && id !in old(processing))
      ensures pending == (if added then old(pending) + [id] else old(pending)) && processing == old(processing)
    {
      if id in pending || id in processing {
        return false;
      }
      pending := Rpush(pending, id);
      return true;
    }
  }

  // ----- refinement -----

  datatype QueueOp = DoEnqueue(id: Uuid) | DoPop | DoAck(id: Uuid) | DoRequeue(id: Uuid)
  datatype Answer = Nothing | Woke(id: Option<Uuid>) | Requeued(added: bool)

  function MemoryStep(q: Wake, op: QueueOp): (Wake, Answer) {
    match op
    case DoEnqueue(id) => (Enqueue(q, id), Nothing)
    case DoPop => var (q', id) := PopWake(q); (q', Woke(id))
    case DoAck(id) => (Acknowledge(q, id), Nothing)
    case DoRequeue(id) => var (q', added) := RequeueIfMissing(q, id); (q', Requeued(added))
  }

  function ValkeyStep(v: Lists, op: QueueOp): (Lists, Answer) {
    match op
    case DoEnqueue(id) => (ValkeyEnqueue(v, id), Nothing)
    case DoPop => var (v', id) := ValkeyPop(v); (v', Woke(id))
    case DoAck(id) => (ValkeyAck(v, id), Nothing)
    case DoRequeue(id) => var (v', added) := ValkeyRequeue(v, id); (v', Requeued(added))
  }

  // Equal pending sequences, and the processing list lists the processing set once each.
  ghost predicate Related(q: Wake, v: Lists) {
    && WakeOk(q)
    && q.pending == v.pending
    && NoDup(v.processing)
    && (forall x :: x in v.processing <==> x in q.processing)
  }

  // What a caller of enqueue would have to check: the id is nowhere, or it is the
  // newest pending one (which Valkey removes and pushes back in place).
  predicate SafeToEnqueue(q: Wake, id: Uuid) {
    !Holds(q, id) || (q.pending != [] && q.pending[|q.pending| - 1] == id)
  }

  predicate SafeOp(q: Wake, op: QueueOp) {
    op.DoEnqueue? ==> SafeToEnqueue(q, op.id)
  }

  lemma {:induction false} WithoutLast(s: seq<Uuid>, id: Uuid)
    requires NoDup(s) && s != [] && s[|s| - 1] == id
    ensures Without(s, {id}) == s[..|s| - 1]
  {
    if |s| > 1 {
      WithoutLast(s[1..], id);
      assert s[0] != id;
      assert s[1..][..|s| - 2] == s[1..|s| - 1];
      assert [s[0]] + s[1..|s| - 1] == s[..|s| - 1];
    }
  }

  // One operation on related queues gives the same answer and related queues again
  // exactly when it is no enqueue or a safe one.
  lemma StepsAgreeIff(q: Wake, v: Lists, op: QueueOp)
    requires Related(q, v)
    ensures (MemoryStep(q, op).1 == ValkeyStep(v, op).1 && Related(MemoryStep(q, op).0, ValkeyStep(v, op).0))
            <==> SafeOp(q, op)
  {
    match op
    case DoEnqueue(id) => EnqueuesAgreeIff(q, v, id);
    case DoAck(id) => AcksAgree(q, v, id);
    case DoPop =>
    case DoRequeue(id) =>
  }

  lemma EnqueuesAgreeIff(q: Wake, v: Lists, id: Uuid)
    requires Related(q, v)
    ensures Related(Enqueue(q, id), ValkeyEnqueue(v, id)) <==> SafeToEnqueue(q, id)
  {
    if !Holds(q, id) {
      WithoutNothing(v.pending, {id});
    } else if SafeToEnqueue(q, id) {
      WithoutLast(v.pending, id);
      assert v.pending[..|v.pending| - 1] + [id] == v.pending;
    } else {
      var pushed := ValkeyEnqueue(v, id).pending;
      assert pushed[|pushed| - 1] == id;
    }
  }

  lemma AcksAgree(q: Wake, v: Lists, id: Uuid)
    requires Related(q, v)
    ensures Related(Acknowledge(q, id), ValkeyAck(v, id))
  {
    AcknowledgeFacts(q, id);
    WithoutNoDup(v.processing, {id});
  }

  // All answers of a sequence of operations.
  function MemoryAnswers(q: Wake, ops: seq<QueueOp>): (r: (Wake, seq<Answer>))
    decreases |ops|
  {
    if ops == [] then (q, [])
    else var (q', a) := MemoryStep(q, ops[0]);
         var (q'', rest) := MemoryAnswers(q', ops[1..]);
         (q'', [a] + rest)
  }

  function ValkeyAnswers(v: Lists, ops: seq<QueueOp>): (r: (Lists, seq<Answer>))
    decreases |ops|
  {
    if ops == [] then (v, [])
    else var (v', a) := ValkeyStep(v, ops[0]);
         var (v'', rest) := ValkeyAnswers(v', ops[1..]);
         (v'', [a] + rest)
  }

  // Every enqueue of the sequence is safe where it happens.
  predicate SafeOps(q: Wake, ops: seq<QueueOp>)
    decreases |ops|
  {
    ops == [] || (SafeOp(q, ops[0]) && SafeOps(MemoryStep(q, ops[0]).0, ops[1..]))
  }

  // Over any sequence of operations whose enqueues are safe, Valkey answers as the
  // in-memory queue does and ends related to it.
  lemma {:induction false} ValkeyRefinesMemory(q: Wake, v: Lists, ops: seq<QueueOp>)
    requires Related(q, v) && SafeOps(q, ops)
    ensures MemoryAnswers(q, ops).1 == ValkeyAnswers(v, ops).1
    ensures Related(MemoryAnswers(q, ops).0, ValkeyAnswers(v, ops).0)
    decreases |ops|
  {
    if ops != [] {
      StepsAgreeIff(q, v, ops[0]);
      ValkeyRefinesMemory(MemoryStep(q, ops[0]).0, ValkeyStep(v, ops[0]).0, ops[1..]);
    }
  }

  // The condition matters. Between a handler's acknowledge and its re-enqueue the
  // reconciler may requeue the id and another worker may pop it; Valkey's enqueue
  // then offers the id again while it is being processed, the in-memory one does not.
  lemma ValkeyOffersTwice(id: Uuid)
    ensures var ops := [DoEnqueue(id), DoPop, DoAck(id), DoRequeue(id), DoPop, DoEnqueue(id)];
            && PopWake(MemoryAnswers(Wake([], {}), ops).0).1 == None
            && id in ValkeyAnswers(Lists([], []), ops).0.processing
            && ValkeyPop(ValkeyAnswers(Lists([], []), ops).0).1 == Some(id)
  {
    var ops := [DoEnqueue(id), DoPop, DoAck(id), DoRequeue(id), DoPop, DoEnqueue(id)];
    var empty, waiting, busy := Wake([], {}), Wake([id], {}), Wake([], {id});
    var vempty, vwaiting, vbusy := Lists([], []), Lists([id], []), Lists([], [id]);
    assert ops[1..][1..] == ops[2..] && ops[2..][1..] == ops[3..] && ops[3..][1..] == ops[4..];
    assert ops[4..][1..] == ops[5..] && ops[5..][1..] == [];
    assert MemoryStep(waiting, DoPop).0 == busy && ValkeyStep(vwaiting, DoPop).0 == vbusy;
    assert MemoryStep(busy, DoAck(id)).0 == empty && ValkeyStep(vbusy, DoAck(id)).0 == vempty;
    assert MemoryAnswers(busy, ops[5..]).0 == busy && ValkeyAnswers(vbusy, ops[5..]).0 == Lists([id], [id]);
    assert MemoryAnswers(waiting, ops[4..]).0 == busy && ValkeyAnswers(vwaiting, ops[4..]).0 == Lists([id], [id]);
    assert MemoryAnswers(empty, ops[3..]).0 == busy && ValkeyAnswers(vempty, ops[3..]).0 == Lists([id], [id]);
    assert MemoryAnswers(busy, ops[2..]).0 == busy && ValkeyAnswers(vbusy, ops[2..]).0 == Lists([id], [id]);
    assert MemoryAnswers(waiting, ops[1..]).0 == busy && ValkeyAnswers(vwaiting, ops[1..]).0 == Lists([id], [id]);
  }
}
