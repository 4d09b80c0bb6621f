/**
 * The circular byte queue between the UART reader and the USB sender
 * (`struct queue`): 64 slots, producer and consumer indices advanced
 * with a bit mask, one slot always left free.  The mutex that guards
 * each operation is not modelled: every operation is one atomic step.
 */
module Queue {

  /** QUEUE_SIZE: the number of slots. */
  const QueueSize: nat := 64

  /** The number of bytes a queue can hold: one slot always stays free. */
  const Capacity: nat := QueueSize - 1

  /** QUEUE_NEXT: the index after `n`.  The source masks with
      QUEUE_SIZE - 1, which for a power of two is the remainder. */
  function Next(n: nat): (r: nat)
    requires n < QueueSize
    ensures r < QueueSize
    ensures r == if n == QueueSize - 1 then 0 else n + 1
  {
    (n + 1) % QueueSize
  }

  /** The bytes held by a ring whose slots are `d`, oldest first. */
  function Items(d: seq<bv8>, prod: nat, cons: nat): seq<bv8>
    requires |d| == QueueSize && prod < QueueSize && cons < QueueSize
  {
    if cons <= prod then d[cons..prod] else d[cons..] + d[..prod]
  }

  /** How many bytes the ring holds, from its indices alone. */
  lemma ItemsLength(d: seq<bv8>, prod: nat, cons: nat)
    requires |d| == QueueSize && prod < QueueSize && cons < QueueSize
    ensures |Items(d, prod, cons)| == (prod - cons) % QueueSize
    ensures |Items(d, prod, cons)| <= Capacity
    ensures (prod == cons) <==> Items(d, prod, cons) == []
    ensures (Next(prod) == cons) <==> |Items(d, prod, cons)| == Capacity
  {
  }

  /** Writing at the producer index and advancing it appends one byte,
      provided the ring is not full. */
  lemma ItemsAfterAdd(d: seq<bv8>, prod: nat, cons: nat, v: bv8)
    requires |d| == QueueSize && prod < QueueSize && cons < QueueSize
    requires Next(prod) != cons
    ensures Items(d[prod := v], Next(prod), cons) == Items(d, prod, cons) + [v]
  {
    var d' := d[prod := v];
    if cons <= prod {
      if prod == QueueSize - 1 {
        assert Items(d', Next(prod), cons) == d'[cons..] + d'[..0];
        assert d'[cons..] == d[cons..prod] + [v];
      } else {
        assert d'[cons..prod + 1] == d[cons..prod] + [v];
      }
    } else {
      assert d'[cons..] == d[cons..];
      assert d'[..prod + 1] == d[..prod] + [v];
    }
  }

  /** The oldest byte sits at the consumer index, and advancing the
      consumer index removes exactly that byte. */
  lemma ItemsAfterAdvance(d: seq<bv8>, prod: nat, cons: nat)
    requires |d| == QueueSize && prod < QueueSize && cons < QueueSize
    requires prod != cons
    ensures Items(d, prod, cons) != [] && Items(d, prod, cons)[0] == d[cons]
    ensures Items(d, prod, Next(cons)) == Items(d, prod, cons)[1..]
  {
    if cons == QueueSize - 1 && prod < cons {
      assert Items(d, prod, Next(cons)) == d[0..prod];
      assert Items(d, prod, cons) == d[cons..] + d[..prod];
      assert d[cons..] == [d[cons]];
    }
  }

  /** The abstract effect of `queue_add` on the contents: a byte is
      appended unless the queue already holds Capacity bytes. */
  function Enqueue(q: seq<bv8>, v: bv8): (r: seq<bv8>)
    ensures |q| < Capacity ==> r == q + [v]
    ensures |q| >= Capacity ==> r == q
  {
    if |q| < Capacity then q + [v] else q
  }

  /** `struct queue` without its mutex. */
  class ByteQueue {
    const data: array<bv8>
    var prod: nat
    var cons: nat

    ghost predicate Valid()
      reads this
    {
      data.Length == QueueSize && prod < QueueSize && cons < QueueSize
    }

    /** The queued bytes, oldest first. */
    ghost function Contents(): (q: seq<bv8>)
      reads this, data
      requires Valid()
      ensures |q| <= Capacity
    {
      ItemsLength(data[..], prod, cons);
      Items(data[..], prod, cons)
    }

    /** queue_init: all slots and both indices zero. */
    constructor ()
      ensures Valid() && fresh(data)
      ensures Contents() == []
    {
      data := new bv8[QueueSize](_ => 0);
      prod, cons := 0, 0;
    }

    /** QUEUE_EMPTY_P. */
    predicate IsEmpty()
      reads this, data
      requires Valid()
      ensures IsEmpty() <==> Contents() == []
    {
      ItemsLength(data[..], prod, cons);
      cons == prod
    }

    /** QUEUE_FULL_P. */
    predicate IsFull()
      reads this, data
      requires Valid()
      ensures IsFull() <==> |Contents()| == Capacity
    {
      ItemsLength(data[..], prod, cons);
      Next(prod) == cons
    }

    /** queue_add: store `v` at the producer index unless the queue is full. */
    method Add(v: bv8) returns (ok: bool)
      requires Valid()
      modifies this, data
      ensures Valid()
      ensures ok <==> |old(Contents())| < Capacity
      ensures Contents() == Enqueue(old(Contents()), v)
      ensures !ok ==> prod == old(prod) && cons == old(cons) && data[..] == old(data[..])
    {
      ItemsLength(data[..], prod, cons);
      ok := true;
      if !(Next(prod) == cons) {
        ItemsAfterAdd(data[..], prod, cons, v);
        data[prod] := v;
        assert data[..] == old(data[..])[old(prod) := v];
        prod := Next(prod);
      } else {
        ok := false;
      }
    }

    /** queue_consume: read the oldest byte, removing it when `advance`. */
    method Consume(advance: bool) returns (ok: bool, v: bv8)
      requires Valid()
      modifies this
      ensures Valid() && prod == old(prod)
      ensures ok <==> old(Contents()) != []
      ensures ok ==> v == old(Contents())[0]
      ensures Contents() == if ok && advance then old(Contents())[1..] else old(Contents())
      ensures !(ok && advance) ==> cons == old(cons)
    {
      ItemsLength(data[..], prod, cons);
      ok := false;
      v := 0;
      if !(cons == prod) {
        ItemsAfterAdvance(data[..], prod, cons);
        v := data[cons];
        if advance {
          cons := Next(cons);
        }
        ok := true;
      }
    }

    /** queue_peek: the oldest byte, left in place. */
    method Peek() returns (ok: bool, v: bv8)
      requires Valid()
      modifies this
      ensures Valid() && prod == old(prod) && cons == old(cons)
      ensures ok <==> Contents() != []
      ensures ok ==> v == Contents()[0]
    {
      ok, v := Consume(false);
    }

    /** queue_get: the oldest byte, removed. */
    method Get() returns (ok: bool, v: bv8)
      requires Valid()
      modifies this
      ensures Valid()
      ensures ok <==> old(Contents()) != []
      ensures ok ==> v == old(Contents())[0]
      ensures Contents() == if ok then old(Contents())[1..] else old(Contents())
    {
      ok, v := Consume(true);
    }

    /** queue_drain: both indices back to zero, discarding the contents. */
    method Drain()
      requires Valid()
      modifies this
      ensures Valid() && prod == 0 && cons == 0
      ensures Contents() == []
    {
      prod, cons := 0, 0;
    }
  }
}
