/**
 * The singly linked FIFO queue behind the bounded executor
 * (packages/promise/src/Promise/internals/queue.ts).
 *
 * `Queue` keeps the source's three fields `head`, `size` and `tail`; the ghost
 * fields `Contents` (the values from head to tail) and `Nodes` (the chain of
 * nodes itself) are the public view, tied to the real fields by `Valid()`.
 */
module LinkedQueue {
  import opened Wrappers

  class Node<T> {
    var next: Node?<T>
    const value: T

    constructor (value: T)
      ensures this.value == value && next == null
    {
      this.value := value;
      next := null;
    }
  }

  /** The values held by a chain of nodes, in order. */
  function Values<T>(nodes: seq<Node<T>>): (vs: seq<T>)
    ensures |vs| == |nodes|
  {
    if nodes == [] then [] else [nodes[0].value] + Values(nodes[1..])
  }

  /** A node appended to a chain appends its value. */
  lemma {:induction false} ValuesAppend<T>(nodes: seq<Node<T>>, n: Node<T>)
    ensures Values(nodes + [n]) == Values(nodes) + [n.value]
  {
    if nodes != [] {
      assert (nodes + [n])[1..] == nodes[1..] + [n];
      ValuesAppend(nodes[1..], n);
    }
  }

  class Queue<T> {
    var head: Node?<T>
    var size: nat
    var tail: Node?<T>

    ghost var Contents: seq<T>
    ghost var Nodes: seq<Node<T>>
    ghost var Repr: set<object>

    /** The queue invariant: `size` is the length of the chain that starts at
        `head`, follows `next` and ends at `tail`; an empty queue has neither. */
    ghost predicate Valid()
      reads this, Repr
      ensures Valid() ==> this in Repr
    {
      && this in Repr
      && (forall i :: 0 <= i < |Nodes| ==> Nodes[i] in Repr)
      && size == |Nodes|
      && Contents == Values(Nodes)
      && (size == 0 <==> head == null)
      && (size == 0 <==> tail == null)
      && (size > 0 ==> head == Nodes[0] && tail == Nodes[size - 1] && tail.next == null)
      && (forall i {:trigger Nodes[i].next} :: 0 <= i < size - 1 ==> Nodes[i].next == Nodes[i + 1])
      && (forall i, j :: 0 <= i < j < size ==> Nodes[i] != Nodes[j])
    }

    /** `createQueue`: an empty queue, no head, no tail, size 0. */
    constructor ()
      ensures Valid() && fresh(Repr)
      ensures Contents == [] && size == 0 && head == null && tail == null
    {
      head, size, tail := null, 0, null;
      Contents, Nodes := [], [];
      Repr := {this};
    }

    /** `enqueue`: appends `value` behind the tail. */
    method Enqueue(value: T)
      requires Valid()
      modifies this, Repr
      ensures Valid() && fresh(Repr - old(Repr))
      ensures Contents == old(Contents) + [value]
      ensures size == old(size) + 1
      ensures old(size) == 0 ==> head == tail && head.next == null && head.value == value
      ensures Step(old(Contents), Push(value)) == (Contents, None)
    {
      var node := new Node(value);
      if head != null {
        tail.next := node;
        tail := node;
      } else {
        head := node;
        tail := node;
      }
      size := size + 1;
      ValuesAppend(Nodes, node);
      Contents := Contents + [value];
      Nodes := Nodes + [node];
      Repr := Repr + {node};
    }

    /** `dequeue`: removes and returns the head value; on an empty queue it
        returns the source's `undefined` (here `None`) and changes nothing. */
    method Dequeue() returns (r: Option<T>)
      requires Valid()
      modifies this
      ensures Valid() && Repr == old(Repr)
      // an empty queue returns `None` and stays empty; otherwise the head value
      // is returned and removed
      ensures Step(old(Contents), Pop) == (Contents, r)
      ensures size == if old(size) == 0 then 0 else old(size) - 1
      ensures size == 0 ==> head == null && tail == null
    {
      var current := head;
      if current == null {
        return None;
      }
      assert size > 1 ==> current.next == Nodes[1];
      head := current.next;
      if head == null {
        tail := null;
      }
      size := size - 1;
      Contents := Contents[1..];
      Nodes := Nodes[1..];
      r := Some(current.value);
    }
  }

  // ----- The abstract queue, and strict FIFO order over any run -----

  /** One call on the queue: `enqueue(queue, value)` or `dequeue(queue)`. */
  datatype Op<T> = Push(value: T) | Pop

  /** The contents after one call and the value it returned; `Enqueue` and
      `Dequeue` are proved to perform exactly this step, so the theorems
      below hold of the linked queue. */
  function Step<T>(contents: seq<T>, op: Op<T>): (seq<T>, Option<T>)
  {
    match op
    case Push(v) => (contents + [v], None)
    case Pop => if contents == [] then (contents, None) else (contents[1..], Some(contents[0]))
  }

  /** The values pushed by `ops`, in call order. */
  function Pushed<T>(ops: seq<Op<T>>): seq<T>
  {
    if ops == [] then []
    else Input(ops[0]) + Pushed(ops[1..])
  }

  /** The final contents after a run, and the values its dequeues returned. */
  datatype Trace<T> = Trace(final: seq<T>, out: seq<T>)

  /** What one call hands back to its caller, as a sequence of zero or one values. */
  function Emitted<T>(o: Option<T>): seq<T>
  {
    if o.Some? then [o.value] else []
  }

  /** Runs `ops` from `contents` (dequeues of an empty queue return nothing). */
  function Run<T>(contents: seq<T>, ops: seq<Op<T>>): Trace<T>
    decreases |ops|
  {
    if ops == [] then Trace(contents, [])
    else
      var step := Step(contents, ops[0]);
      var later := Run(step.0, ops[1..]);
      Trace(later.final, Emitted(step.1) + later.out)
  }

  /** What one call pushed, as a sequence of zero or one values. */
  function Input<T>(op: Op<T>): seq<T>
  {
    if op.Push? then [op.value] else []
  }

  /** One call loses nothing and invents nothing: what it returned, followed
      by the new contents, is the old contents followed by what it pushed. */
  lemma StepConserves<T>(contents: seq<T>, op: Op<T>)
    ensures Emitted(Step(contents, op).1) + Step(contents, op).0 == contents + Input(op)
  {
    if op.Pop? && contents != [] {
      assert contents == [contents[0]] + contents[1..];
    }
  }

  /** Strict FIFO: whatever comes out of the queue, followed by what is still
      in it, is exactly what was in it followed by what was pushed, in order. */
  lemma {:induction false} FifoOrder<T>(contents: seq<T>, ops: seq<Op<T>>)
    ensures Run(contents, ops).out + Run(contents, ops).final == contents + Pushed(ops)
    decreases |ops|
  {
    if ops != [] {
      var step := Step(contents, ops[0]);
      var later := Run(step.0, ops[1..]);
      var e := Emitted(step.1);
      FifoOrder(step.0, ops[1..]);
      StepConserves(contents, ops[0]);
      assert Run(contents, ops) == Trace(later.final, e + later.out);
      assert Pushed(ops) == Input(ops[0]) + Pushed(ops[1..]);
      calc {
        (e + later.out) + later.final;
        e + (later.out + later.final);
        e + (step.0 + Pushed(ops[1..]));
        (e + step.0) + Pushed(ops[1..]);
        (contents + Input(ops[0])) + Pushed(ops[1..]);
        contents + (Input(ops[0]) + Pushed(ops[1..]));
      }
    }
  }

  /** `size` is always the number of values not yet dequeued. */
  lemma {:induction false} RunLength<T>(contents: seq<T>, ops: seq<Op<T>>)
    ensures |Run(contents, ops).final| == |contents| + |Pushed(ops)| - |Run(contents, ops).out|
  {
    FifoOrder(contents, ops);
    assert |Run(contents, ops).out + Run(contents, ops).final| == |contents + Pushed(ops)|;
  }
}
