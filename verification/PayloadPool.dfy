/** What the payload pool promises, as a stack of free payloads. */
module PoolSpec {
  import opened Basics

  /** `free` is the stack of payloads given back, `live` the payloads handed out, and
      `nodes` the number of list nodes ever allocated. */
  datatype Pool<T(==)> = Pool(free: seq<T>, live: set<T>, nodes: nat)

  function EmptyPool<T(==)>(): Pool<T> {
    Pool([], {}, 0)
  }

  /** `made` is the payload constructed when nothing is free. */
  function Allocated<T(==)>(p: Pool<T>, made: T): T {
    if p.free != [] then p.free[0] else made
  }

  function Allocate<T(==)>(p: Pool<T>, made: T): Pool<T> {
    p.(free := if p.free != [] then p.free[1..] else [], live := p.live + {Allocated(p, made)})
  }

  function Release<T(==)>(p: Pool<T>, t: T): Pool<T> {
    Pool([t] + p.free, p.live - {t}, if |p.free| < p.nodes then p.nodes else p.nodes + 1)
  }

  // ---------- Runs ----------

  /** A client's call; `Take` carries the payload a constructor would return. */
  datatype Call<T> = Take(made: T) | Give(payload: T)

  function Do<T(==)>(p: Pool<T>, c: Call<T>): Pool<T> {
    match c
    case Take(made) => Allocate(p, made)
    case Give(t) => Release(p, t)
  }

  function Run<T(==)>(calls: seq<Call<T>>, n: nat): Pool<T>
    requires n <= |calls|
  {
    if n == 0 then EmptyPool() else Do(Run(calls, n - 1), calls[n - 1])
  }

  function Members<T(==)>(s: seq<T>): set<T> {
    set x | x in s
  }

  /** Every payload that exists. */
  function Made<T(==)>(p: Pool<T>): set<T> {
    p.live + Members(p.free)
  }

  /** A constructor returns an object that does not exist yet, and only live payloads are
      given back. */
  predicate Allowed<T(==)>(p: Pool<T>, c: Call<T>) {
    match c
    case Take(made) => p.free == [] ==> made !in Made(p)
    case Give(t) => t in p.live
  }

  ghost predicate AllowedAt<T>(calls: seq<Call<T>>, k: nat)
    requires k < |calls|
  {
    Allowed(Run(calls, k), calls[k])
  }

  ghost predicate Disciplined<T>(calls: seq<Call<T>>, n: nat)
    requires n <= |calls|
  {
    forall k :: 0 <= k < n ==> AllowedAt(calls, k)
  }

  /** Free payloads are distinct and none of them is live. */
  predicate Sound<T(==)>(p: Pool<T>) {
    Distinct(p.free) && (forall i :: 0 <= i < |p.free| ==> p.free[i] !in p.live) && |p.free| <= p.nodes
  }

  lemma MembersStep<T>(s: seq<T>)
    requires s != []
    ensures Members(s) == Members(s[1..]) + {s[0]}
  {
  }

  lemma {:induction false} MembersCount<T>(s: seq<T>)
    requires Distinct(s)
    ensures |Members(s)| == |s|
  {
    if s != [] {
      MembersStep(s);
      forall i | 0 <= i < |s[1..]|
        ensures s[1..][i] != s[0]
      {
        assert s[1..][i] == s[i + 1];
      }
      MembersCount(s[1..]);
    }
  }

  lemma AllocateKeeps<T>(p: Pool<T>, made: T)
    requires Sound(p) && Allowed(p, Take(made))
    ensures Sound(Allocate(p, made))
    ensures Allocated(p, made) !in p.live
    ensures Made(Allocate(p, made)) == Made(p) + {Allocated(p, made)}
  {
  }

  /** Exactly when a release keeps the free payloads distinct and dead: the payload is not free
      already. Whether it was ever handed out does not matter. */
  lemma ReleaseKeepsIff<T>(p: Pool<T>, t: T)
    requires Sound(p)
    ensures Sound(Release(p, t)) <==> t !in p.free
  {
    var q := Release(p, t);
    assert q.free[0] == t && q.free[1..] == p.free;
    assert forall i :: 0 <= i < |p.free| ==> q.free[i + 1] == p.free[i];
  }

  /** A release of a live payload makes no payload and drops none. */
  lemma ReleaseMoves<T>(p: Pool<T>, t: T)
    requires Sound(p) && t in p.live
    ensures Sound(Release(p, t)) && Made(Release(p, t)) == Made(p)
  {
    ReleaseKeepsIff(p, t);
  }

  /** The most payloads that were live at once. */
  ghost function PeakLive<T(!new)>(calls: seq<Call<T>>, n: nat): nat
    requires n <= |calls|
  {
    if n == 0 then 0 else Max(PeakLive(calls, n - 1), |Run(calls, n).live|)
  }

  /** The most payloads that were free at once. */
  ghost function PeakFree<T(!new)>(calls: seq<Call<T>>, n: nat): nat
    requires n <= |calls|
  {
    if n == 0 then 0 else Max(PeakFree(calls, n - 1), |Run(calls, n).free|)
  }

  lemma MadeCount<T>(p: Pool<T>)
    requires Sound(p)
    ensures |Made(p)| == |p.live| + |p.free|
  {
    MembersCount(p.free);
    assert p.live !! Members(p.free);
  }

  /** The pool is sound, it has constructed as many payloads as were ever live at once, and
      as many nodes as were ever free at once. */
  predicate Tight<T(==)>(p: Pool<T>, peakLive: nat, peakFree: nat) {
    Sound(p) && |Made(p)| == peakLive && p.nodes == peakFree
  }

  /** Every disciplined run is tight. */
  lemma {:induction false} RunIsTight<T(!new)>(calls: seq<Call<T>>, n: nat)
    requires n <= |calls| && Disciplined(calls, n)
    ensures Tight(Run(calls, n), PeakLive(calls, n), PeakFree(calls, n))
    decreases n
  {
    if n > 0 {
      assert AllowedAt(calls, n - 1);
      RunIsTight(calls, n - 1);
      RunStaysTight(calls, n);
    } else {
      EmptyIsTight<T>();
    }
  }

  lemma RunStaysTight<T(!new)>(calls: seq<Call<T>>, n: nat)
    requires 0 < n <= |calls| && AllowedAt(calls, n - 1)
    requires Tight(Run(calls, n - 1), PeakLive(calls, n - 1), PeakFree(calls, n - 1))
    ensures Tight(Run(calls, n), PeakLive(calls, n), PeakFree(calls, n))
  {
    StepIsTight(Run(calls, n - 1), calls[n - 1], PeakLive(calls, n - 1), PeakFree(calls, n - 1));
  }

  lemma EmptyIsTight<T>()
    ensures Tight(EmptyPool<T>(), 0, 0)
  {
    assert Made(EmptyPool<T>()) == {};
  }

  lemma StepIsTight<T>(p: Pool<T>, c: Call<T>, peakLive: nat, peakFree: nat)
    requires Tight(p, peakLive, peakFree) && Allowed(p, c)
    ensures Tight(Do(p, c), Max(peakLive, |Do(p, c).live|), Max(peakFree, |Do(p, c).free|))
  {
    StepKeeps(p, c);
    StepCounts(p, c);
  }

  lemma StepKeeps<T>(p: Pool<T>, c: Call<T>)
    requires Sound(p) && Allowed(p, c)
    ensures Sound(Do(p, c))
  {
    match c
    case Take(made) => AllocateKeeps(p, made);
    case Give(t) => ReleaseKeepsIff(p, t);
  }

  lemma TakeCounts<T>(p: Pool<T>, made: T)
    requires Sound(p) && Allowed(p, Take(made))
    ensures |Made(Allocate(p, made))| == Max(|Made(p)|, |p.live| + 1) && |Allocate(p, made).live| == |p.live| + 1
  {
    AllocateKeeps(p, made);
    MadeCount(p);
    MadeCount(Allocate(p, made));
  }

  lemma GiveCounts<T>(p: Pool<T>, t: T)
    requires Sound(p) && Allowed(p, Give(t))
    ensures |Made(Release(p, t))| == |Made(p)| >= |Release(p, t).live|
  {
    ReleaseMoves(p, t);
    MadeCount(p);
  }

  /** Both high-water marks move exactly when their counters do. */
  lemma StepCounts<T>(p: Pool<T>, c: Call<T>)
    requires Sound(p) && Allowed(p, c)
    ensures |Made(Do(p, c))| == Max(|Made(p)|, |Do(p, c).live|)
    ensures Do(p, c).nodes == Max(p.nodes, |Do(p, c).free|)
  {
    match c
    case Take(made) => TakeCounts(p, made);
    case Give(t) => GiveCounts(p, t);
  }

  /** No call of a disciplined run hands out a payload that is still live. */
  lemma NoLivePayloadIsHandedOut<T(!new)>(calls: seq<Call<T>>, k: nat)
    requires k < |calls| && Disciplined(calls, |calls|) && calls[k].Take?
    ensures Allocated(Run(calls, k), calls[k].made) !in Run(calls, k).live
  {
    RunIsTight(calls, k);
    assert AllowedAt(calls, k);
    AllocateKeeps(Run(calls, k), calls[k].made);
  }

  /** Last given, first taken: allocating undoes a release. */
  lemma AllocateUndoesRelease<T>(p: Pool<T>, t: T, made: T)
    requires t in p.live
    ensures Allocated(Release(p, t), made) == t
    ensures Allocate(Release(p, t), made).free == p.free && Allocate(Release(p, t), made).live == p.live
  {
  }

  /** What an unsound release leads to: after giving a payload back twice the next two
      allocations return it both times, so the second hands out a live one. */
  lemma DoubleReleaseAliases<T>(p: Pool<T>, t: T, made: T)
    ensures var q := Release(Release(p, t), t);
            var first := Allocate(q, made);
            Allocated(q, made) == t && Allocated(first, made) == t && t in first.live && !Sound(q)
  {
  }
}

/** The pool as the source keeps it: one doubly linked list with a cursor, empty nodes
    before it and full nodes from it on (mm.cpp). */
module PayloadPool {
  import opened PoolSpec

  class Payload {
    constructor ()
    {
    }
  }

  class Access {
    var trans: Payload?
    var next: Access?
    var prev: Access?

    constructor (next: Access?)
      ensures this.next == next && prev == null
    {
      trans, this.next, prev := null, next, null;
    }
  }

  class MemoryManager {
    var freeList: Access?
    var empties: Access?
    ghost var nodes: seq<Access>
    ghost var free: seq<Payload>
    ghost var live: set<Payload>

    /** Node `i` of the list, null beyond its ends. */
    ghost function At(i: int): Access?
      reads this
    {
      if 0 <= i < |nodes| then nodes[i] else null
    }

    ghost predicate Linked()
      reads this, nodes
    {
      && (forall i, j :: 0 <= i < j < |nodes| ==> nodes[i] != nodes[j])
      && (forall i {:trigger nodes[i].next} :: 0 <= i < |nodes| ==> nodes[i].next == At(i + 1))
      && (forall i {:trigger nodes[i].prev} :: 0 <= i < |nodes| ==> nodes[i].prev == At(i - 1))
    }

    /** The first node that holds a free payload. */
    ghost function Cursor(): int
      reads this
    {
      |nodes| - |free|
    }

    /** The nodes before the cursor are empty and those from it on hold the free payloads,
        the most recent one first. */
    ghost predicate Valid()
      reads this, nodes
    {
      && Linked()
      && 0 <= Cursor()
      && freeList == At(Cursor())
      && empties == At(Cursor() - 1)
      && forall i {:trigger nodes[i].trans} :: Cursor() <= i < |nodes| ==> nodes[i].trans == free[i - Cursor()]
    }

    ghost function Abs(): Pool<Payload>
      reads this
    {
      Pool(free, live, |nodes|)
    }

    constructor ()
      ensures Valid() && Abs() == EmptyPool()
    {
      freeList, empties := null, null;
      nodes, free, live := [], [], {};
    }

    /** The most recently freed payload, or a new one when none is free. */
    method Allocate() returns (ptr: Payload)
      requires Valid()
      modifies this
      ensures Valid() && nodes == old(nodes)
      ensures old(free) == [] ==> fresh(ptr)
      ensures ptr == Allocated(old(Abs()), ptr)
      ensures Abs() == PoolSpec.Allocate(old(Abs()), ptr)
    {
      if freeList != null {
        ptr := freeList.trans;
        empties := freeList;
        freeList := freeList.next;
        free := free[1..];
      } else {
        ptr := new Payload();
      }
      live := live + {ptr};
    }

    /** The payload goes on top of the stack, into a node left empty by an earlier
        allocation if there is one. No node is ever dropped. */
    method Release(trans: Payload)
      requires Valid()
      modifies this, nodes
      ensures Valid()
      ensures nodes != [] && (nodes == old(nodes) || (nodes == [nodes[0]] + old(nodes) && fresh(nodes[0])))
      ensures Abs() == PoolSpec.Release(old(Abs()), trans)
    {
      if empties == null {
        AddNode();
      }
      Fill(trans);
    }

    /** Step the cursor back over an empty node and fill it. */
    method Fill(trans: Payload)
      requires Valid() && empties != null
      modifies this, nodes
      ensures Valid() && nodes == old(nodes)
      ensures free == [trans] + old(free) && live == old(live) - {trans}
    {
      freeList := empties;
      freeList.trans := trans;
      empties := freeList.prev;
      free := [trans] + free;
      live := live - {trans};
    }

    /** A new node at the head of the list, when every node is full. */
    method AddNode()
      requires Valid() && empties == null
      modifies this, nodes
      ensures Valid() && empties != null
      ensures nodes != [] && nodes == [nodes[0]] + old(nodes) && fresh(nodes[0])
      ensures free == old(free) && live == old(live) && Cursor() == 1
    {
      var node := new Access(freeList);
      empties := node;
      if freeList != null {
        freeList.prev := node;
      }
      nodes := [node] + nodes;
    }
  }
}
