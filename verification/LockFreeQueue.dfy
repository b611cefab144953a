/** The single-producer/single-consumer linked queue, as interleaved atomic steps over a heap of nodes.
    The signal handler is the producer and the periodic process check is the consumer. */
module LockFreeQueue {
  import opened Wrappers

  type Addr = nat
  datatype Node<T> = Node(data: Option<T>, next: Option<Addr>)

  /** Program counter and local variables of `push`, one constructor per pending atomic step. */
  datatype Producer<T> =
    | PIdle
    | PLoadTail(v: T, p: Addr)
    | PSwap(v: T, p: Addr, oldTail: Addr)
    | PLink(p: Addr, oldTail: Addr)
    | PPublish(v: T, p: Addr)

  /** Program counter and local variables of `pop` and `pop_head`. */
  datatype Consumer<T> =
    | CIdle
    | CTest(oldHead: Addr)
    | CNext(oldHead: Addr)
    | CStore(oldHead: Addr, next: Addr)
    | CTake(oldHead: Addr)
    | CDelete(oldHead: Addr, res: T)

  /** `pushed` and `popped` record the pushes that have published and the pops that have returned a value. */
  datatype State<T> = State(
    heap: map<Addr, Node<T>>, head: Addr, tail: Addr,
    producer: Producer<T>, consumer: Consumer<T>,
    pushed: seq<T>, popped: seq<T>)

  /** `Fault` is a touch of a deleted node, a null `next` followed, or null data handed out. */
  datatype Outcome<T> = Next(s: State<T>) | Fault

  /** A scheduler decision.  `v` and `cell` are used only when a push starts: the value pushed and the
      address the allocator returns, which may be one that was deleted before. */
  datatype Event<T> = Produce(v: T, cell: Addr) | Consume

  function Init<T>(a: Addr): State<T> {
    State(map[a := Node(None, None)], a, a, PIdle, CIdle, [], [])
  }

  function ProducerStep<T>(s: State<T>, v: T, cell: Addr): Outcome<T> {
    match s.producer
    case PIdle =>
      if cell in s.heap then Next(s)  // an allocator never returns a live address
      else Next(s.(heap := s.heap[cell := Node(None, None)], producer := PLoadTail(v, cell)))
    case PLoadTail(v, p) => Next(s.(producer := PSwap(v, p, s.tail)))
    case PSwap(v, p, t) =>
      if t !in s.heap then Fault
      else Next(s.(heap := s.heap[t := s.heap[t].(data := Some(v))], producer := PLink(p, t)))
    case PLink(p, t) =>
      if t !in s.heap || s.heap[t].data.None? then Fault
      else Next(s.(heap := s.heap[t := s.heap[t].(next := Some(p))], producer := PPublish(s.heap[t].data.value, p)))
    case PPublish(v, p) => Next(s.(tail := p, producer := PIdle, pushed := s.pushed + [v]))
  }

  function ConsumerStep<T>(s: State<T>): Outcome<T> {
    match s.consumer
    case CIdle => Next(s.(consumer := CTest(s.head)))
    case CTest(h) => Next(s.(consumer := if h == s.tail then CIdle else CNext(h)))
    case CNext(h) =>
      if h !in s.heap || s.heap[h].next.None? then Fault
      else Next(s.(consumer := CStore(h, s.heap[h].next.value)))
    case CStore(h, n) => Next(s.(head := n, consumer := CTake(h)))
    case CTake(h) =>
      if h !in s.heap || s.heap[h].data.None? then Fault
      else Next(s.(consumer := CDelete(h, s.heap[h].data.value)))
    case CDelete(h, res) =>
      if h !in s.heap then Fault
      else Next(s.(heap := s.heap - {h}, consumer := CIdle, popped := s.popped + [res]))
  }

  function Step<T>(s: State<T>, e: Event<T>): Outcome<T> {
    match e
    case Produce(v, cell) => ProducerStep(s, v, cell)
    case Consume => ConsumerStep(s)
  }

  function Run<T>(s: State<T>, events: seq<Event<T>>): Outcome<T>
    decreases |events|
  {
    if events == [] then Next(s)
    else
      var o := Step(s, events[0]);
      if o.Fault? then Fault else Run(o.s, events[1..])
  }

  // ---------------------------------------------------------------- invariant

  /** The node the producer has allocated and not yet published. */
  function Private<T>(s: State<T>): set<Addr> {
    match s.producer
    case PIdle => {}
    case PLoadTail(_, p) => {p}
    case PSwap(_, p, _) => {p}
    case PLink(p, _) => {p}
    case PPublish(_, p) => {p}
  }

  /** The node the consumer has unlinked and not yet deleted. */
  function Detached<T>(s: State<T>): set<Addr> {
    match s.consumer
    case CTake(h) => {h}
    case CDelete(h, _) => {h}
    case _ => {}
  }

  /** How many values have left the chain: those popped and the one the consumer has in hand. */
  function Taken<T>(s: State<T>): nat {
    |s.popped| + if s.consumer.CTake? || s.consumer.CDelete? then 1 else 0
  }

  /** `cells[i]` is the node that holds, or held, the i-th value pushed; the last one is the dummy.  The nodes
      from `lo` on are the chain from head to tail. */
  ghost function Nodes(cells: seq<Addr>, lo: nat): set<Addr> {
    set i | lo <= i < |cells| :: cells[i]
  }

  /** The chain from head to tail spells, in order, exactly the values pushed and not yet taken. */
  ghost predicate Linked<T>(s: State<T>, cells: seq<Addr>) {
    var lo := Taken(s);
    && |cells| == |s.pushed| + 1 && lo <= |s.pushed|
    && cells[lo] == s.head && cells[|s.pushed|] == s.tail
    && (forall i, j :: lo <= i < j < |cells| ==> cells[i] != cells[j])
    && Nodes(cells, lo) <= s.heap.Keys
    && (forall i {:trigger s.pushed[i]} :: lo <= i < |s.pushed| ==>
          cells[i] in s.heap && s.heap[cells[i]] == Node(Some(s.pushed[i]), Some(cells[i + 1])))
  }

  /** What the last node of the chain, the dummy, holds at each point of a push. */
  ghost predicate ProducerOk<T>(s: State<T>) {
    && s.tail in s.heap
    && (forall p :: p in Private(s) ==> p in s.heap && s.heap[p] == Node(None, None))
    && match s.producer
       case PIdle => s.heap[s.tail] == Node(None, None)
       case PLoadTail(_, p) => s.heap[s.tail] == Node(None, None)
       case PSwap(_, p, t) => t == s.tail && s.heap[t] == Node(None, None)
       case PLink(p, t) => t == s.tail && s.heap[t].data.Some? && s.heap[t].next.None?
       case PPublish(v, p) => s.heap[s.tail] == Node(Some(v), Some(p))
  }

  ghost predicate ConsumerOk<T>(s: State<T>) {
    match s.consumer
    case CIdle => true
    case CTest(h) => h == s.head
    case CNext(h) => h == s.head && Taken(s) < |s.pushed|
    case CStore(h, n) => h == s.head && Taken(s) < |s.pushed| && h in s.heap && s.heap[h].next == Some(n)
    case CTake(h) => |s.popped| < |s.pushed| && h in s.heap && s.heap[h].data == Some(s.pushed[|s.popped|])
    case CDelete(h, res) => |s.popped| < |s.pushed| && h in s.heap && res == s.pushed[|s.popped|]
  }

  /** Nothing is leaked: the heap is exactly the chain, the producer's private node and the consumer's detached
      node, all different. */
  ghost predicate InvWith<T>(s: State<T>, cells: seq<Addr>) {
    && Linked(s, cells) && ProducerOk(s) && ConsumerOk(s)
    && s.heap.Keys == Nodes(cells, Taken(s)) + Private(s) + Detached(s)
    && Private(s) !! Nodes(cells, Taken(s)) && Detached(s) !! Nodes(cells, Taken(s)) && Private(s) !! Detached(s)
    && s.popped <= s.pushed
  }

  ghost predicate Inv<T>(s: State<T>) {
    exists cells :: InvWith(s, cells)
  }

  lemma HeadIsTailIffDrained<T>(s: State<T>, cells: seq<Addr>)
    requires Linked(s, cells)
    ensures s.head == s.tail <==> Taken(s) == |s.pushed|
    ensures s.head in Nodes(cells, Taken(s)) && s.tail in Nodes(cells, Taken(s))
  {
    assert cells[Taken(s)] == s.head && cells[|s.pushed|] == s.tail;
  }

  lemma ProducerWrites<T>(s: State<T>, v: T, cell: Addr, cells: seq<Addr>)
    requires InvWith(s, cells) && !s.producer.PPublish?
    ensures ProducerStep(s, v, cell).Next? && InvWith(ProducerStep(s, v, cell).s, cells)
  {
    HeadIsTailIffDrained(s, cells);
    var s' := ProducerStep(s, v, cell).s;
    ProducerLeavesChain(s, v, cell, cells);
  }

  /** Until it publishes, the producer writes its own node and the dummy, nothing else of the chain. */
  lemma ProducerLeavesChain<T>(s: State<T>, v: T, cell: Addr, cells: seq<Addr>)
    requires Linked(s, cells) && ProducerOk(s) && !s.producer.PPublish?
    ensures ProducerStep(s, v, cell).Next? && Linked(ProducerStep(s, v, cell).s, cells)
  {
    assert cells[|s.pushed|] == s.tail;
    assert forall i :: Taken(s) <= i < |s.pushed| ==> cells[i] != s.tail;
  }

  lemma ProducerPublishes<T>(s: State<T>, v: T, cell: Addr, cells: seq<Addr>)
    requires InvWith(s, cells) && s.producer.PPublish?
    ensures ProducerStep(s, v, cell).Next? && InvWith(ProducerStep(s, v, cell).s, cells + [s.producer.p])
  {
    var s', p := ProducerStep(s, v, cell).s, s.producer.p;
    assert p in Private(s);
    assert Nodes(cells + [p], Taken(s)) == Nodes(cells, Taken(s)) + {p} by {
      assert (cells + [p])[|cells|] == p;
      assert forall i :: Taken(s) <= i < |cells| ==> (cells + [p])[i] == cells[i];
    }
  }

  /** Unlinking the head moves it from the chain to the consumer's hand. */
  lemma ConsumerUnlinks<T>(s: State<T>, cells: seq<Addr>)
    requires InvWith(s, cells) && s.consumer.CStore?
    ensures ConsumerStep(s).Next? && InvWith(ConsumerStep(s).s, cells)
  {
    var s', lo := ConsumerStep(s).s, Taken(s);
    assert s.heap[cells[lo]] == Node(Some(s.pushed[lo]), Some(cells[lo + 1]));
    assert Nodes(cells, lo) == Nodes(cells, lo + 1) + {cells[lo]};
    assert cells[lo] !in Nodes(cells, lo + 1);
  }

  lemma ConsumerDeletes<T>(s: State<T>, cells: seq<Addr>)
    requires InvWith(s, cells) && s.consumer.CDelete?
    ensures ConsumerStep(s).Next? && InvWith(ConsumerStep(s).s, cells)
  {
    var s' := ConsumerStep(s).s;
    assert s.consumer.oldHead in Detached(s);
    assert Linked(s', cells) by {
      assert forall i :: Taken(s) <= i < |cells| ==> cells[i] in Nodes(cells, Taken(s));
    }
  }

  lemma ConsumerReads<T>(s: State<T>, cells: seq<Addr>)
    requires InvWith(s, cells) && !s.consumer.CStore? && !s.consumer.CDelete?
    ensures ConsumerStep(s).Next? && InvWith(ConsumerStep(s).s, cells)
  {
    HeadIsTailIffDrained(s, cells);
    if s.consumer.CNext? {
      assert s.heap[cells[Taken(s)]].data == Some(s.pushed[Taken(s)]);
    }
    assert Linked(ConsumerStep(s).s, cells);
  }

  /** What every reader of the queue may rely on, at any point of any interleaving. */
  lemma ConsumerView<T>(s: State<T>)
    requires Inv(s)
    ensures s.head == s.tail <==> Taken(s) == |s.pushed|
    ensures s.popped <= s.pushed && |s.popped| <= Taken(s) <= |s.pushed|
    ensures s.consumer.CDelete? ==> |s.popped| < |s.pushed| && s.consumer.res == s.pushed[|s.popped|]
  {
    var cells :| InvWith(s, cells);
    HeadIsTailIffDrained(s, cells);
  }

  lemma StepKeeps<T>(s: State<T>, e: Event<T>)
    requires Inv(s)
    ensures Step(s, e).Next? && Inv(Step(s, e).s)
  {
    var cells :| InvWith(s, cells);
    match e
    case Produce(v, cell) =>
      if s.producer.PPublish? {
        ProducerPublishes(s, v, cell, cells);
      } else {
        ProducerWrites(s, v, cell, cells);
      }
    case Consume =>
      if s.consumer.CStore? {
        ConsumerUnlinks(s, cells);
      } else if s.consumer.CDelete? {
        ConsumerDeletes(s, cells);
      } else {
        ConsumerReads(s, cells);
      }
  }

  /** Every interleaving: no step ever touches a deleted node or follows a null link, no node leaks, the chain
      spells exactly the values not yet popped, and the values popped so far are a prefix of those pushed. */
  lemma {:induction false} AnyInterleavingIsSafe<T>(s: State<T>, events: seq<Event<T>>)
    requires Inv(s)
    ensures Run(s, events).Next? && Inv(Run(s, events).s)
    ensures Run(s, events).s.popped <= Run(s, events).s.pushed
    decreases |events|
  {
    if events != [] {
      StepKeeps(s, events[0]);
      AnyInterleavingIsSafe(Step(s, events[0]).s, events[1..]);
    }
  }

  lemma InitIsSafe<T>(a: Addr)
    ensures Inv(Init<T>(a))
  {
    assert Nodes([a], 0) == {a} by { assert [a][0] == a; }
    assert InvWith(Init<T>(a), [a]);
  }

  /** `pop` comes back empty-handed only at an instant when every published value has been popped. */
  lemma EmptyPopMeansDrained<T>(a: Addr, events: seq<Event<T>>)
    requires Run(Init<T>(a), events).Next?
    ensures var s := Run(Init<T>(a), events).s;
            s.consumer.CTest? && ConsumerStep(s) == Next(s.(consumer := CIdle)) ==> s.popped == s.pushed
  {
    InitIsSafe<T>(a);
    AnyInterleavingIsSafe(Init<T>(a), events);
    ConsumerView(Run(Init<T>(a), events).s);
  }

  function Repeat<T>(e: Event<T>, n: nat): seq<Event<T>> {
    seq(n, _ => e)
  }

  lemma RunOnce<T>(s: State<T>, e: Event<T>, n: nat)
    requires n > 0
    ensures Run(s, Repeat(e, n)) == if Step(s, e).Fault? then Fault else Run(Step(s, e).s, Repeat(e, n - 1))
  {
    assert Repeat(e, n)[1..] == Repeat(e, n - 1);
  }

  /** Five producer steps from rest are one push. */
  lemma PushAlone<T>(s: State<T>, v: T, cell: Addr)
    requires Run(s, Repeat(Produce(v, cell), 5)).Next? && s.producer == PIdle && cell !in s.heap
    ensures s.tail in s.heap[cell := Node(None, None)]
    ensures var heap1 := s.heap[cell := Node(None, None)];
            var heap2 := heap1[s.tail := heap1[s.tail].(data := Some(v))];
            Run(s, Repeat(Produce(v, cell), 5)).s ==
            s.(heap := heap2[s.tail := heap2[s.tail].(next := Some(cell))], tail := cell, pushed := s.pushed + [v])
  {
    var e := Produce(v, cell);
    RunOnce(s, e, 5);
    var s1 := Step(s, e).s;
    RunOnce(s1, e, 4);
    var s2 := Step(s1, e).s;
    RunOnce(s2, e, 3);
    var s3 := Step(s2, e).s;
    RunOnce(s3, e, 2);
    var s4 := Step(s3, e).s;
    RunOnce(s4, e, 1);
  }

  /** The first four consumer steps from rest unlink the head of a non-empty queue. */
  lemma UnlinkAlone<T>(s: State<T>)
    requires Run(s, Repeat(Consume, 6)).Next? && s.consumer == CIdle && s.head != s.tail
    ensures s.head in s.heap && s.heap[s.head].next.Some?
    ensures Run(s, Repeat(Consume, 6)) ==
            Run(s.(head := s.heap[s.head].next.value, consumer := CTake(s.head)), Repeat(Consume, 2))
  {
    hide Run, Repeat;
    RunOnce(s, Consume, 6);
    var s1 := s.(consumer := CTest(s.head));
    RunOnce(s1, Consume, 5);
    var s2 := s.(consumer := CNext(s.head));
    RunOnce(s2, Consume, 4);
    var s3 := s.(consumer := CStore(s.head, s.heap[s.head].next.value));
    RunOnce(s3, Consume, 3);
  }

  /** Six consumer steps from rest are one pop of a non-empty queue. */
  lemma PopAlone<T>(s: State<T>)
    requires Run(s, Repeat(Consume, 6)).Next? && s.consumer == CIdle && s.head != s.tail
    ensures s.head in s.heap && s.heap[s.head].data.Some? && s.heap[s.head].next.Some?
    ensures Run(s, Repeat(Consume, 6)).s ==
            s.(heap := s.heap - {s.head}, head := s.heap[s.head].next.value,
               popped := s.popped + [s.heap[s.head].data.value])
  {
    UnlinkAlone(s);
    var s4 := s.(head := s.heap[s.head].next.value, consumer := CTake(s.head));
    RunOnce(s4, Consume, 2);
    var s5 := Step(s4, Consume).s;
    RunOnce(s5, Consume, 1);
  }

  /** The queue object itself, its methods run without interference: each statement is one step of the machine
      above.  The heap of nodes is a field, so `delete` and the reuse of an address are explicit. */
  class Queue<T> {
    var heap: map<Addr, Node<T>>
    var head: Addr
    var tail: Addr
    ghost var pushed: seq<T>
    ghost var popped: seq<T>

    ghost function AsState(): State<T>
      reads this
    {
      State(heap, head, tail, PIdle, CIdle, pushed, popped)
    }

    ghost predicate Valid()
      reads this
    {
      Inv(AsState())
    }

    constructor (cell: Addr)
      ensures Valid() && pushed == popped == []
    {
      InitIsSafe<T>(cell);
      heap, head, tail := map[cell := Node(None, None)], cell, cell;
      pushed, popped := [], [];
    }

    method Push(v: T, cell: Addr)
      requires Valid() && cell !in heap
      modifies this
      ensures Valid() && pushed == old(pushed) + [v] && popped == old(popped)
    {
      AnyInterleavingIsSafe(AsState(), Repeat(Produce(v, cell), 5));
      PushAlone(AsState(), v, cell);
      heap := heap[cell := Node(None, None)];
      var oldTail := tail;
      heap := heap[oldTail := heap[oldTail].(data := Some(v))];
      heap := heap[oldTail := heap[oldTail].(next := Some(cell))];
      tail := cell;
      pushed := pushed + [v];
    }

    method Pop() returns (res: Option<T>)
      requires Valid()
      modifies this
      ensures Valid() && pushed == old(pushed) && popped <= pushed
      ensures res.None? <==> old(popped) == pushed
      ensures popped == old(popped) + if res.Some? then [res.value] else []
      ensures res.Some? ==> heap.Keys == old(heap.Keys) - {old(head)}
    {
      ConsumerView(AsState());
      var oldHead := head;
      if oldHead == tail {
        return None;
      }
      AnyInterleavingIsSafe(AsState(), Repeat(Consume, 6));
      PopAlone(AsState());
      head := heap[oldHead].next.value;
      res := heap[oldHead].data;
      heap := heap - {oldHead};
      popped := popped + [res.value];
    }
  }
}
