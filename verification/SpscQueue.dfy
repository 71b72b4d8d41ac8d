/** The bounded single-producer single-consumer queue with stale cached indices.

    The producer and the consumer each run one call at a time; every access to a shared index or
    to the buffer is one step. Indices are stored masked, as in the source. The counters
    `heads`, `tails`, `seenTails` and `seenHeads` are histories that count the same indices
    without masking; no step reads them. */
module SpscQueue {
  import opened Options
  import opened RingIndex

  datatype PushPc<T> =
    | PushIdle
    | PushLoadHead(item: T)
    | PushCheck(item: T, head: nat)
    | PushReload(item: T, head: nat)
    | PushWrite(item: T, head: nat)
    | PushStore(item: T, head: nat)
    | PushDone(ok: bool)

  datatype PopPc<T> =
    | PopIdle
    | PopLoadTail
    | PopCheck(tail: nat)
    | PopReload(tail: nat)
    | PopRead(tail: nat)
    | PopStore(item: T, tail: nat)
    | PopDone(result: Option<T>)

  datatype State<T> = State(
    buffer: seq<Option<T>>, head: nat, tail: nat, cachedTail: nat, cachedHead: nat,
    producer: PushPc<T>, consumer: PopPc<T>,
    heads: nat, tails: nat, seenTails: nat, seenHeads: nat, pushed: seq<T>, popped: seq<T>)

  datatype Action<T> = BeginPush(item: T) | Produce | BeginPop | Consume

  predicate WellFormed<T>(s: State<T>) {
    && 0 < |s.buffer|
    && s.head < |s.buffer| && s.tail < |s.buffer|
    && (s.producer.PushCheck? || s.producer.PushReload? || s.producer.PushWrite? || s.producer.PushStore?
        ==> s.producer.head < |s.buffer|)
    && (s.consumer.PopCheck? || s.consumer.PopReload? || s.consumer.PopRead? || s.consumer.PopStore?
        ==> s.consumer.tail < |s.buffer|)
  }

  function Init<T>(capacity: nat): (s: State<T>)
    requires 0 < capacity
    ensures WellFormed(s)
  {
    State(seq(capacity, i => None), 0, 0, 0, 0, PushIdle, PopIdle, 0, 0, 0, 0, [], [])
  }

  /** `(index + 1) & MASK` */
  function Following(index: nat, capacity: nat): (next: nat)
    requires 0 < capacity
    ensures next < capacity
  {
    Slot(index + 1, capacity)
  }

  function Next<T>(s: State<T>, a: Action<T>): (s': State<T>)
    requires WellFormed(s)
    ensures WellFormed(s') && |s'.buffer| == |s.buffer|
  {
    match a
    case BeginPush(item) =>
      if s.producer.PushIdle? || s.producer.PushDone? then s.(producer := PushLoadHead(item)) else s
    case BeginPop =>
      if s.consumer.PopIdle? || s.consumer.PopDone? then s.(consumer := PopLoadTail) else s
    case Produce => ProducerStep(s)
    case Consume => ConsumerStep(s)
  }

  function ProducerStep<T>(s: State<T>): (s': State<T>)
    requires WellFormed(s)
    ensures WellFormed(s') && |s'.buffer| == |s.buffer|
  {
    match s.producer
    case PushIdle => s
    case PushDone(_) => s
    case PushLoadHead(item) => s.(producer := PushCheck(item, s.head))
    case PushCheck(item, head) =>
      s.(producer := if Following(head, |s.buffer|) == s.cachedTail then PushReload(item, head)
                     else PushWrite(item, head))
    case PushReload(item, head) =>
      s.(cachedTail := s.tail, seenTails := s.tails,
         producer := if Following(head, |s.buffer|) == s.tail then PushDone(false)
                     else PushWrite(item, head))
    case PushWrite(item, head) =>
      s.(buffer := s.buffer[head := Some(item)], producer := PushStore(item, head))
    case PushStore(item, head) =>
      s.(head := Following(head, |s.buffer|), heads := s.heads + 1, pushed := s.pushed + [item],
         producer := PushDone(true))
  }

  function ConsumerStep<T>(s: State<T>): (s': State<T>)
    requires WellFormed(s)
    ensures WellFormed(s') && |s'.buffer| == |s.buffer|
  {
    match s.consumer
    case PopIdle => s
    case PopDone(_) => s
    case PopLoadTail => s.(consumer := PopCheck(s.tail))
    case PopCheck(tail) =>
      s.(consumer := if tail == s.cachedHead then PopReload(tail) else PopRead(tail))
    case PopReload(tail) =>
      s.(cachedHead := s.head, seenHeads := s.heads,
         consumer := if tail == s.head then PopDone(None) else PopRead(tail))
    case PopRead(tail) =>
      (match s.buffer[tail]
       // Moving the item out leaves the cell without one.
       case Some(item) => s.(buffer := s.buffer[tail := None], consumer := PopStore(item, tail))
       case None => s)
    case PopStore(item, tail) =>
      s.(tail := Following(tail, |s.buffer|), tails := s.tails + 1, popped := s.popped + [item],
         consumer := PopDone(Some(item)))
  }

  function Run<T>(s: State<T>, schedule: seq<Action<T>>): (s': State<T>)
    requires WellFormed(s)
    ensures WellFormed(s') && |s'.buffer| == |s.buffer|
    decreases |schedule|
  {
    if schedule == [] then s
    else Next(Run(s, schedule[..|schedule| - 1]), schedule[|schedule| - 1])
  }

  // ---------------------------------------------------------------------------------------
  // The invariant
  // ---------------------------------------------------------------------------------------

  /** The chain of counters: the cached indices lag, and at most capacity - 1 items are held. */
  predicate Chain<T>(s: State<T>) {
    && s.seenTails <= s.tails <= s.seenHeads <= s.heads
    && s.heads < s.seenTails + |s.buffer|
  }

  predicate Masked<T>(s: State<T>)
    requires 0 < |s.buffer|
  {
    && s.head == Slot(s.heads, |s.buffer|) && s.tail == Slot(s.tails, |s.buffer|)
    && s.cachedTail == Slot(s.seenTails, |s.buffer|)
    && s.cachedHead == Slot(s.seenHeads, |s.buffer|)
  }

  ghost predicate ProducerOk<T>(s: State<T>)
    requires WellFormed(s)
  {
    match s.producer
    case PushCheck(_, head) => head == s.head
    case PushReload(_, head) => head == s.head
    case PushWrite(_, head) => head == s.head && s.heads + 1 < s.seenTails + |s.buffer|
    case PushStore(item, head) =>
      && head == s.head && s.heads + 1 < s.seenTails + |s.buffer|
      && s.buffer[head] == Some(item)
    case _ => true
  }

  ghost predicate ConsumerOk<T>(s: State<T>)
    requires WellFormed(s)
  {
    match s.consumer
    case PopCheck(tail) => tail == s.tail
    case PopReload(tail) => tail == s.tail
    case PopRead(tail) => tail == s.tail && s.tails < s.seenHeads
    case PopStore(item, tail) =>
      tail == s.tail && s.tails < s.seenHeads && s.tails < |s.pushed| && item == s.pushed[s.tails]
    case PopDone(Some(item)) => 0 < s.tails && s.tails <= |s.pushed| && item == s.pushed[s.tails - 1]
    case _ => true
  }

  /** Every item between the two indices is in its cell; the one being popped has left it. */
  ghost predicate Stored<T>(buffer: seq<Option<T>>, pushed: seq<T>, k: nat)
    requires 0 < |buffer|
  {
    k < |pushed| ==> buffer[Slot(k, |buffer|)] == Some(pushed[k])
  }

  ghost predicate Inv<T>(s: State<T>) {
    && WellFormed(s) && Chain(s) && Masked(s)
    && |s.pushed| == s.heads
    && s.popped == s.pushed[..s.tails]
    && (forall k: nat :: s.tails <= k < s.heads && !(k == s.tails && s.consumer.PopStore?) ==>
          Stored(s.buffer, s.pushed, k))
    && ProducerOk(s) && ConsumerOk(s)
  }

  lemma InitInv<T>(capacity: nat)
    requires 0 < capacity
    ensures Inv(Init<T>(capacity))
  {
  }

  lemma {:induction false} FollowingSlot(pos: nat, capacity: nat)
    requires 0 < capacity
    ensures Following(Slot(pos, capacity), capacity) == Slot(pos + 1, capacity)
    decreases pos
  {
    if capacity <= pos {
      FollowingSlot(pos - capacity, capacity);
    }
  }

  /** Within one lap the masked comparison decides the logical one. */
  lemma SameSlot(p: nat, q: nat, capacity: nat)
    requires 0 < capacity && p <= q <= p + capacity
    ensures Slot(p, capacity) == Slot(q, capacity) <==> p == q || q == p + capacity
  {
    if p < q < p + capacity {
      SlotInjective(p, q, capacity);
    }
  }

  lemma ProducerStepInv<T>(s: State<T>)
    requires Inv(s)
    ensures Inv(ProducerStep(s))
  {
    var s' := ProducerStep(s);
    var n := |s.buffer|;
    FollowingSlot(s.heads, n);
    match s.producer
    case PushCheck(_, head) => SameSlot(s.seenTails, s.heads + 1, n);
    case PushReload(_, head) => SameSlot(s.tails, s.heads + 1, n);
    case PushWrite(item, head) => PushWriteInv(s);
    case PushStore(item, head) => PushStoreInv(s);
    case _ =>
  }

  lemma PushWriteInv<T>(s: State<T>)
    requires Inv(s) && s.producer.PushWrite?
    ensures Inv(ProducerStep(s))
  {
    var s' := ProducerStep(s);
    forall k: nat | s.tails <= k < s.heads && !(k == s.tails && s.consumer.PopStore?)
      ensures Stored(s'.buffer, s'.pushed, k)
    {
      assert Stored(s.buffer, s.pushed, k);
      SlotInjective(k, s.heads, |s.buffer|);
    }
  }

  lemma PushStoreInv<T>(s: State<T>)
    requires Inv(s) && s.producer.PushStore?
    ensures Inv(ProducerStep(s))
  {
    var s' := ProducerStep(s);
    FollowingSlot(s.heads, |s.buffer|);
    forall k: nat | s'.tails <= k < s'.heads && !(k == s'.tails && s'.consumer.PopStore?)
      ensures Stored(s'.buffer, s'.pushed, k)
    {
      if k < s.heads { assert Stored(s.buffer, s.pushed, k); }
    }
  }

  lemma ConsumerStepInv<T>(s: State<T>)
    requires Inv(s)
    ensures Inv(ConsumerStep(s))
  {
    var n := |s.buffer|;
    FollowingSlot(s.tails, n);
    match s.consumer
    case PopCheck(tail) => SameSlot(s.tails, s.seenHeads, n);
    case PopReload(tail) => SameSlot(s.tails, s.heads, n);
    case PopRead(tail) => PopReadInv(s);
    case PopStore(item, tail) => PopStoreInv(s);
    case _ =>
  }

  lemma PopReadInv<T>(s: State<T>)
    requires Inv(s) && s.consumer.PopRead?
    ensures Inv(ConsumerStep(s))
    ensures ConsumerStep(s).consumer == PopStore(s.pushed[s.tails], s.tail)
  {
    var s' := ConsumerStep(s);
    assert Stored(s.buffer, s.pushed, s.tails);
    forall k: nat | s'.tails <= k < s'.heads && !(k == s'.tails && s'.consumer.PopStore?)
      ensures Stored(s'.buffer, s'.pushed, k)
    {
      assert Stored(s.buffer, s.pushed, k);
      SlotInjective(s.tails, k, |s.buffer|);
    }
    if s.producer.PushStore? {
      SlotInjective(s.tails, s.heads, |s.buffer|);
    }
  }

  lemma PopStoreInv<T>(s: State<T>)
    requires Inv(s) && s.consumer.PopStore?
    ensures Inv(ConsumerStep(s))
  {
    var s' := ConsumerStep(s);
    FollowingSlot(s.tails, |s.buffer|);
    forall k: nat | s'.tails <= k < s'.heads ensures Stored(s'.buffer, s'.pushed, k) {
      assert Stored(s.buffer, s.pushed, k);
    }
  }

  /** Every step of either side keeps the invariant. */
  lemma NextInv<T>(s: State<T>, a: Action<T>)
    requires Inv(s)
    ensures Inv(Next(s, a))
  {
    match a
    case BeginPush(_) =>
    case BeginPop =>
    case Produce => ProducerStepInv(s);
    case Consume => ConsumerStepInv(s);
  }

  lemma {:induction false} RunInv<T>(s: State<T>, schedule: seq<Action<T>>)
    requires Inv(s)
    ensures Inv(Run(s, schedule))
    decreases |schedule|
  {
    if schedule != [] {
      RunInv(s, schedule[..|schedule| - 1]);
      NextInv(Run(s, schedule[..|schedule| - 1]), schedule[|schedule| - 1]);
    }
  }

  // ---------------------------------------------------------------------------------------
  // What the queue guarantees
  // ---------------------------------------------------------------------------------------

  /** The items pushed and not yet popped, oldest first. */
  ghost function Contents<T>(s: State<T>): seq<T>
    requires s.tails <= s.heads == |s.pushed|
  {
    s.pushed[s.tails..]
  }

  /** The queue refines a FIFO of capacity - 1 items: the index stores append and remove, the
      removed item is the one returned, and no other step changes the contents. */
  lemma StepRefinesFifo<T>(s: State<T>, a: Action<T>)
    requires Inv(s)
    ensures Inv(Next(s, a))
    ensures var s', before, after := Next(s, a), Contents(s), Contents(Next(s, a));
            && |before| < |s.buffer|
            && if a.Produce? && s.producer.PushStore? then
                 && |before| + 1 < |s.buffer| && after == before + [s.producer.item]
                 && s'.producer == PushDone(true)
               else if a.Consume? && s.consumer.PopStore? then
                 && before != [] && after == before[1..]
                 && s'.consumer == PopDone(Some(before[0]))
               else
                 after == before
  {
    NextInv(s, a);
  }

  /** A push is refused exactly when the queue holds capacity - 1 items at the tail load, and a
      pop exactly when it holds none at the head load. */
  lemma Refusals<T>(s: State<T>)
    requires Inv(s)
    ensures s.producer.PushReload? ==>
              (ProducerStep(s).producer == PushDone(false) <==> |Contents(s)| == |s.buffer| - 1)
    ensures s.consumer.PopReload? ==>
              (ConsumerStep(s).consumer == PopDone(None) <==> Contents(s) == [])
  {
    FollowingSlot(s.heads, |s.buffer|);
    SameSlot(s.tails, s.heads + 1, |s.buffer|);
    SameSlot(s.tails, s.heads, |s.buffer|);
  }

  /** Only a reload refuses: a stale cached index can delay a call but never refuse it. A push reloads exactly
      when the queue looks full from the cached tail, a pop exactly when it looks empty from the cached head;
      otherwise they go on at once. */
  lemma StaleIndexNeverRefuses<T>(s: State<T>)
    requires Inv(s)
    ensures s.producer.PushCheck? ==>
              var pc := ProducerStep(s).producer;
              if s.heads - s.seenTails == |s.buffer| - 1 then pc.PushReload?
              else pc.PushWrite? && |Contents(s)| < |s.buffer| - 1
    ensures s.consumer.PopCheck? ==>
              var pc := ConsumerStep(s).consumer;
              if s.tails == s.seenHeads then pc.PopReload? else pc.PopRead? && Contents(s) != []
  {
    FollowingSlot(s.heads, |s.buffer|);
    SameSlot(s.seenTails, s.heads + 1, |s.buffer|);
    SameSlot(s.tails, s.seenHeads, |s.buffer|);
  }

  /** The producer never writes the cell that the consumer is reading, nor any unread cell; the consumer takes the
      oldest unread item out of its cell. */
  lemma DisjointAccess<T>(s: State<T>)
    requires Inv(s)
    ensures s.producer.PushWrite? ==>
              forall k: nat :: s.tails <= k < s.heads ==> Slot(k, |s.buffer|) != s.producer.head
    ensures s.producer.PushWrite? && s.consumer.PopRead? ==> s.producer.head != s.consumer.tail
    ensures s.consumer.PopRead? ==> s.buffer[s.consumer.tail] == Some(s.pushed[s.tails])
    ensures s.consumer.PopRead? ==>
              ConsumerStep(s) == s.(buffer := s.buffer[s.consumer.tail := None],
                                    consumer := PopStore(s.pushed[s.tails], s.consumer.tail))
  {
    if s.producer.PushWrite? {
      forall k: nat | s.tails <= k < s.heads ensures Slot(k, |s.buffer|) != s.producer.head {
        SlotInjective(k, s.heads, |s.buffer|);
      }
    }
    if s.consumer.PopRead? {
      assert Stored(s.buffer, s.pushed, s.tails);
    }
  }

  // ---------------------------------------------------------------------------------------
  // A call that runs alone
  // ---------------------------------------------------------------------------------------

  /** The state after `n` steps of the producer alone, or of the consumer alone. */
  function Produces<T>(s: State<T>, n: nat): (s': State<T>)
    requires WellFormed(s)
    ensures WellFormed(s')
    decreases n
  {
    if n == 0 then s else Produces(ProducerStep(s), n - 1)
  }

  function Consumes<T>(s: State<T>, n: nat): (s': State<T>)
    requires WellFormed(s)
    ensures WellFormed(s')
    decreases n
  {
    if n == 0 then s else Consumes(ConsumerStep(s), n - 1)
  }

  /** What a completed push has done: it was refused by a full queue and changed nothing, or it appended its
      item and moved the head by one. */
  ghost predicate Pushed<T>(s: State<T>, s': State<T>, item: T) {
    if s.heads - s.tails == |s.buffer| - 1
    then s'.producer == PushDone(false) && s'.heads == s.heads && s'.pushed == s.pushed
    else s'.producer == PushDone(true) && s'.heads == s.heads + 1 && s'.pushed == s.pushed + [item]
  }

  /** What a completed pop has done: it found nothing, or it took the oldest item and moved the tail by one. */
  ghost predicate Popped<T>(s: State<T>, s': State<T>)
    requires s.tails <= |s.pushed| == s.heads
  {
    if s.tails == s.heads then s'.consumer == PopDone(None) && s'.tails == s.tails
    else s'.consumer == PopDone(Some(s.pushed[s.tails])) && s'.tails == s.tails + 1
  }

  lemma WritesAlone<T>(s: State<T>)
    requires Inv(s) && s.producer.PushWrite?
    ensures Produces(s, 2) == ProducerStep(ProducerStep(s)) == Produces(s, 3)
    ensures var s' := Produces(s, 2);
      && Inv(s') && s'.producer == PushDone(true) && s'.heads == s.heads + 1
      && s'.pushed == s.pushed + [s.producer.item]
  {
    ProducerStepInv(s);
    ProducerStepInv(ProducerStep(s));
    assert Produces(s, 3) == Produces(ProducerStep(s), 2) == Produces(ProducerStep(ProducerStep(s)), 1);
  }

  lemma ReloadsAlone<T>(s: State<T>)
    requires Inv(s) && s.producer.PushReload?
    ensures Pushed(s, Produces(s, 3), s.producer.item)
  {
    Refusals(s);
    ProducerStepInv(s);
    var s1 := ProducerStep(s);
    assert Produces(s, 3) == Produces(s1, 2);
    if s1.producer.PushWrite? {
      WritesAlone(s1);
    } else {
      assert Produces(s1, 2) == s1;
    }
  }

  /** A push that runs alone is over within five steps; it fails exactly when the queue holds capacity - 1
      items, however stale the cached tail is. */
  lemma PushAlone<T>(s: State<T>, item: T)
    requires Inv(s) && ProducerFree(s)
    ensures Pushed(s, Produces(Next(s, BeginPush(item)), 5), item)
  {
    var s1 := Next(s, BeginPush(item));
    var s2 := ProducerStep(s1);
    var s3 := ProducerStep(s2);
    NextInv(s, BeginPush(item));
    ProducerStepInv(s1);
    ProducerStepInv(s2);
    StaleIndexNeverRefuses(s2);
    assert Produces(s1, 5) == Produces(s2, 4) == Produces(s3, 3);
    if s3.producer.PushReload? { ReloadsAlone(s3); } else { WritesAlone(s3); }
    hide ProducerStep, Produces, Inv;
  }

  lemma ReadsAlone<T>(s: State<T>)
    requires Inv(s) && s.consumer.PopRead?
    ensures Consumes(s, 2) == Consumes(s, 3)
    ensures Inv(Consumes(s, 2)) && s.tails < s.heads && Popped(s, Consumes(s, 2))
  {
    DisjointAccess(s);
    ConsumerStepInv(s);
    ConsumerStepInv(ConsumerStep(s));
    assert Consumes(s, 3) == Consumes(ConsumerStep(s), 2) == Consumes(ConsumerStep(ConsumerStep(s)), 1);
    assert Consumes(s, 2) == ConsumerStep(ConsumerStep(s));
  }

  lemma ChecksHeadAlone<T>(s: State<T>)
    requires Inv(s) && s.consumer.PopReload?
    ensures Popped(s, Consumes(s, 3))
  {
    Refusals(s);
    ConsumerStepInv(s);
    var s1 := ConsumerStep(s);
    assert Consumes(s, 3) == Consumes(s1, 2);
    if s1.consumer.PopRead? {
      ReadsAlone(s1);
    } else {
      assert Consumes(s1, 2) == s1;
    }
  }

  /** A pop that runs alone is over within five steps; it finds nothing exactly when the queue is empty, however
      stale the cached head is. */
  lemma PopAlone<T>(s: State<T>)
    requires Inv(s) && ConsumerFree(s)
    ensures Popped(s, Consumes(Next(s, BeginPop), 5))
  {
    var s1 := Next(s, BeginPop);
    var s2 := ConsumerStep(s1);
    var s3 := ConsumerStep(s2);
    NextInv(s, BeginPop);
    ConsumerStepInv(s1);
    ConsumerStepInv(s2);
    StaleIndexNeverRefuses(s2);
    assert Consumes(s1, 5) == Consumes(s2, 4) == Consumes(s3, 3);
    assert s.tails <= |s.pushed| == s.heads;
    if s3.consumer.PopReload? { ChecksHeadAlone(s3); } else { ReadsAlone(s3); }
    hide ConsumerStep, Consumes, Inv;
  }

  // ---------------------------------------------------------------------------------------
  // What a client needs to know about one step
  // ---------------------------------------------------------------------------------------

  predicate ProducerFree<T>(s: State<T>) {
    s.producer.PushIdle? || s.producer.PushDone?
  }

  predicate ConsumerFree<T>(s: State<T>) {
    s.consumer.PopIdle? || s.consumer.PopDone?
  }

  /** A producer step leaves the consumer alone, keeps its item, and appends it at the index store. */
  ghost predicate Produced<T>(s: State<T>, s': State<T>) {
    && Inv(s') && s'.consumer == s.consumer && s'.tails == s.tails && s'.popped == s.popped
    && if s.producer.PushStore? then
         && s'.producer == PushDone(true)
         && s'.heads == s.heads + 1 && s'.pushed == s.pushed + [s.producer.item]
       else
         && s'.heads == s.heads && s'.pushed == s.pushed
         && (s'.producer == PushDone(true) <==> s.producer == PushDone(true))
         && (s'.producer.PushIdle? <==> s.producer.PushIdle?)
         && (!ProducerFree(s') ==> !ProducerFree(s) && s'.producer.item == s.producer.item)
  }

  lemma ProduceFrame<T>(s: State<T>)
    requires Inv(s)
    ensures Produced(s, ProducerStep(s))
  {
    ProducerStepInv(s);
  }

  /** A consumer step leaves the producer alone and hands out the oldest item at the index store. */
  ghost predicate Consumed<T>(s: State<T>, s': State<T>) {
    && Inv(s') && s'.producer == s.producer && s'.heads == s.heads && s'.pushed == s.pushed
    && if s.consumer.PopStore? then
         && s'.consumer == PopDone(Some(s.consumer.item))
         && s'.tails == s.tails + 1 && s'.popped == s.popped + [s.consumer.item]
       else
         && s'.tails == s.tails && s'.popped == s.popped
         && (ConsumerFree(s) ==> s'.consumer == s.consumer)
         && (!ConsumerFree(s) && s'.consumer.PopDone? ==> s'.consumer == PopDone(None))
  }

  lemma ConsumeFrame<T>(s: State<T>)
    requires Inv(s)
    ensures Consumed(s, ConsumerStep(s))
  {
    ConsumerStepInv(s);
  }

  /** Over every run the items popped are, in order, the items pushed first. */
  lemma Delivery<T>(capacity: nat, schedule: seq<Action<T>>)
    requires 0 < capacity
    ensures var s := Run(Init<T>(capacity), schedule);
            && s.popped <= s.pushed
            && |s.pushed| - |s.popped| <= capacity - 1
            && s.seenTails <= s.tails <= s.seenHeads <= s.heads <= s.seenTails + capacity - 1
            && |s.popped| == s.tails && |s.pushed| == s.heads
  {
    InitInv<T>(capacity);
    RunInv(Init<T>(capacity), schedule);
  }
}
