/** The bounded multi-producer multi-consumer queue with one sequence number per cell.

    Every shared-memory access of `try_push`, `try_pop` and `empty` is one step of one thread:
    the position load, the sequence load, the compare-and-swap, the data access and the
    sequence store. A schedule picks the thread that moves next, so a statement about every
    schedule is a statement about every sequentially consistent interleaving. */
module MpmcQueue {
  import opened Options
  import opened RingIndex

  /** The thread that holds a cell between its compare-and-swap and its sequence store. This is
      history: no step of the algorithm reads it. */
  datatype Owner = Nobody | Pusher(thread: nat) | Popper(thread: nat)

  datatype Cell<T> = Cell(sequence: nat, data: Option<T>, owner: Owner)

  /** What a finished call returned, with the position at which it was decided. */
  datatype Result<T> =
    | Pushed(ticket: nat)
    | Full(ticket: nat)
    | Popped(ticket: nat, item: T)
    | Empty(ticket: nat)
    | Probed(ticket: nat, isEmpty: bool)

  /** Where a thread stands inside a call. */
  datatype Pc<T> =
    | Idle
    | PushLoadPos(item: T)
    | PushLoadSeq(item: T, pos: nat)
    | PushCas(item: T, pos: nat)
    | PushWrite(item: T, pos: nat)
    | PushStore(item: T, pos: nat)
    | PopLoadPos
    | PopLoadSeq(pos: nat)
    | PopCas(pos: nat)
    | PopRead(pos: nat)
    | PopStore(item: T, pos: nat)
    | ProbeLoadPos
    | ProbeLoadSeq(pos: nat)
    | Done(result: Result<T>)

  datatype Call<T> = TryPush(item: T) | TryPop | IsEmpty

  /** `Spurious` lets the weak compare-and-swap fail although the position still matches. */
  datatype Action<T> = Begin(call: Call<T>) | Advance | Spurious

  /** `pushed` and `popped` are histories: the item of every ticket ever claimed by a push, and
      the item that the pop of a ticket handed to its caller. */
  datatype State<T> = State(
    cells: seq<Cell<T>>, enq: nat, deq: nat, threads: seq<Pc<T>>,
    pushed: seq<T>, popped: map<nat, T>)

  /** A fresh queue: cell i waits for ticket i. */
  function Init<T>(capacity: nat, threadCount: nat): (s: State<T>)
    requires 0 < capacity
    ensures WellFormed(s) && |s.cells| == capacity && |s.threads| == threadCount
  {
    State(seq(capacity, (i: nat) => Cell(i, None, Nobody)), 0, 0,
          seq(threadCount, i => Idle), [], map[])
  }

  predicate WellFormed<T>(s: State<T>) {
    0 < |s.cells|
  }

  function CellAt<T>(s: State<T>, pos: nat): Cell<T>
    requires WellFormed(s)
  {
    s.cells[Slot(pos, |s.cells|)]
  }

  function SetCell<T>(s: State<T>, pos: nat, cell: Cell<T>): State<T>
    requires WellFormed(s)
  {
    s.(cells := s.cells[Slot(pos, |s.cells|) := cell])
  }

  function SetPc<T>(s: State<T>, t: nat, pc: Pc<T>): State<T>
    requires t < |s.threads|
  {
    s.(threads := s.threads[t := pc])
  }

  /** One step of thread `t`. A step that the thread cannot take changes nothing. */
  function Next<T>(s: State<T>, t: nat, a: Action<T>): (s': State<T>)
    requires WellFormed(s) && t < |s.threads|
    ensures |s'.cells| == |s.cells| && |s'.threads| == |s.threads|
  {
    match a
    case Begin(call) =>
      if s.threads[t].Idle? || s.threads[t].Done? then SetPc(s, t, Start(call)) else s
    case Advance => Move(s, t, false)
    case Spurious => if s.threads[t].PushCas? || s.threads[t].PopCas? then Move(s, t, true) else s
  }

  function Start<T>(call: Call<T>): Pc<T> {
    match call
    case TryPush(item) => PushLoadPos(item)
    case TryPop => PopLoadPos
    case IsEmpty => ProbeLoadPos
  }

  function Move<T>(s: State<T>, t: nat, spurious: bool): (s': State<T>)
    requires WellFormed(s) && t < |s.threads|
    ensures |s'.cells| == |s.cells| && |s'.threads| == |s.threads|
  {
    match s.threads[t]
    case Idle => s
    case Done(_) => s
    case PushLoadPos(item) => SetPc(s, t, PushLoadSeq(item, s.enq))
    case PushLoadSeq(item, pos) =>
      var sequence := CellAt(s, pos).sequence;
      SetPc(s, t, if sequence == pos then PushCas(item, pos)
                  else if sequence < pos then Done(Full(pos))
                  else PushLoadPos(item))
    case PushCas(item, pos) =>
      if s.enq == pos && !spurious then
        SetPc(SetCell(s, pos, CellAt(s, pos).(owner := Pusher(t))), t, PushWrite(item, pos))
          .(enq := pos + 1, pushed := s.pushed + [item])
      else
        SetPc(s, t, PushLoadSeq(item, s.enq))
    case PushWrite(item, pos) =>
      SetPc(SetCell(s, pos, CellAt(s, pos).(data := Some(item))), t, PushStore(item, pos))
    case PushStore(item, pos) =>
      SetPc(SetCell(s, pos, CellAt(s, pos).(sequence := pos + 1, owner := Nobody)),
            t, Done(Pushed(pos)))
    case PopLoadPos => SetPc(s, t, PopLoadSeq(s.deq))
    case PopLoadSeq(pos) =>
      var sequence := CellAt(s, pos).sequence;
      SetPc(s, t, if sequence == pos + 1 then PopCas(pos)
                  else if sequence < pos + 1 then Done(Empty(pos))
                  else PopLoadPos)
    case PopCas(pos) =>
      if s.deq == pos && !spurious then
        SetPc(SetCell(s, pos, CellAt(s, pos).(owner := Popper(t))), t, PopRead(pos)).(deq := pos + 1)
      else
        SetPc(s, t, PopLoadSeq(s.deq))
    case PopRead(pos) =>
      (match CellAt(s, pos).data
       // Moving the item out leaves the cell without one.
       case Some(item) => SetPc(SetCell(s, pos, CellAt(s, pos).(data := None)), t, PopStore(item, pos))
       case None => s)
    case PopStore(item, pos) =>
      SetPc(SetCell(s, pos, CellAt(s, pos).(sequence := pos + |s.cells|, owner := Nobody)),
            t, Done(Popped(pos, item)))
        .(popped := s.popped[pos := item])
    case ProbeLoadPos => SetPc(s, t, ProbeLoadSeq(s.deq))
    case ProbeLoadSeq(pos) => SetPc(s, t, Done(Probed(pos, CellAt(s, pos).sequence < pos + 1)))
  }

  /** The state after a schedule of (thread, action) steps; steps of unknown threads are skipped. */
  function Run<T>(s: State<T>, schedule: seq<(nat, Action<T>)>): (s': State<T>)
    requires WellFormed(s)
    ensures |s'.cells| == |s.cells| && |s'.threads| == |s.threads|
    decreases |schedule|
  {
    if schedule == [] then s
    else
      var last := |schedule| - 1;
      var before := Run(s, schedule[..last]);
      var (t, a) := schedule[last];
      if t < |before.threads| then Next(before, t, a) else before
  }

  // ---------------------------------------------------------------------------------------
  // The invariant
  // ---------------------------------------------------------------------------------------

  /** The thread has claimed ticket `pos` for a push that it has not published yet. */
  predicate Pushing<T>(pc: Pc<T>, pos: nat) {
    (pc.PushWrite? || pc.PushStore?) && pc.pos == pos
  }

  /** The thread has claimed ticket `pos` for a pop whose cell it has not released yet. */
  predicate Popping<T>(pc: Pc<T>, pos: nat) {
    (pc.PopRead? || pc.PopStore?) && pc.pos == pos
  }

  /** The cell that serves ticket `pos`, where dequeue_pos <= pos < dequeue_pos + capacity. */
  ghost predicate CellOk<T>(s: State<T>, pos: nat)
    requires WellFormed(s) && |s.pushed| == s.enq
  {
    var cell := CellAt(s, pos);
    match cell.owner
    case Nobody =>
      if pos < s.enq then cell.sequence == pos + 1 && cell.data == Some(s.pushed[pos])
      else cell.sequence == pos
    case Pusher(t) =>
      && pos < s.enq && cell.sequence == pos
      && t < |s.threads| && Pushing(s.threads[t], pos)
    case Popper(t) =>
      && s.enq <= pos && |s.cells| <= pos && cell.sequence == pos - |s.cells| + 1
      && t < |s.threads| && Popping(s.threads[t], pos - |s.cells|)
  }

  ghost predicate ThreadOk<T>(s: State<T>, t: nat)
    requires WellFormed(s) && |s.pushed| == s.enq && t < |s.threads|
  {
    match s.threads[t]
    case PushLoadSeq(item, pos) => pos <= s.enq
    case PushCas(item, pos) => pos <= s.enq && pos <= CellAt(s, pos).sequence
    case PushWrite(item, pos) =>
      s.deq <= pos < s.enq && CellAt(s, pos).owner == Pusher(t) && s.pushed[pos] == item
    case PushStore(item, pos) =>
      && s.deq <= pos < s.enq && CellAt(s, pos).owner == Pusher(t) && s.pushed[pos] == item
      && CellAt(s, pos).data == Some(item)
    case PopLoadSeq(pos) => pos <= s.deq
    case PopCas(pos) => pos <= s.deq && pos + 1 <= CellAt(s, pos).sequence
    case PopRead(pos) =>
      && pos < s.deq && pos < s.enq <= pos + |s.cells| && CellAt(s, pos).owner == Popper(t)
      && CellAt(s, pos).data == Some(s.pushed[pos]) && pos !in s.popped
    case PopStore(item, pos) =>
      && pos < s.deq && pos < s.enq <= pos + |s.cells| && CellAt(s, pos).owner == Popper(t)
      && s.pushed[pos] == item && pos !in s.popped
    case ProbeLoadSeq(pos) => pos <= s.deq
    case Done(Popped(pos, item)) => pos < s.deq && pos < s.enq && s.pushed[pos] == item && pos in s.popped
    case Done(Pushed(pos)) => pos < s.enq
    case _ => true
  }

  /** Every ticket taken by a pop has been handed over, or is in the hands of its pop. */
  ghost predicate TakenOk<T>(s: State<T>, pos: nat)
    requires WellFormed(s)
  {
    pos !in s.popped ==>
      var owner := CellAt(s, pos).owner;
      owner.Popper? && owner.thread < |s.threads| && Popping(s.threads[owner.thread], pos)
  }

  predicate Bounds<T>(s: State<T>) {
    && 2 <= |s.cells| && |s.pushed| == s.enq
    && s.deq <= s.enq <= s.deq + |s.cells|
  }

  ghost predicate Inv<T>(s: State<T>) {
    && Bounds(s)
    && (forall p: nat :: s.deq <= p < s.deq + |s.cells| ==> CellOk(s, p))
    && (forall t: nat :: t < |s.threads| ==> ThreadOk(s, t))
    && (forall p :: p in s.popped ==> p < s.deq && p < s.enq && s.popped[p] == s.pushed[p])
    && (forall p: nat :: p < s.deq ==> TakenOk(s, p))
  }

  lemma InitInv<T>(capacity: nat, threadCount: nat)
    requires 2 <= capacity
    ensures Inv(Init<T>(capacity, threadCount))
  {
  }

  /** The sequence of a cell never falls more than a lap behind a position that it may serve. */
  lemma {:induction false} SequenceLowerBound<T>(s: State<T>, pos: nat)
    requires Inv(s)
    requires pos < s.deq + |s.cells|
    ensures pos - |s.cells| + 1 <= CellAt(s, pos).sequence
    ensures pos < s.deq ==> pos + 1 <= CellAt(s, pos).sequence
    ensures pos < s.enq ==> pos <= CellAt(s, pos).sequence
    decreases s.deq + |s.cells| - pos
  {
    if s.deq <= pos {
      assert CellOk(s, pos);
    } else {
      SequenceLowerBound(s, pos + |s.cells|);
      assert Slot(pos + |s.cells|, |s.cells|) == Slot(pos, |s.cells|);
    }
  }

  predicate Owning<T>(pc: Pc<T>) {
    pc.PushWrite? || pc.PushStore? || pc.PopRead? || pc.PopStore?
  }

  /** A step that touches nothing but the program counter of a thread that holds no cell. */
  lemma LocalStep<T>(s: State<T>, t: nat, pc: Pc<T>)
    requires Inv(s) && t < |s.threads| && !Owning(s.threads[t])
    requires ThreadOk(SetPc(s, t, pc), t)
    ensures Inv(SetPc(s, t, pc))
  {
    var s' := SetPc(s, t, pc);
    forall p: nat | s'.deq <= p < s'.deq + |s'.cells| ensures CellOk(s', p) {
      assert CellOk(s, p);
    }
    forall u: nat | u < |s'.threads| ensures ThreadOk(s', u) {
      assert ThreadOk(s, u);
    }
    forall p: nat | p < s'.deq ensures TakenOk(s', p) {
      assert TakenOk(s, p);
    }
  }

  lemma LoadSteps<T>(s: State<T>, t: nat)
    requires Inv(s) && t < |s.threads|
    requires var pc := s.threads[t];
             pc.PushLoadPos? || pc.PushLoadSeq? || pc.PopLoadPos? || pc.PopLoadSeq?
             || pc.ProbeLoadPos? || pc.ProbeLoadSeq?
    ensures Inv(Move(s, t, false))
  {
    var s' := Move(s, t, false);
    assert ThreadOk(s, t);
    LocalStep(s, t, s'.threads[t]);
  }

  /** A push ticket is claimed only when its cell is free, within one lap of the head. */
  lemma ClaimedForPush<T>(s: State<T>, t: nat)
    requires Inv(s) && t < |s.threads| && s.threads[t].PushCas? && s.enq == s.threads[t].pos
    ensures s.enq < s.deq + |s.cells|
    ensures CellAt(s, s.enq).owner == Nobody && CellAt(s, s.enq).sequence == s.enq
  {
    assert ThreadOk(s, t);
    // A full queue would put the head ticket, whose sequence is a lap behind, in this cell.
    assert CellOk(s, s.deq);
    assert Slot(s.deq + |s.cells|, |s.cells|) == Slot(s.deq, |s.cells|);
    assert s.enq < s.deq + |s.cells| ==> CellOk(s, s.enq);
  }

  lemma PushCasStep<T>(s: State<T>, t: nat)
    requires Inv(s) && t < |s.threads| && s.threads[t].PushCas? && s.enq == s.threads[t].pos
    ensures Inv(Move(s, t, false))
  {
    var s' := Move(s, t, false);
    ClaimedForPush(s, t);
    forall p: nat | s'.deq <= p < s'.deq + |s'.cells| ensures CellOk(s', p) {
      PushCasCell(s, t, p);
    }
    forall u: nat | u < |s'.threads| ensures ThreadOk(s', u) {
      PushCasThread(s, t, u);
    }
    forall p: nat | p < s'.deq ensures TakenOk(s', p) {
      assert TakenOk(s, p);
    }
  }

  lemma PushCasCell<T>(s: State<T>, t: nat, p: nat)
    requires Inv(s) && t < |s.threads| && s.threads[t].PushCas? && s.enq == s.threads[t].pos
    requires s.deq <= p < s.deq + |s.cells|
    ensures CellOk(Move(s, t, false), p)
  {
    ClaimedForPush(s, t);
    assert CellOk(s, p);
    SlotWindow(s.deq, |s.cells|);
  }

  lemma PushCasThread<T>(s: State<T>, t: nat, u: nat)
    requires Inv(s) && t < |s.threads| && s.threads[t].PushCas? && s.enq == s.threads[t].pos
    requires u < |s.threads|
    ensures ThreadOk(Move(s, t, false), u)
  {
    ClaimedForPush(s, t);
    assert ThreadOk(s, u);
  }

  /** The holder of a cell has it to itself: the other positions of the window use other cells. */
  lemma PushWriteStep<T>(s: State<T>, t: nat)
    requires Inv(s) && t < |s.threads| && s.threads[t].PushWrite?
    ensures Inv(Move(s, t, false))
  {
    var s' := Move(s, t, false);
    var pos := s.threads[t].pos;
    assert ThreadOk(s, t);
    forall p: nat | s'.deq <= p < s'.deq + |s'.cells| ensures CellOk(s', p) {
      assert CellOk(s, p);
    }
    forall u: nat | u < |s'.threads| ensures ThreadOk(s', u) {
      assert ThreadOk(s, u);
    }
    forall p: nat | p < s'.deq ensures TakenOk(s', p) {
      assert TakenOk(s, p);
    }
  }

  lemma PushStoreStep<T>(s: State<T>, t: nat)
    requires Inv(s) && t < |s.threads| && s.threads[t].PushStore?
    ensures Inv(Move(s, t, false))
  {
    var s' := Move(s, t, false);
    assert ThreadOk(s, t);
    forall p: nat | s'.deq <= p < s'.deq + |s'.cells| ensures CellOk(s', p) {
      PushStoreCell(s, t, p);
    }
    forall u: nat | u < |s'.threads| ensures ThreadOk(s', u) {
      PushStoreThread(s, t, u);
    }
    forall p: nat | p < s'.deq ensures TakenOk(s', p) {
      assert TakenOk(s, p);
    }
  }

  lemma PushStoreCell<T>(s: State<T>, t: nat, p: nat)
    requires Inv(s) && t < |s.threads| && s.threads[t].PushStore?
    requires s.deq <= p < s.deq + |s.cells|
    ensures CellOk(Move(s, t, false), p)
  {
    assert ThreadOk(s, t);
    assert CellOk(s, p);
    SlotWindow(s.deq, |s.cells|);
  }

  lemma PushStoreThread<T>(s: State<T>, t: nat, u: nat)
    requires Inv(s) && t < |s.threads| && s.threads[t].PushStore?
    requires u < |s.threads|
    ensures ThreadOk(Move(s, t, false), u)
  {
    assert ThreadOk(s, t);
    assert CellOk(s, s.threads[t].pos);
    assert ThreadOk(s, u);
  }

  /** A pop ticket is claimed only when its item has been published. */
  lemma ClaimedForPop<T>(s: State<T>, t: nat)
    requires Inv(s) && t < |s.threads| && s.threads[t].PopCas? && s.deq == s.threads[t].pos
    ensures s.deq < s.enq
    ensures CellAt(s, s.deq).owner == Nobody && CellAt(s, s.deq).sequence == s.deq + 1
    ensures CellAt(s, s.deq).data == Some(s.pushed[s.deq])
  {
    assert ThreadOk(s, t);
    assert CellOk(s, s.deq);
  }

  lemma PopCasStep<T>(s: State<T>, t: nat)
    requires Inv(s) && t < |s.threads| && s.threads[t].PopCas? && s.deq == s.threads[t].pos
    ensures Inv(Move(s, t, false))
  {
    var s' := Move(s, t, false);
    ClaimedForPop(s, t);
    forall p: nat | s'.deq <= p < s'.deq + |s'.cells| ensures CellOk(s', p) {
      PopCasCell(s, t, p);
    }
    forall u: nat | u < |s'.threads| ensures ThreadOk(s', u) {
      PopCasThread(s, t, u);
    }
    forall p: nat | p < s'.deq ensures TakenOk(s', p) {
      PopCasTaken(s, t, p);
    }
  }

  lemma PopCasCell<T>(s: State<T>, t: nat, p: nat)
    requires Inv(s) && t < |s.threads| && s.threads[t].PopCas? && s.deq == s.threads[t].pos
    requires s.deq + 1 <= p < s.deq + 1 + |s.cells|
    ensures CellOk(Move(s, t, false), p)
  {
    ClaimedForPop(s, t);
    assert Slot(s.deq + |s.cells|, |s.cells|) == Slot(s.deq, |s.cells|);
    if p < s.deq + |s.cells| {
      assert CellOk(s, p);
      SlotWindow(s.deq, |s.cells|);
    }
  }

  lemma PopCasThread<T>(s: State<T>, t: nat, u: nat)
    requires Inv(s) && t < |s.threads| && s.threads[t].PopCas? && s.deq == s.threads[t].pos
    requires u < |s.threads|
    ensures ThreadOk(Move(s, t, false), u)
  {
    ClaimedForPop(s, t);
    assert ThreadOk(s, u);
  }

  lemma PopCasTaken<T>(s: State<T>, t: nat, p: nat)
    requires Inv(s) && t < |s.threads| && s.threads[t].PopCas? && s.deq == s.threads[t].pos
    requires p < s.deq + 1
    ensures TakenOk(Move(s, t, false), p)
  {
    ClaimedForPop(s, t);
    if p < s.deq {
      assert TakenOk(s, p);
    }
  }

  lemma PopReadStep<T>(s: State<T>, t: nat)
    requires Inv(s) && t < |s.threads| && s.threads[t].PopRead?
    ensures Inv(Move(s, t, false))
  {
    var s' := Move(s, t, false);
    assert ThreadOk(s, t);
    forall p: nat | s'.deq <= p < s'.deq + |s'.cells| ensures CellOk(s', p) {
      assert CellOk(s, p);
    }
    forall u: nat | u < |s'.threads| ensures ThreadOk(s', u) {
      PopReadThread(s, t, u);
    }
    forall p: nat | p < s'.deq ensures TakenOk(s', p) {
      assert TakenOk(s, p);
    }
  }

  lemma PopReadThread<T>(s: State<T>, t: nat, u: nat)
    requires Inv(s) && t < |s.threads| && s.threads[t].PopRead?
    requires u < |s.threads|
    ensures ThreadOk(Move(s, t, false), u)
  {
    assert ThreadOk(s, t);
    assert ThreadOk(s, u);
  }

  /** The cell of a pop in progress is the one that the ticket a lap later waits for. */
  lemma PoppedCell<T>(s: State<T>, t: nat)
    requires Inv(s) && t < |s.threads| && (s.threads[t].PopRead? || s.threads[t].PopStore?)
    ensures var pos := s.threads[t].pos;
            && s.enq <= pos + |s.cells| < s.deq + |s.cells|
            && CellAt(s, pos) == CellAt(s, pos + |s.cells|)
            && CellAt(s, pos).owner == Popper(t) && CellAt(s, pos).sequence == pos + 1
  {
    var pos := s.threads[t].pos;
    assert ThreadOk(s, t);
    assert CellOk(s, pos + |s.cells|);
    assert Slot(pos + |s.cells|, |s.cells|) == Slot(pos, |s.cells|);
  }

  lemma PopStoreStep<T>(s: State<T>, t: nat)
    requires Inv(s) && t < |s.threads| && s.threads[t].PopStore?
    ensures Inv(Move(s, t, false))
  {
    var s' := Move(s, t, false);
    assert ThreadOk(s, t);
    forall p: nat | s'.deq <= p < s'.deq + |s'.cells| ensures CellOk(s', p) {
      PopStoreCell(s, t, p);
    }
    forall u: nat | u < |s'.threads| ensures ThreadOk(s', u) {
      PopStoreThread(s, t, u);
    }
    forall p: nat | p < s'.deq ensures TakenOk(s', p) {
      PopStoreTaken(s, t, p);
    }
  }

  lemma PopStoreCell<T>(s: State<T>, t: nat, p: nat)
    requires Inv(s) && t < |s.threads| && s.threads[t].PopStore?
    requires s.deq <= p < s.deq + |s.cells|
    ensures CellOk(Move(s, t, false), p)
  {
    PoppedCell(s, t);
    assert Slot(s.threads[t].pos + |s.cells|, |s.cells|) == Slot(s.threads[t].pos, |s.cells|);
    assert CellOk(s, p);
    SlotWindow(s.deq, |s.cells|);
  }

  lemma PopStoreThread<T>(s: State<T>, t: nat, u: nat)
    requires Inv(s) && t < |s.threads| && s.threads[t].PopStore?
    requires u < |s.threads|
    ensures ThreadOk(Move(s, t, false), u)
  {
    PoppedCell(s, t);
    assert ThreadOk(s, t);
    assert ThreadOk(s, u);
  }

  lemma PopStoreTaken<T>(s: State<T>, t: nat, p: nat)
    requires Inv(s) && t < |s.threads| && s.threads[t].PopStore?
    requires p < s.deq
    ensures TakenOk(Move(s, t, false), p)
  {
    assert ThreadOk(s, t);
    assert TakenOk(s, p);
  }

  /** Every step of every thread keeps the invariant. */
  lemma NextInv<T>(s: State<T>, t: nat, a: Action<T>)
    requires Inv(s) && t < |s.threads|
    ensures Inv(Next(s, t, a))
  {
    assert ThreadOk(s, t);
    match a
    case Begin(call) =>
      if s.threads[t].Idle? || s.threads[t].Done? {
        LocalStep(s, t, Start(call));
      }
    case Spurious =>
      if s.threads[t].PushCas? || s.threads[t].PopCas? {
        LocalStep(s, t, Move(s, t, true).threads[t]);
      }
    case Advance => MoveInv(s, t);
  }

  lemma MoveInv<T>(s: State<T>, t: nat)
    requires Inv(s) && t < |s.threads|
    ensures Inv(Move(s, t, false))
  {
    assert ThreadOk(s, t);
    match s.threads[t]
    case Idle =>
    case Done(_) =>
    case PushCas(_, pos) =>
      if s.enq == pos { PushCasStep(s, t); } else { LocalStep(s, t, Move(s, t, false).threads[t]); }
    case PushWrite(_, _) => PushWriteStep(s, t);
    case PushStore(_, _) => PushStoreStep(s, t);
    case PopCas(pos) =>
      if s.deq == pos { PopCasStep(s, t); } else { LocalStep(s, t, Move(s, t, false).threads[t]); }
    case PopRead(_) => PopReadStep(s, t);
    case PopStore(_, _) => PopStoreStep(s, t);
    case _ => LoadSteps(s, t);
  }

  lemma {:induction false} RunInv<T>(s: State<T>, schedule: seq<(nat, Action<T>)>)
    requires Inv(s)
    ensures Inv(Run(s, schedule))
    decreases |schedule|
  {
    if schedule != [] {
      var last := |schedule| - 1;
      RunInv(s, schedule[..last]);
      var before := Run(s, schedule[..last]);
      var (t, a) := schedule[last];
      if t < |before.threads| { NextInv(before, t, a); }
    }
  }

  // ---------------------------------------------------------------------------------------
  // What the queue guarantees
  // ---------------------------------------------------------------------------------------

  /** Tickets claimed by a push and not yet claimed by a pop, oldest first. */
  ghost function Contents<T>(s: State<T>): seq<T>
    requires Bounds(s)
  {
    s.pushed[s.deq..s.enq]
  }

  /** No two threads hold one cell at the same time. */
  lemma ExclusiveCell<T>(s: State<T>, t: nat, u: nat)
    requires Inv(s) && t < |s.threads| && u < |s.threads|
    requires Owning(s.threads[t]) && Owning(s.threads[u])
    requires Slot(s.threads[t].pos, |s.cells|) == Slot(s.threads[u].pos, |s.cells|)
    ensures t == u
  {
    assert ThreadOk(s, t) && ThreadOk(s, u);
  }

  /** The queue refines a bounded FIFO: the winning compare-and-swaps append and remove, and no
      other step changes the contents. */
  lemma StepRefinesFifo<T>(s: State<T>, t: nat, a: Action<T>)
    requires Inv(s) && t < |s.threads|
    ensures Inv(Next(s, t, a))
    ensures var pc, before, after := s.threads[t], Contents(s), Contents(Next(s, t, a));
            if a.Advance? && pc.PushCas? && pc.pos == s.enq then
              |before| < |s.cells| && after == before + [pc.item]
            else if a.Advance? && pc.PopCas? && pc.pos == s.deq then
              && before != [] && after == before[1..]
              && Next(s, t, a).threads[t] == PopRead(s.deq) && s.pushed[s.deq] == before[0]
            else
              after == before
  {
    NextInv(s, t, a);
    var pc := s.threads[t];
    if a.Advance? && pc.PushCas? && pc.pos == s.enq {
      ClaimedForPush(s, t);
    } else if a.Advance? && pc.PopCas? && pc.pos == s.deq {
      ClaimedForPop(s, t);
    }
  }

  /** A push is refused exactly when its ticket is still the next one and the ticket one lap
      earlier has not been taken, or is still in the hands of its pop. */
  lemma PushRefusal<T>(s: State<T>, t: nat)
    requires Inv(s) && t < |s.threads| && s.threads[t].PushLoadSeq?
    ensures var pos := s.threads[t].pos;
            Move(s, t, false).threads[t] == Done(Full(pos)) <==>
            && pos == s.enq
            && (|| s.enq == s.deq + |s.cells|
                || exists u: nat :: u < |s.threads| && |s.cells| <= pos
                                    && Popping(s.threads[u], pos - |s.cells|))
  {
    var pos := s.threads[t].pos;
    assert ThreadOk(s, t);
    if pos < s.enq {
      SequenceLowerBound(s, pos);
    } else if s.enq == s.deq + |s.cells| {
      assert CellOk(s, s.deq);
      assert Slot(s.deq + |s.cells|, |s.cells|) == Slot(s.deq, |s.cells|);
    } else {
      assert CellOk(s, pos);
      forall u: nat | u < |s.threads| && |s.cells| <= pos && Popping(s.threads[u], pos - |s.cells|)
        ensures CellAt(s, pos).owner == Popper(u)
      {
        PoppedCell(s, u);
      }
    }
  }

  /** Some push has claimed ticket `pos` and has not published it. */
  ghost predicate PushInProgress<T>(s: State<T>, pos: nat) {
    exists u: nat :: u < |s.threads| && Pushing(s.threads[u], pos)
  }

  /** The head ticket has no published item: the queue is empty, or its push is in progress. */
  ghost predicate HeadUnpublished<T>(s: State<T>) {
    s.deq == s.enq || PushInProgress(s, s.deq)
  }

  lemma HeadSequence<T>(s: State<T>, pos: nat)
    requires Inv(s) && pos <= s.deq
    ensures CellAt(s, pos).sequence < pos + 1 <==> pos == s.deq && HeadUnpublished(s)
  {
    if pos < s.deq {
      SequenceLowerBound(s, pos);
    } else {
      assert CellOk(s, pos);
      forall u: nat | u < |s.threads| && Pushing(s.threads[u], s.deq)
        ensures CellAt(s, s.deq).owner == Pusher(u)
      {
        assert ThreadOk(s, u);
      }
    }
  }

  /** A pop reports an empty queue exactly when its ticket is still the head and the head has no
      published item. */
  lemma PopRefusal<T>(s: State<T>, t: nat)
    requires Inv(s) && t < |s.threads| && s.threads[t].PopLoadSeq?
    ensures var pos := s.threads[t].pos;
            Move(s, t, false).threads[t] == Done(Empty(pos)) <==> pos == s.deq && HeadUnpublished(s)
  {
    assert ThreadOk(s, t);
    HeadSequence(s, s.threads[t].pos);
  }

  /** What the sequence load of a pop finds, and where it leads. */
  lemma PopLoadLeads<T>(q: State<T>, t: nat)
    requires Inv(q) && t < |q.threads| && q.threads[t].PopLoadSeq?
    ensures var pos, pc := q.threads[t].pos, Move(q, t, false).threads[t];
      && (pos == q.deq && HeadUnpublished(q) ==> pc == Done(Empty(pos)))
      && (pos == q.deq && !HeadUnpublished(q) ==> pc == PopCas(pos))
      && (pos != q.deq ==> pc == PopCas(pos) || pc == PopLoadPos)
  {
    var pos := q.threads[t].pos;
    PopRefusal(q, t);
    assert ThreadOk(q, t);
    if pos == q.deq && !HeadUnpublished(q) {
      HeadSequence(q, pos);
      PublishedHead(q);
    }
  }

  lemma PublishedHead<T>(q: State<T>)
    requires Inv(q) && !HeadUnpublished(q)
    ensures CellAt(q, q.deq).sequence == q.deq + 1
  {
    assert CellOk(q, q.deq);
  }

  lemma PopCasFresh<T>(q: State<T>, t: nat)
    requires Inv(q) && t < |q.threads| && q.threads[t].PopCas?
    ensures var pos, q' := q.threads[t].pos, Move(q, t, false);
      && pos <= q.deq && q'.enq == q.enq
      && (pos == q.deq ==> q'.deq == q.deq + 1)
      && (pos != q.deq ==> q'.deq == q.deq && q'.threads[t] == PopLoadSeq(q.deq))
  {
    assert ThreadOk(q, t);
  }

  lemma PopReadLeads<T>(q: State<T>, t: nat)
    requires Inv(q) && t < |q.threads| && (q.threads[t].PopRead? || q.threads[t].PopStore?)
    ensures var pc, pc' := q.threads[t], Move(q, t, false).threads[t];
      && (pc.PopRead? ==> pc'.PopStore?) && (pc.PopStore? ==> pc'.Done? && pc'.result.Popped?)
  {
    assert ThreadOk(q, t);
  }

  /** A thread that is not pushing does not decide whether the head is published. */
  lemma HeadStays<T>(q: State<T>, q': State<T>, t: nat)
    requires t < |q.threads| == |q'.threads| && q'.enq == q.enq && q'.deq == q.deq
    requires forall u: nat :: u < |q.threads| && u != t ==> q'.threads[u] == q.threads[u]
    requires !Pushing(q.threads[t], q.deq) && !Pushing(q'.threads[t], q.deq)
    ensures HeadUnpublished(q') <==> HeadUnpublished(q)
  {
    if PushInProgress(q, q.deq) {
      var u: nat :| u < |q.threads| && Pushing(q.threads[u], q.deq);
      assert Pushing(q'.threads[u], q'.deq);
    }
    if PushInProgress(q', q'.deq) {
      var u: nat :| u < |q'.threads| && Pushing(q'.threads[u], q'.deq);
      assert Pushing(q.threads[u], q.deq);
    }
  }

  /** `empty()` answers true exactly under the same condition. */
  lemma ProbeAnswer<T>(s: State<T>, t: nat)
    requires Inv(s) && t < |s.threads| && s.threads[t].ProbeLoadSeq?
    ensures var pos := s.threads[t].pos;
            Move(s, t, false).threads[t] ==
            Done(Probed(pos, pos == s.deq && HeadUnpublished(s)))
  {
    assert ThreadOk(s, t);
    HeadSequence(s, s.threads[t].pos);
  }

  /** A compare-and-swap that fails, spuriously or because the position has moved, changes nothing but sends its
      caller back to the sequence load, at the present position. */
  lemma FailedSwapRetries<T>(s: State<T>, t: nat, a: Action<T>)
    requires WellFormed(s) && t < |s.threads| && (s.threads[t].PushCas? || s.threads[t].PopCas?)
    requires a.Spurious? || (a.Advance? && s.threads[t].pos != (if s.threads[t].PushCas? then s.enq else s.deq))
    ensures Next(s, t, a) ==
      s.(threads := s.threads[t := if s.threads[t].PushCas? then PushLoadSeq(s.threads[t].item, s.enq)
                                   else PopLoadSeq(s.deq)])
  {
  }

  /** The ticket that a step hands to the caller of `try_pop`, if it does. */
  function HandOver<T>(s: State<T>, t: nat, a: Action<T>): seq<nat> {
    if t < |s.threads| && a.Advance? && s.threads[t].PopStore? then [s.threads[t].pos] else []
  }

  /** The tickets that a run hands over, in the order of the hand-overs. */
  function HandOvers<T>(s: State<T>, schedule: seq<(nat, Action<T>)>): seq<nat>
    requires WellFormed(s)
    decreases |schedule|
  {
    if schedule == [] then []
    else
      var last := |schedule| - 1;
      HandOvers(s, schedule[..last]) + HandOver(Run(s, schedule[..last]), schedule[last].0, schedule[last].1)
  }

  /** A step hands over a ticket that was never handed over before, or none. */
  lemma HandOverIsNew<T>(s: State<T>, t: nat, a: Action<T>)
    requires Inv(s) && t < |s.threads|
    ensures forall p :: p in HandOver(s, t, a) ==> p !in s.popped
    ensures Next(s, t, a).popped.Keys == s.popped.Keys + set p | p in HandOver(s, t, a)
    ensures HandOver(s, t, a) != [] ==>
              && s.threads[t].pos < |s.pushed|
              && Next(s, t, a).threads[t] == Done(Popped(s.threads[t].pos, s.pushed[s.threads[t].pos]))
  {
    assert ThreadOk(s, t);
    hide CellAt, SetCell, Inv;
  }

  predicate NoRepeats(tickets: seq<nat>) {
    forall i, j :: 0 <= i < j < |tickets| ==> tickets[i] != tickets[j]
  }

  /** On every run no ticket is handed over twice, and `popped` records exactly the hand-overs. */
  lemma {:induction false} HandOversDistinct<T>(s: State<T>, schedule: seq<(nat, Action<T>)>)
    requires Inv(s) && s.popped == map[]
    ensures NoRepeats(HandOvers(s, schedule))
    ensures forall p: nat :: p in HandOvers(s, schedule) <==> p in Run(s, schedule).popped
    decreases |schedule|
  {
    if schedule != [] {
      var last := |schedule| - 1;
      var before := Run(s, schedule[..last]);
      var (t, a) := schedule[last];
      RunInv(s, schedule[..last]);
      HandOversDistinct(s, schedule[..last]);
      if t < |before.threads| {
        HandOverIsNew(before, t, a);
      }
      hide Inv, Next, HandOver;
      HandOverShort(before, t, a);
    }
  }

  lemma HandOverShort<T>(s: State<T>, t: nat, a: Action<T>)
    ensures |HandOver(s, t, a)| <= 1 && (t >= |s.threads| ==> HandOver(s, t, a) == [])
  {
  }

  /** Over every run: the positions stay within one lap; every delivered item is the item pushed
      under the same ticket; every ticket taken has been delivered, or is held by a pop and has not;
      and no ticket is delivered twice. */
  lemma Delivery<T>(capacity: nat, threadCount: nat, schedule: seq<(nat, Action<T>)>)
    requires 2 <= capacity
    ensures var s := Run(Init<T>(capacity, threadCount), schedule);
            var delivered := HandOvers(Init<T>(capacity, threadCount), schedule);
            && Inv(s)
            && s.deq <= s.enq <= s.deq + capacity
            && NoRepeats(delivered) && (forall p: nat :: p in delivered <==> p in s.popped)
            && (forall p :: p in s.popped ==> p < s.deq && s.popped[p] == s.pushed[p])
            && (forall p: nat :: p < s.deq ==>
                  (p !in s.popped <==> exists t: nat :: t < |s.threads| && Popping(s.threads[t], p)))
            && (forall t: nat, p: nat, item: T ::
                  t < |s.threads| && s.threads[t] == Done(Popped(p, item))
                  ==> p < s.deq && item == s.pushed[p])
  {
    InitInv<T>(capacity, threadCount);
    RunInv(Init<T>(capacity, threadCount), schedule);
    HandOversDistinct(Init<T>(capacity, threadCount), schedule);
    var s := Run(Init<T>(capacity, threadCount), schedule);
    forall p: nat | p < s.deq
      ensures p !in s.popped <==> exists t: nat :: t < |s.threads| && Popping(s.threads[t], p)
    {
      assert TakenOk(s, p);
      forall t: nat | t < |s.threads| && Popping(s.threads[t], p)
        ensures p !in s.popped
      {
        assert ThreadOk(s, t);
      }
    }
    forall t: nat, p: nat, item: T | t < |s.threads| && s.threads[t] == Done(Popped(p, item))
      ensures p < s.deq && item == s.pushed[p]
    {
      assert ThreadOk(s, t);
    }
  }

  // ---------------------------------------------------------------------------------------
  // What a client needs to know about one step
  // ---------------------------------------------------------------------------------------

  datatype Kind = NoCall | PushCall | PopCall | ProbeCall

  /** The call that a thread is in, or whose result it holds. */
  function KindOf<T>(pc: Pc<T>): Kind {
    match pc
    case Idle => NoCall
    case Done(Pushed(_)) => PushCall
    case Done(Full(_)) => PushCall
    case Done(Popped(_, _)) => PopCall
    case Done(Empty(_)) => PopCall
    case Done(Probed(_, _)) => ProbeCall
    case PopLoadPos => PopCall
    case PopLoadSeq(_) => PopCall
    case PopCas(_) => PopCall
    case PopRead(_) => PopCall
    case PopStore(_, _) => PopCall
    case ProbeLoadPos => ProbeCall
    case ProbeLoadSeq(_) => ProbeCall
    case _ => PushCall
  }

  function KindOfCall<T>(call: Call<T>): Kind {
    match call
    case TryPush(_) => PushCall
    case TryPop => PopCall
    case IsEmpty => ProbeCall
  }

  /** The push has claimed a ticket, published or not. */
  predicate HasClaimed<T>(pc: Pc<T>) {
    pc.PushWrite? || pc.PushStore? || (pc.Done? && pc.result.Pushed?)
  }

  /** The ticket that a pop has taken, until the next call. */
  function Taken<T>(pc: Pc<T>): Option<nat> {
    if pc.PopRead? || pc.PopStore? then Some(pc.pos)
    else if pc.Done? && pc.result.Popped? then Some(pc.result.ticket)
    else None
  }

  /** A call starts with a fresh program counter and touches nothing shared. */
  lemma BeginFrame<T>(s: State<T>, t: nat, call: Call<T>)
    requires Inv(s) && t < |s.threads| && (s.threads[t].Idle? || s.threads[t].Done?)
    ensures var s' := Next(s, t, Begin(call));
            && Inv(s') && s' == SetPc(s, t, Start(call))
            && KindOf(s'.threads[t]) == KindOfCall(call) && !s'.threads[t].Done?
            && !HasClaimed(s'.threads[t]) && Taken(s'.threads[t]) == None
  {
    NextInv(s, t, Begin(call));
  }

  /** A step inside a call: the other threads stay, the call stays the same, a winning push
      claims the next ticket, and a winning pop takes the head. */
  lemma StepFrame<T>(s: State<T>, t: nat, a: Action<T>)
    requires Inv(s) && t < |s.threads| && !a.Begin?
    ensures var s' := Next(s, t, a);
            && Inv(s')
            && s'.threads == s.threads[t := s'.threads[t]]
            && KindOf(s'.threads[t]) == KindOf(s.threads[t])
            && ClaimFrame(s, s', t) && TakeFrame(s, s', t)
  {
    NextInv(s, t, a);
    StepShape(s, t, a);
    StepClaims(s, t, a);
    StepTakes(s, t, a);
  }

  lemma StepShape<T>(s: State<T>, t: nat, a: Action<T>)
    requires WellFormed(s) && t < |s.threads| && !a.Begin?
    ensures var s' := Next(s, t, a);
            && s'.threads == s.threads[t := s'.threads[t]]
            && KindOf(s'.threads[t]) == KindOf(s.threads[t])
  {
    var threads := Next(s, t, a).threads;
    StepKind(s, t, a);
    forall u: nat | u < |s.threads| && u != t ensures threads[u] == s.threads[u] {
      StepOthers(s, t, a, u);
    }
  }

  lemma StepKind<T>(s: State<T>, t: nat, a: Action<T>)
    requires WellFormed(s) && t < |s.threads| && !a.Begin?
    ensures KindOf(Next(s, t, a).threads[t]) == KindOf(s.threads[t])
  {
    hide CellAt, SetCell;
    MoveKind(s, t, a.Spurious?);
  }

  lemma MoveKind<T>(s: State<T>, t: nat, spurious: bool)
    requires WellFormed(s) && t < |s.threads|
    ensures KindOf(Move(s, t, spurious).threads[t]) == KindOf(s.threads[t])
  {
    hide CellAt, Slot;
  }

  lemma StepOthers<T>(s: State<T>, t: nat, a: Action<T>, u: nat)
    requires WellFormed(s) && t < |s.threads| && u < |s.threads| && u != t
    ensures Next(s, t, a).threads[u] == s.threads[u]
  {
  }

  lemma StepClaims<T>(s: State<T>, t: nat, a: Action<T>)
    requires WellFormed(s) && t < |s.threads| && !a.Begin? && |s.pushed| == s.enq
    ensures ClaimFrame(s, Next(s, t, a), t)
  {
  }

  lemma StepTakes<T>(s: State<T>, t: nat, a: Action<T>)
    requires WellFormed(s) && t < |s.threads| && !a.Begin?
    ensures TakeFrame(s, Next(s, t, a), t)
  {
  }

  /** The item of a push in progress. */
  function PushItem<T>(pc: Pc<T>): Option<T> {
    match pc
    case PushLoadPos(item) => Some(item)
    case PushLoadSeq(item, _) => Some(item)
    case PushCas(item, _) => Some(item)
    case PushWrite(item, _) => Some(item)
    case PushStore(item, _) => Some(item)
    case _ => None
  }

  /** A push in progress keeps its item, and the ticket it claims is for that item. */
  lemma PushesOwnItem<T>(s: State<T>, t: nat, a: Action<T>)
    requires WellFormed(s) && t < |s.threads| && !a.Begin?
    ensures var s' := Next(s, t, a);
      && (PushItem(s'.threads[t]).Some? ==> PushItem(s'.threads[t]) == PushItem(s.threads[t]))
      && (if s.enq < s'.enq then PushItem(s.threads[t]).Some? && s'.pushed == s.pushed + [PushItem(s.threads[t]).value]
          else s'.pushed == s.pushed)
  {
    hide CellAt, Slot;
  }

  ghost predicate ClaimFrame<T>(s: State<T>, s': State<T>, t: nat)
    requires t < |s.threads| == |s'.threads|
  {
    if HasClaimed(s'.threads[t]) && !HasClaimed(s.threads[t]) then
      s'.enq == s.enq + 1 && |s'.pushed| == |s.pushed| + 1 && s'.pushed[..|s.pushed|] == s.pushed
    else
      s'.enq == s.enq && s'.pushed == s.pushed && HasClaimed(s'.threads[t]) == HasClaimed(s.threads[t])
  }

  ghost predicate TakeFrame<T>(s: State<T>, s': State<T>, t: nat)
    requires t < |s.threads| == |s'.threads|
  {
    if Taken(s'.threads[t]).Some? && Taken(s.threads[t]).None? then
      s'.deq == s.deq + 1 && Taken(s'.threads[t]) == Some(s.deq)
    else
      s'.deq == s.deq && Taken(s'.threads[t]) == Taken(s.threads[t])
  }

  // ---------------------------------------------------------------------------------------
  // Calls that run alone
  // ---------------------------------------------------------------------------------------

  /** How many steps a call can still take when nobody else moves. */
  function Distance<T>(pc: Pc<T>, enq: nat, deq: nat): nat {
    match pc
    case PushLoadPos(_) => 5
    case PushLoadSeq(_, pos) => if pos == enq then 4 else 7
    case PushCas(_, pos) => if pos == enq then 3 else 6
    case PushWrite(_, _) => 2
    case PushStore(_, _) => 1
    case PopLoadPos => 5
    case PopLoadSeq(pos) => if pos == deq then 4 else 7
    case PopCas(pos) => if pos == deq then 3 else 6
    case PopRead(_) => 2
    case PopStore(_, _) => 1
    case ProbeLoadPos => 2
    case ProbeLoadSeq(_) => 1
    case _ => 0
  }

  /** No cell runs ahead of the positions. */
  lemma CellsWait<T>(s: State<T>)
    requires Inv(s)
    ensures CellAt(s, s.enq).sequence <= s.enq && CellAt(s, s.deq).sequence <= s.deq + 1
  {
    assert CellOk(s, s.deq);
    if s.enq < s.deq + |s.cells| {
      assert CellOk(s, s.enq);
    } else {
      assert Slot(s.deq + |s.cells|, |s.cells|) == Slot(s.deq, |s.cells|);
    }
  }

  /** Each step of a call that nobody disturbs brings it closer to its end. */
  lemma AloneCloser<T>(s: State<T>, t: nat)
    requires Inv(s) && t < |s.threads| && !s.threads[t].Idle? && !s.threads[t].Done?
    ensures var s' := Move(s, t, false);
      Distance(s'.threads[t], s'.enq, s'.deq) < Distance(s.threads[t], s.enq, s.deq) && !s'.threads[t].Idle?
  {
    assert ThreadOk(s, t);
    CellsWait(s);
    hide Inv, Slot;
  }

  function Alone<T>(s: State<T>, t: nat, n: nat): (s': State<T>)
    requires WellFormed(s) && t < |s.threads|
    ensures |s'.cells| == |s.cells| && |s'.threads| == |s.threads|
    decreases n
  {
    if n == 0 then s else Alone(Move(s, t, false), t, n - 1)
  }

  /** No call waits for another thread: from every reachable state a call in progress that runs alone returns
      within seven steps. */
  lemma {:induction false} CallsEndAlone<T>(s: State<T>, t: nat, n: nat)
    requires Inv(s) && t < |s.threads| && !s.threads[t].Idle? && Distance(s.threads[t], s.enq, s.deq) <= n
    ensures Alone(s, t, n).threads[t].Done?
    decreases n
  {
    if n > 0 {
      if s.threads[t].Done? {
        assert Move(s, t, false) == s;
      } else {
        AloneCloser(s, t);
      }
      NextInv(s, t, Advance);
      hide Inv, Move, Distance;
      CallsEndAlone(Move(s, t, false), t, n - 1);
    }
  }

  // ---------------------------------------------------------------------------------------
  // Capacity one, which the source's assertion admits
  // ---------------------------------------------------------------------------------------

  /** Thread 0 starts a push and runs it up to and including its compare-and-swap. */
  function SoloClaim<T>(item: T): seq<(nat, Action<T>)> {
    [(0, Begin(TryPush(item)))] + [(0, Advance)] + [(0, Advance)] + [(0, Advance)]
  }

  /** It goes on to write the item and to store the sequence. */
  function SoloPush<T>(item: T): seq<(nat, Action<T>)> {
    SoloClaim(item) + [(0, Advance)] + [(0, Advance)]
  }

  lemma {:induction false} RunConcat<T>(s: State<T>, first: seq<(nat, Action<T>)>, second: seq<(nat, Action<T>)>)
    requires WellFormed(s)
    ensures Run(s, first + second) == Run(Run(s, first), second)
    decreases |second|
  {
    if second == [] {
      assert first + second == first;
    } else {
      var last := |second| - 1;
      assert (first + second)[..|first + second| - 1] == first + second[..last];
      RunConcat(s, first, second[..last]);
    }
  }

  lemma RunOne<T>(s: State<T>, t: nat, a: Action<T>)
    requires WellFormed(s) && t < |s.threads|
    ensures Run(s, [(t, a)]) == Next(s, t, a)
  {
    var none: seq<(nat, Action<T>)> := [];
    assert [(t, a)][..0] == none;
  }

  /** A push that runs alone on a one-cell queue always finds the sequence it expects, */
  lemma SoloClaimOnOneCell<T>(s: State<T>, item: T)
    requires |s.cells| == 1 && |s.threads| == 1 && (s.threads[0].Idle? || s.threads[0].Done?)
    requires s.cells[0].sequence == s.enq
    ensures Run(s, SoloClaim(item)) ==
            s.(cells := [s.cells[0].(owner := Pusher(0))], enq := s.enq + 1,
               threads := [PushWrite(item, s.enq)], pushed := s.pushed + [item])
  {
    var begin: seq<(nat, Action<T>)> := [(0, Begin(TryPush(item)))];
    var one: seq<(nat, Action<T>)> := [(0, Advance)];
    var s1 := Next(s, 0, Begin(TryPush(item)));
    var s2 := Move(s1, 0, false);
    var s3 := Move(s2, 0, false);
    RunOne(s, 0, Begin(TryPush(item)));
    RunConcat(s, begin, one);
    RunOne(s1, 0, Advance);
    RunConcat(s, begin + one, one);
    RunOne(s2, 0, Advance);
    RunConcat(s, begin + one + one, one);
    RunOne(s3, 0, Advance);
    assert s3.threads == [PushCas(item, s.enq)];
  }

  lemma PublishOnOneCell<T>(s: State<T>, item: T, pos: nat)
    requires |s.cells| == 1 && s.threads == [PushWrite(item, pos)]
    ensures Next(Next(s, 0, Advance), 0, Advance) ==
            s.(cells := [Cell(pos + 1, Some(item), Nobody)], threads := [Done(Pushed(pos))])
  {
    assert Next(s, 0, Advance).threads == [PushStore(item, pos)];
  }

  lemma RunTwo<T>(s: State<T>, plan: seq<(nat, Action<T>)>, t: nat, a: Action<T>)
    requires WellFormed(s) && t < |s.threads|
    ensures Run(s, plan + [(t, a)] + [(t, a)]) == Next(Next(Run(s, plan), t, a), t, a)
  {
    RunConcat(s, plan, [(t, a)]);
    RunConcat(s, plan + [(t, a)], [(t, a)]);
    RunOne(Run(s, plan), t, a);
    RunOne(Next(Run(s, plan), t, a), t, a);
  }

  /** and publishes without looking again. */
  lemma SoloPushOnOneCell<T>(s: State<T>, item: T)
    requires |s.cells| == 1 && |s.threads| == 1 && (s.threads[0].Idle? || s.threads[0].Done?)
    requires s.cells[0].sequence == s.enq
    ensures Run(s, SoloPush(item)) ==
            s.(cells := [Cell(s.enq + 1, Some(item), Nobody)], enq := s.enq + 1,
               threads := [Done(Pushed(s.enq))], pushed := s.pushed + [item])
  {
    SoloClaimOnOneCell(s, item);
    RunTwo(s, SoloClaim(item), 0, Advance);
    PublishOnOneCell(Run(s, SoloClaim(item)), item, s.enq);
  }

  /** With one cell the published sequence of a ticket is the free sequence of the next, so a
      second push overwrites an item that nobody has popped. */
  lemma CapacityOneOverwrites<T>(x: T, y: T)
    ensures var s := Run(Init<T>(1, 1), SoloPush(x) + SoloPush(y));
            && s.deq == 0 && s.enq == 2 && s.pushed == [x, y] && s.cells == [Cell(2, Some(y), Nobody)]
  {
    var s := Init<T>(1, 1);
    SoloPushOnOneCell(s, x);
    SoloPushOnOneCell(Run(s, SoloPush(x)), y);
    RunConcat(s, SoloPush(x), SoloPush(y));
  }

  /** The queue holds at most `capacity` items on every run if and only if it has two cells. */
  lemma BoundedIffTwoCells<T(!new)>(capacity: nat, x: T, y: T)
    requires 0 < capacity
    ensures 2 <= capacity <==>
            forall threadCount: nat, schedule: seq<(nat, Action<T>)> ::
              var s := Run(Init<T>(capacity, threadCount), schedule);
              s.deq <= s.enq <= s.deq + capacity
  {
    if 2 <= capacity {
      forall threadCount: nat, schedule: seq<(nat, Action<T>)>
        ensures var s := Run(Init<T>(capacity, threadCount), schedule);
                s.deq <= s.enq <= s.deq + capacity
      {
        Delivery(capacity, threadCount, schedule);
      }
    } else {
      CapacityOneOverwrites(x, y);
    }
  }
}
