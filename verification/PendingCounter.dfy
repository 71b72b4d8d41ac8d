/** A run of the latency probe on which its pending counter is below zero. */
module PendingCounter {
  import opened Options
  import opened LatencyProbe
  import Q = MpmcQueue

  ghost predicate Reachable(s0: State, s: State)
    requires WellFormed(s0)
  {
    exists schedule :: Run(s0, schedule) == s
  }

  lemma ReachNext(s0: State, s: State, t: nat, a: Action)
    requires WellFormed(s0) && WellFormed(s) && Reachable(s0, s) && t <= |s.producers|
    ensures Reachable(s0, Next(s, t, a))
  {
    hide Next;
    var schedule :| Run(s0, schedule) == s;
    var longer := schedule + [(t, a)];
    assert longer[..|longer| - 1] == schedule;
    assert Run(s0, longer) == Next(s, t, a);
  }

  /** One producer without a lane and the exporter; the overflow queue stands at `q`. */
  predicate Small(s: State, role: Role, exporter: Exporter, pending: int, q: Q.State<Event>) {
    && WellFormed(s) && s.lanes == [] && s.producers == [role] && s.exporter == exporter && s.batchLimit == 1
    && s.pending == pending && s.overflow == q && s.running
  }

  /** A step of the producer's push in the overflow queue. */
  lemma ProducerMoves(s0: State, s: State, event: Event, q: Q.State<Event>, q': Q.State<Event>) returns (s': State)
    requires WellFormed(s0) && Reachable(s0, s) && Small(s, PushingOverflow(event), Head, 0, q) && s.batch == []
    requires Q.WellFormed(q) && |q.threads| == 2 && !q.threads[0].Done? && q' == Q.Move(q, 0, false)
    ensures Small(s', PushingOverflow(event), Head, 0, q') && s'.batch == [] && Reachable(s0, s')
  {
    hide Q.Move;
    ReachNext(s0, s, 0, Step);
    s' := Next(s, 0, Step);
  }

  /** A step of the exporter's pop in the overflow queue. */
  lemma ExporterMoves(s0: State, s: State, event: Event, q: Q.State<Event>, q': Q.State<Event>) returns (s': State)
    requires WellFormed(s0) && Reachable(s0, s) && Small(s, PushingOverflow(event), PoppingOverflow, 0, q)
    requires s.batch == []
    requires Q.WellFormed(q) && |q.threads| == 2 && !q.threads[1].Done? && q' == Q.Move(q, 1, false)
    ensures Small(s', PushingOverflow(event), PoppingOverflow, 0, q') && s'.batch == [] && Reachable(s0, s')
  {
    hide Q.Move;
    ReachNext(s0, s, 1, Step);
    s' := Next(s, 1, Step);
  }

  function QueueAt(first: Q.Cell<Event>, enq: nat, deq: nat, me: Q.Pc<Event>, exporter: Q.Pc<Event>, event: Event,
                   popped: map<nat, Event>): Q.State<Event> {
    Q.State([first, Q.Cell(1, None, Q.Nobody)], enq, deq, [me, exporter], if enq == 0 then [] else [event], popped)
  }

  lemma StartPublishing(s0: State, event: Event) returns (s: State)
    requires s0 == Init(0, 1, 2, 1, 1)
    ensures Reachable(s0, s) && s.batch == []
    ensures Small(s, PushingOverflow(event), Head, 0,
                  QueueAt(Q.Cell(0, None, Q.Nobody), 0, 0, Q.PushLoadPos(event), Q.Idle, event, map[]))
  {
    assert Run(s0, []) == s0;
    ReachNext(s0, s0, 0, Record(event));
    var s1 := Next(s0, 0, Record(event));
    assert s1.producers == [Registering(event)];
    ReachNext(s0, s1, 0, Step);
    s := Next(s1, 0, Step);
    assert s.overflow.cells == [Q.Cell(0, None, Q.Nobody), Q.Cell(1, None, Q.Nobody)];
    assert s.overflow.threads == [Q.PushLoadPos(event), Q.Idle];
  }

  /** The producer stores its event and has not added to the counter yet. */
  lemma Stored(s0: State, s: State, event: Event) returns (s': State)
    requires WellFormed(s0) && Reachable(s0, s) && s.batch == []
    requires Small(s, PushingOverflow(event), Head, 0,
                   QueueAt(Q.Cell(0, None, Q.Nobody), 0, 0, Q.PushLoadPos(event), Q.Idle, event, map[]))
    ensures Reachable(s0, s') && s'.batch == []
    ensures Small(s', PushingOverflow(event), Head, 0,
                  QueueAt(Q.Cell(1, Some(event), Q.Nobody), 1, 0, Q.Done(Q.Pushed(0)), Q.Idle, event, map[]))
  {
    hide Small, Reachable;
    var q := QueueAt(Q.Cell(0, None, Q.Nobody), 0, 0, Q.PushLoadPos(event), Q.Idle, event, map[]);
    var q1 := QueueAt(Q.Cell(0, None, Q.Nobody), 0, 0, Q.PushLoadSeq(event, 0), Q.Idle, event, map[]);
    var q2 := QueueAt(Q.Cell(0, None, Q.Nobody), 0, 0, Q.PushCas(event, 0), Q.Idle, event, map[]);
    var q3 := QueueAt(Q.Cell(0, None, Q.Pusher(0)), 1, 0, Q.PushWrite(event, 0), Q.Idle, event, map[]);
    var q4 := QueueAt(Q.Cell(0, Some(event), Q.Pusher(0)), 1, 0, Q.PushStore(event, 0), Q.Idle, event, map[]);
    var q5 := QueueAt(Q.Cell(1, Some(event), Q.Nobody), 1, 0, Q.Done(Q.Pushed(0)), Q.Idle, event, map[]);
    s' := ProducerMoves(s0, s, event, q, q1);
    s' := ProducerMoves(s0, s', event, q1, q2);
    s' := ProducerMoves(s0, s', event, q2, q3);
    s' := ProducerMoves(s0, s', event, q3, q4);
    s' := ProducerMoves(s0, s', event, q4, q5);
  }

  /** The exporter takes the event, */
  lemma Taken(s0: State, s: State, event: Event) returns (s': State)
    requires WellFormed(s0) && Reachable(s0, s) && s.batch == []
    requires Small(s, PushingOverflow(event), PoppingOverflow, 0,
                   QueueAt(Q.Cell(1, Some(event), Q.Nobody), 1, 0, Q.Done(Q.Pushed(0)), Q.PopLoadPos, event, map[]))
    ensures Reachable(s0, s') && s'.batch == []
    ensures Small(s', PushingOverflow(event), PoppingOverflow, 0,
                  QueueAt(Q.Cell(2, None, Q.Nobody), 1, 1, Q.Done(Q.Pushed(0)), Q.Done(Q.Popped(0, event)), event,
                          map[0 := event]))
  {
    hide Small, Reachable;
    var me := Q.Done(Q.Pushed(0));
    var q := QueueAt(Q.Cell(1, Some(event), Q.Nobody), 1, 0, me, Q.PopLoadPos, event, map[]);
    var q1 := QueueAt(Q.Cell(1, Some(event), Q.Nobody), 1, 0, me, Q.PopLoadSeq(0), event, map[]);
    var q2 := QueueAt(Q.Cell(1, Some(event), Q.Nobody), 1, 0, me, Q.PopCas(0), event, map[]);
    var q3 := QueueAt(Q.Cell(1, Some(event), Q.Popper(1)), 1, 1, me, Q.PopRead(0), event, map[]);
    var q4 := QueueAt(Q.Cell(1, None, Q.Popper(1)), 1, 1, me, Q.PopStore(event, 0), event, map[]);
    var q5 := QueueAt(Q.Cell(2, None, Q.Nobody), 1, 1, me, Q.Done(Q.Popped(0, event)), event, map[0 := event]);
    s' := ExporterMoves(s0, s, event, q, q1);
    s' := ExporterMoves(s0, s', event, q1, q2);
    s' := ExporterMoves(s0, s', event, q2, q3);
    s' := ExporterMoves(s0, s', event, q3, q4);
    s' := ExporterMoves(s0, s', event, q4, q5);
  }

  /** The exporter turns to the overflow queue, */
  lemma Picked(s0: State, s: State, event: Event, first: Q.Cell<Event>) returns (s': State)
    requires WellFormed(s0) && Reachable(s0, s) && s.batch == []
    requires Small(s, PushingOverflow(event), Head, 0, QueueAt(first, 1, 0, Q.Done(Q.Pushed(0)), Q.Idle, event, map[]))
    ensures Reachable(s0, s') && s'.batch == []
    ensures Small(s', PushingOverflow(event), PoppingOverflow, 0,
                  QueueAt(first, 1, 0, Q.Done(Q.Pushed(0)), Q.PopLoadPos, event, map[]))
  {
    hide Reachable;
    ReachNext(s0, s, 1, Step);
    var s1 := Next(s, 1, Step);
    ReachNext(s0, s1, 1, PickOverflow);
    s' := Next(s1, 1, PickOverflow);
    assert s'.overflow.threads == [Q.Done(Q.Pushed(0)), Q.PopLoadPos];
  }

  /** takes its batch of one, and subtracts it. */
  lemma Subtracted(s0: State, s: State, event: Event, q: Q.State<Event>) returns (s': State)
    requires WellFormed(s0) && Reachable(s0, s) && s.batch == []
    requires Small(s, PushingOverflow(event), PoppingOverflow, 0, q)
    requires |q.threads| == 2 && q.threads[1] == Q.Done(Q.Popped(0, event))
    ensures Reachable(s0, s') && s'.pending == -1
  {
    hide Reachable;
    ReachNext(s0, s, 1, Step);
    var s1 := Next(s, 1, Step);
    assert s1.exporter == Subtracting && |s1.batch| == 1;
    ReachNext(s0, s1, 1, Step);
    s' := Next(s1, 1, Step);
  }

  /** The pending counter can go below zero: the exporter subtracts an event that its producer has
      stored but not yet added. */
  lemma PendingBelowZero(event: Event)
    ensures exists schedule :: Run(Init(0, 1, 2, 1, 1), schedule).pending == -1
  {
    hide Small, Init;
    var s0 := Init(0, 1, 2, 1, 1);
    var s := StartPublishing(s0, event);
    s := Stored(s0, s, event);
    s := Picked(s0, s, event, Q.Cell(1, Some(event), Q.Nobody));
    s := Taken(s0, s, event);
    s := Subtracted(s0, s, event, QueueAt(Q.Cell(2, None, Q.Nobody), 1, 1, Q.Done(Q.Pushed(0)),
                                          Q.Done(Q.Popped(0, event)), event, map[0 := event]));
  }
}
