/** The prioritized set with scores priority * 2^32 + count is a queue by priority, first come first served. */
module Priorities {
  import opened Redis
  import opened Scripts
  import opened Runs
  import opened Order

  // ---------------------------------------------------------------- the queue it stands for

  datatype Ticket = Ticket(priority: int, id: string)

  function PriorityOf(e: Entry): int
  {
    e.score / WRAP
  }

  /** Puts a job behind all jobs of the same or a smaller priority number. */
  function Enqueue(queue: seq<Ticket>, t: Ticket): seq<Ticket>
  {
    if queue == [] || queue[0].priority > t.priority then [t] + queue
    else [queue[0]] + Enqueue(queue[1..], t)
  }

  function Tickets(z: ZSet): (queue: seq<Ticket>)
    ensures |queue| == |z|
    ensures forall i :: 0 <= i < |z| ==> queue[i] == Ticket(PriorityOf(z[i]), z[i].id)
  {
    seq(|z|, i requires 0 <= i < |z| => Ticket(PriorityOf(z[i]), z[i].id))
  }

  lemma TicketsCons(e: Entry, z: ZSet)
    ensures Tickets([e] + z) == [Ticket(PriorityOf(e), e.id)] + Tickets(z)
  {
  }

  lemma PriorityOrder(a: Entry, b: Entry)
    ensures PriorityOf(a) < PriorityOf(b) ==> a.score < b.score
  {
  }

  lemma AbsentInTail(z: ZSet, id: string)
    requires z != [] && id !in Members(z)
    ensures z[0].id != id && id !in Members(z[1..])
  {
    assert Members(z)[0] == z[0].id;
    assert Members(z[1..]) == Members(z)[1..];
  }

  /** The entries of the same priority, all of which come before e. */
  ghost predicate EqualsBefore(z: ZSet, e: Entry)
  {
    forall x <- z :: PriorityOf(x) == PriorityOf(e) ==> Before(x, e)
  }

  lemma BeforeOneWay(a: Entry, b: Entry)
    requires a.id != b.id
    ensures Before(a, b) <==> !Before(b, a)
  {
    LexTotal(a.id, b.id);
    if LexLess(a.id, b.id) && LexLess(b.id, a.id) {
      LexTransitive(a.id, b.id, a.id);
      LexIrreflexive(a.id);
    }
  }

  lemma EnqueueHead(queue: seq<Ticket>, t: Ticket)
    requires queue != []
    ensures queue[0].priority > t.priority ==> Enqueue(queue, t) == [t] + queue
    ensures queue[0].priority <= t.priority ==> Enqueue(queue, t) == [queue[0]] + Enqueue(queue[1..], t)
  {
  }

  /** Inserting by score is queueing by priority if and only if all entries of the same priority come before. */
  lemma {:induction false} InsertQueues(z: ZSet, e: Entry)
    requires Sorted(z) && e.id !in Members(z)
    ensures Tickets(ZInsert(z, e)) == Enqueue(Tickets(z), Ticket(PriorityOf(e), e.id)) <==> EqualsBefore(z, e)
  {
    var t := Ticket(PriorityOf(e), e.id);
    if z == [] {
      TicketsCons(e, z);
    } else {
      AbsentInTail(z, e.id);
      TicketsCons(z[0], z[1..]);
      TicketsCons(z[0], ZInsert(z[1..], e));
      TicketsCons(e, z);
      EnqueueHead(Tickets(z), t);
      BeforeOneWay(e, z[0]);
      PriorityOrder(e, z[0]);
      PriorityOrder(z[0], e);
      if Before(e, z[0]) {
        InsertInFront(z, e);
      } else {
        SortedTail(z);
        InsertQueues(z[1..], e);
        InsertBehind(z, e);
      }
    }
  }

  /** In front of the whole set: right if the first entry has a greater priority number. */
  lemma InsertInFront(z: ZSet, e: Entry)
    requires Sorted(z) && z != [] && Before(e, z[0]) && z[0].id != e.id
    ensures Tickets(ZInsert(z, e)) == Enqueue(Tickets(z), Ticket(PriorityOf(e), e.id)) <==> EqualsBefore(z, e)
  {
    EqualsOfFirst(z, e);
    hide EqualsBefore, Sorted;
    var t := Ticket(PriorityOf(e), e.id);
    TicketsCons(e, z);
    EnqueueHead(Tickets(z), t);
    if PriorityOf(z[0]) <= PriorityOf(e) {
      assert Enqueue(Tickets(z), t)[0] == Tickets(z)[0] != t;
    }
  }

  lemma EqualsOfFirst(z: ZSet, e: Entry)
    requires Sorted(z) && z != [] && Before(e, z[0]) && z[0].id != e.id
    ensures EqualsBefore(z, e) <==> PriorityOf(z[0]) > PriorityOf(e)
  {
    BeforeOneWay(e, z[0]);
    NotGreater(e, z[0]);
    if PriorityOf(z[0]) > PriorityOf(e) {
      forall x | x in z
        ensures PriorityOf(x) > PriorityOf(e)
      {
        HeadLeast(z, x);
      }
    } else {
      assert z[0] in z && PriorityOf(z[0]) == PriorityOf(e) && !Before(z[0], e);
    }
  }

  lemma HeadLeast(z: ZSet, x: Entry)
    requires Sorted(z) && x in z
    ensures z[0].score <= x.score && PriorityOf(z[0]) <= PriorityOf(x)
  {
  }

  /** Behind the first entry: right if it is right for the rest. */
  lemma InsertBehind(z: ZSet, e: Entry)
    requires z != [] && Before(z[0], e) && !Before(e, z[0])
    requires Tickets(ZInsert(z[1..], e)) == Enqueue(Tickets(z[1..]), Ticket(PriorityOf(e), e.id))
        <==> EqualsBefore(z[1..], e)
    ensures Tickets(ZInsert(z, e)) == Enqueue(Tickets(z), Ticket(PriorityOf(e), e.id)) <==> EqualsBefore(z, e)
  {
    hide Before, ZInsert;
    var t := Ticket(PriorityOf(e), e.id);
    assert z == [z[0]] + z[1..];
    TicketsCons(z[0], z[1..]);
    InsertTail(z, e);
    TicketsCons(z[0], ZInsert(z[1..], e));
    EnqueueHead(Tickets(z), t);
    NotGreater(z[0], e);
    var a, b := Tickets(ZInsert(z[1..], e)), Enqueue(Tickets(z[1..]), t);
    assert Tickets(z)[1..] == Tickets(z[1..]);
    assert ([Tickets(z)[0]] + a)[1..] == a && ([Tickets(z)[0]] + b)[1..] == b;
  }

  lemma InsertTail(z: ZSet, e: Entry)
    requires z != [] && !Before(e, z[0])
    ensures ZInsert(z, e) == [z[0]] + ZInsert(z[1..], e)
  {
  }

  lemma NotGreater(a: Entry, b: Entry)
    requires Before(a, b)
    ensures PriorityOf(a) <= PriorityOf(b)
  {
  }

  lemma CountsBelow(z: ZSet, pc: nat, e: Entry)
    requires CountsBounded(z, pc) && pc < e.score % WRAP
    ensures EqualsBefore(z, e)
  {
  }

  lemma CountsAbove(z: ZSet, pc: nat, e: Entry)
    requires CountsBounded(z, pc) && pc < WRAP && e.score % WRAP == 0
    ensures forall x <- z :: PriorityOf(x) == PriorityOf(e) ==> !Before(x, e)
  {
  }

  lemma ScorePriority(priority: nat, pc: nat)
    ensures PriorityScore(priority, pc) / WRAP == priority && PriorityScore(priority, pc) % WRAP == pc % WRAP
  {
  }

  /** The entry that addJobWithPriority adds. */
  function NewEntry(s: State, priority: nat, id: string): (e: Entry)
    ensures PriorityOf(e) == priority && e.id == id
  {
    ScorePriority(priority, s.pc + 1);
    Entry(PriorityScore(priority, s.pc + 1), id)
  }

  /** Whatever the counter: adding a job queues it behind its equals if and only if all of them have scores before its
      own, that is smaller counts modulo 2^32, or the same count and a smaller id. */
  lemma AddIsEnqueue(s: State, priority: nat, id: string)
    requires Sorted(s.q.prioritized) && id !in Members(s.q.prioritized)
    ensures Tickets(AddPrioritized(s, priority, id).q.prioritized)
         == Enqueue(Tickets(s.q.prioritized), Ticket(priority, id))
        <==> EqualsBefore(s.q.prioritized, NewEntry(s, priority, id))
  {
    hide Enqueue, ZAdd, ZInsert, Sorted, PriorityScore, Tickets, EqualsBefore;
    var e := NewEntry(s, priority, id);
    ZAddFresh(s.q.prioritized, e.score, id);
    InsertQueues(s.q.prioritized, e);
  }

  /** So it always does before the counter reaches 2^32. */
  lemma AddBelowWrap(s: State, priority: nat, id: string)
    requires Ordered(s) && s.pc + 1 < WRAP && id !in Members(s.q.prioritized)
    ensures Tickets(AddPrioritized(s, priority, id).q.prioritized)
         == Enqueue(Tickets(s.q.prioritized), Ticket(priority, id))
  {
    hide Enqueue, ZAdd, PriorityScore, Tickets, EqualsBefore;
    ScorePriority(priority, s.pc + 1);
    AddIsEnqueue(s, priority, id);
    CountsBelow(s.q.prioritized, s.pc, NewEntry(s, priority, id));
  }

  /** The addition that takes the counter to 2^32 overtakes every queued job of the same priority. */
  lemma AddAtWrap(s: State, priority: nat, id: string)
    requires Ordered(s) && s.pc + 1 == WRAP && id !in Members(s.q.prioritized)
    ensures Tickets(AddPrioritized(s, priority, id).q.prioritized)
         == Enqueue(Tickets(s.q.prioritized), Ticket(priority, id))
        <==> forall x <- s.q.prioritized :: PriorityOf(x) != priority
  {
    hide Enqueue, ZAdd, PriorityScore, Tickets;
    ScorePriority(priority, WRAP);
    AddIsEnqueue(s, priority, id);
    CountsAbove(s.q.prioritized, s.pc, NewEntry(s, priority, id));
  }

  /** ZPOPMIN takes the head of that queue. */
  lemma PopIsDequeue(z: ZSet)
    requires z != []
    ensures Tickets(z)[0].id == z[0].id && Tickets(z[1..]) == Tickets(z)[1..]
  {
  }

  /** Every score is an exact double as long as priorities are below 2^21. */
  lemma ExactScores(priority: nat, pc: nat)
    requires priority < 0x20_0000
    ensures PriorityScore(priority, pc) < 0x20_0000_0000_0000
  {
  }

  // ---------------------------------------------------------------- any sequence of operations

  datatype Op = Add(priority: nat, id: string) | Pop

  /** The set with its counter, which a pop of the empty set deletes. */
  datatype Counted = Counted(z: ZSet, pc: nat)

  function Do(t: Counted, op: Op): Counted
  {
    match op
    case Add(priority, id) => Counted(ZAdd(t.z, PriorityScore(priority, t.pc + 1), id), t.pc + 1)
    case Pop => if t.z == [] then Counted([], 0) else Counted(t.z[1..], t.pc)
  }

  function SetAfter(t: Counted, ops: seq<Op>): Counted
  {
    if ops == [] then t else Do(SetAfter(t, ops[..|ops| - 1]), ops[|ops| - 1])
  }

  function Serve(queue: seq<Ticket>, op: Op): seq<Ticket>
  {
    match op
    case Add(priority, id) => Enqueue(queue, Ticket(priority, id))
    case Pop => if queue == [] then [] else queue[1..]
  }

  function QueueAfter(queue: seq<Ticket>, ops: seq<Op>): seq<Ticket>
  {
    if ops == [] then queue else Serve(QueueAfter(queue, ops[..|ops| - 1]), ops[|ops| - 1])
  }

  lemma {:induction false} SetConcat(t: Counted, a: seq<Op>, b: seq<Op>)
    ensures SetAfter(t, a + b) == SetAfter(SetAfter(t, a), b)
  {
    hide Do;
    if b == [] {
      assert a + b == a;
    } else {
      assert (a + b)[..|a + b| - 1] == a + b[..|b| - 1];
      SetConcat(t, a, b[..|b| - 1]);
    }
  }

  lemma {:induction false} QueueConcat(queue: seq<Ticket>, a: seq<Op>, b: seq<Op>)
    ensures QueueAfter(queue, a + b) == QueueAfter(QueueAfter(queue, a), b)
  {
    hide Serve;
    if b == [] {
      assert a + b == a;
    } else {
      assert (a + b)[..|a + b| - 1] == a + b[..|b| - 1];
      QueueConcat(queue, a, b[..|b| - 1]);
    }
  }

  /** An addition of a new id while the counter stays below 2^32, or any pop. */
  ghost predicate Usual(t: Counted, op: Op)
  {
    op.Add? ==> t.pc + 1 < WRAP && op.id !in Members(t.z)
  }

  ghost predicate AllUsual(t: Counted, ops: seq<Op>)
  {
    ops == [] || (AllUsual(t, ops[..|ops| - 1]) && Usual(SetAfter(t, ops[..|ops| - 1]), ops[|ops| - 1]))
  }

  ghost predicate Proper(t: Counted)
  {
    Sorted(t.z) && CountsBounded(t.z, t.pc)
  }

  lemma OpServes(t: Counted, op: Op)
    requires Proper(t) && Usual(t, op)
    ensures Proper(Do(t, op)) && Tickets(Do(t, op).z) == Serve(Tickets(t.z), op)
  {
    hide Enqueue, ZAdd, ZInsert, PriorityScore, Sorted, EqualsBefore;
    match op
    case Add(priority, id) =>
      var e := Entry(PriorityScore(priority, t.pc + 1), id);
      ScorePriority(priority, t.pc + 1);
      ZAddFresh(t.z, e.score, id);
      ZAddSorted(t.z, e.score, id);
      ZAddEntries(t.z, e.score, id);
      CountsBelow(t.z, t.pc, e);
      InsertQueues(t.z, e);
    case Pop =>
      if t.z != [] {
        PopIsDequeue(t.z);
        SortedTail(t.z);
      }
  }

  /** The sorted set goes through the same contents as the queue, for any sequence of additions and removals. */
  lemma {:induction false} SetIsQueue(t: Counted, ops: seq<Op>)
    requires Proper(t) && AllUsual(t, ops)
    ensures Tickets(SetAfter(t, ops).z) == QueueAfter(Tickets(t.z), ops)
    ensures Proper(SetAfter(t, ops))
  {
    hide Do, Serve, Proper, Usual;
    if ops != [] {
      SetIsQueue(t, ops[..|ops| - 1]);
      OpServes(SetAfter(t, ops[..|ops| - 1]), ops[|ops| - 1]);
    }
  }
}
