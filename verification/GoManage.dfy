/** RemoveJob, Clean and Drain beside workers, Add, AddLog and RetryJob: each of their commands is a step of its own. */
module GoManage {
  import opened Redis
  import opened GoWorker
  import opened GoQueue

  // ---------------------------------------------------------------- commands of a pipeline

  datatype Container = Wait | Prioritized | Delayed | Active | Completed | Failed

  function Content(q: Store, c: Container): seq<string>
  {
    match c
    case Wait => q.wait
    case Prioritized => Members(q.prioritized)
    case Delayed => Members(q.delayed)
    case Active => q.active
    case Completed => Members(q.completed)
    case Failed => Members(q.failed)
  }

  datatype Command =
    | Take(c: Container, id: string)    // LREM key 0 id, ZREM key id
    | Clear(c: Container)               // DEL of the container
    | DeleteJob(id: string)
    | DeleteLock(id: string)
    | DeleteLogs(id: string)

  function Without(q: Store, c: Container, id: string): Store
  {
    match c
    case Wait => q.(wait := LRemAll(q.wait, id))
    case Prioritized => q.(prioritized := ZRem(q.prioritized, {id}))
    case Delayed => q.(delayed := ZRem(q.delayed, {id}))
    case Active => q.(active := LRemAll(q.active, id))
    case Completed => q.(completed := ZRem(q.completed, {id}))
    case Failed => q.(failed := ZRem(q.failed, {id}))
  }

  function Cleared(q: Store, c: Container): Store
  {
    match c
    case Wait => q.(wait := [])
    case Prioritized => q.(prioritized := [])
    case Delayed => q.(delayed := [])
    case Active => q.(active := [])
    case Completed => q.(completed := [])
    case Failed => q.(failed := [])
  }

  function Execute(q: Store, command: Command): Store
  {
    match command
    case Take(c, id) => Without(q, c, id)
    case Clear(c) => Cleared(q, c)
    case DeleteJob(id) => q.(jobs := q.jobs - {id})
    case DeleteLock(id) => q.(locks := q.locks - {id})
    case DeleteLogs(id) => q.(logs := q.logs - {id})
  }

  function Deletion(id: string): seq<Command>
  {
    [DeleteJob(id), DeleteLock(id), DeleteLogs(id)]
  }

  function Takes(id: string): seq<Command>
  {
    [Take(Wait, id), Take(Active, id), Take(Prioritized, id)]
    + [Take(Delayed, id), Take(Completed, id), Take(Failed, id)]
  }

  function RemoveCommands(id: string): seq<Command>
  {
    Takes(id) + Deletion(id)
  }

  function CleanCommands(c: Container, ids: seq<string>): seq<Command>
  {
    if ids == [] then [] else [Take(c, ids[0])] + Deletion(ids[0]) + CleanCommands(c, ids[1..])
  }

  function Deletions(ids: seq<string>): seq<Command>
  {
    if ids == [] then [] else Deletion(ids[0]) + Deletions(ids[1..])
  }

  function DrainCommands(ids: seq<string>): seq<Command>
  {
    [Clear(Wait), Clear(Prioritized), Clear(Delayed), Clear(Active), Clear(Completed), Clear(Failed)] + Deletions(ids)
  }

  // ---------------------------------------------------------------- calls

  /** Where a call stands. held: how often its pipeline has taken each id out of a container without deleting the
      hash. */
  datatype Call =
    | Query(jobType: JobType, cutoff: int, limit: int)        // Clean, before its range query
    | Collect(rest: seq<Container>, ids: set<string>)         // Drain, with the containers it has still to read
    | Send(todo: seq<Command>, held: multiset<string>)        // the rest of the pipeline

  datatype Request = Remove(id: string) | Clean(jobType: JobType, cutoff: int, limit: int) | Drain

  function First(request: Request): Call
  {
    match request
    case Remove(id) => Send(RemoveCommands(id), multiset{})
    case Clean(jobType, cutoff, limit) =>
      if jobType.Other? then Send([], multiset{}) else Query(jobType, cutoff, limit)
    case Drain => Collect([Wait, Prioritized, Delayed, Active, Completed, Failed], {})
  }

  function Archive(jobType: JobType): Container
  {
    if jobType.CompletedJobs? then Completed else Failed
  }

  function Hold(q: Store, command: Command, held: multiset<string>): multiset<string>
  {
    match command
    case Take(c, id) => held[id := held[id] + multiset(Content(q, c))[id]]
    case Clear(c) => held + multiset(Content(q, c))
    case DeleteJob(id) => held[id := 0]
    case _ => held
  }

  /** The call after its next command; order is the iteration order of Drain's map of ids. */
  function Advanced(q: Store, call: Call, order: seq<string>): Call
  {
    match call
    case Query(jobType, cutoff, limit) =>
      Send(CleanCommands(Archive(jobType), Cleanable(q, cutoff, limit, jobType)), multiset{})
    case Collect(rest, ids) =>
      if rest == [] then Send(DrainCommands(order), multiset{})
      else Collect(rest[1..], ids + Ids(Content(q, rest[0])))
    case Send(todo, held) => if todo == [] then call else Send(todo[1..], Hold(q, todo[0], held))
  }

  predicate Pending(call: Call)
  {
    call.Send? && call.todo != []
  }

  datatype World = World(sys: System, calls: seq<Call>)

  datatype Move =
    | Work(p: nat, a: Action)
    | Begin(request: Request)
    | Proceed(i: nat, order: seq<string>)

  ghost predicate Allowed(w: World, m: Move)
  {
    match m
    case Work(p, a) => Enabled(w.sys, p, a)
    case Begin(_) => true
    case Proceed(i, order) =>
      && i < |w.calls|
      && match w.calls[i]
         case Query(_, _, _) => true
         case Collect(rest, ids) => rest == [] ==> Ids(order) == ids && |order| == |ids|
         case Send(todo, _) => todo != []
  }

  function Moved(w: World, m: Move): World
    requires m.Work? ==> m.p < |w.sys.procs|
    requires m.Proceed? ==> m.i < |w.calls|
  {
    match m
    case Work(p, a) => w.(sys := Act(w.sys, p, a))
    case Begin(request) => w.(calls := w.calls + [First(request)])
    case Proceed(i, order) =>
      var q, call := w.sys.q, w.calls[i];
      w.(
        sys := w.sys.(q := if Pending(call) then Execute(q, call.todo[0]) else q),
        calls := w.calls[i := Advanced(q, call, order)])
  }

  ghost predicate Course(w: World, moves: seq<Move>)
    decreases moves
  {
    moves == [] || (Allowed(w, moves[0]) && Course(Moved(w, moves[0]), moves[1..]))
  }

  ghost function End(w: World, moves: seq<Move>): World
    requires Course(w, moves)
    decreases moves
  {
    if moves == [] then w else End(Moved(w, moves[0]), moves[1..])
  }

  ghost predicate Opening(w: World)
  {
    Init(w.sys) && w.calls == []
  }

  // ---------------------------------------------------------------- one place

  /** What a call has taken out of a container and is going to delete. */
  function Holding(call: Call, x: string): nat
  {
    if call.Send? && DeleteJob(x) in call.todo then call.held[x] else 0
  }

  function Held(calls: seq<Call>, x: string): nat
  {
    if calls == [] then 0 else Holding(calls[0], x) + Held(calls[1..], x)
  }

  /** Every job with a hash is in exactly one container, or in the hands of exactly one goroutine, or taken out by
      exactly one call that is going to delete it; no other id is anywhere. */
  ghost predicate OneSpot(w: World)
  {
    forall x :: Listed(w.sys.q, x) + Hands(w.sys.procs, x) + Held(w.calls, x) == Count(Known(w.sys.q, x))
  }

  ghost predicate KnownIssued(s: System)
  {
    forall x :: Known(s.q, x) ==> x in s.used
  }

  /** What a pipeline takes out it deletes afterwards. */
  predicate Follows(todo: seq<Command>)
  {
    todo == [] || ((todo[0].Take? ==> DeleteJob(todo[0].id) in todo[1..]) && Follows(todo[1..]))
  }

  ghost predicate Sound(w: World)
  {
    && OneSpot(w)
    && KnownIssued(w.sys)
    && forall i :: 0 <= i < |w.calls| ==> (w.calls[i].Send? ==> Follows(w.calls[i].todo))
  }

  /** The next command of a goroutine is an LREM or ZREM that replies 0. */
  predicate Vain(q: Store, a: Proc)
  {
    (a.Unfail? && !ZHas(q.failed, a.id)) || (Leaves(a) && a.id !in q.active)
  }

  /** The next command of a pipeline deletes the hash of a job that the pipeline has not taken out of a container, or
      a container with a job whose hash it will not delete. */
  predicate Loses(q: Store, todo: seq<Command>, held: multiset<string>)
  {
    todo != [] &&
    match todo[0]
    case DeleteJob(id) => Known(q, id) && held[id] == 0
    case Clear(c) => exists x <- Content(q, c) :: DeleteJob(x) !in todo
    case _ => false
  }

  predicate Careful(w: World, m: Move)
    requires m.Work? ==> m.p < |w.sys.procs|
    requires m.Proceed? ==> m.i < |w.calls|
  {
    match m
    case Work(p, a) => a.Next? ==> !Vain(w.sys.q, w.sys.procs[p])
    case Begin(_) => true
    case Proceed(i, _) => w.calls[i].Send? ==> !Loses(w.sys.q, w.calls[i].todo, w.calls[i].held)
  }

  ghost predicate AlwaysCareful(w: World, moves: seq<Move>)
    requires Course(w, moves)
    decreases moves
  {
    moves == [] || (Careful(w, moves[0]) && AlwaysCareful(Moved(w, moves[0]), moves[1..]))
  }

  ghost predicate AlwaysOneSpot(w: World, moves: seq<Move>)
    requires Course(w, moves)
    decreases moves
  {
    OneSpot(w) && (moves == [] || AlwaysOneSpot(Moved(w, moves[0]), moves[1..]))
  }

  // ---------------------------------------------------------------- steps of the workers

  lemma AtOne(w: World, x: string)
    requires OneSpot(w)
    ensures Listed(w.sys.q, x) + Hands(w.sys.procs, x) + Held(w.calls, x) == Count(Known(w.sys.q, x))
  {
    hide Listed, Hands, Held, Known, Count;
  }

  /** Where the job of a goroutine is when its next command is not in vain. */
  lemma WorkerReady(w: World, p: nat)
    requires OneSpot(w) && p < |w.sys.procs| && !Vain(w.sys.q, w.sys.procs[p])
    ensures Ready(w.sys.q, w.sys.procs[p])
  {
    hide OneSpot, Listed, Hands, Held, Known, Members;
    var q, a := w.sys.q, w.sys.procs[p];
    if InHand(a).Some? || a.Unfail? {
      AtOne(w, a.id);
      OneHolds(w.sys.procs, p, a.id);
      if a.Unfail? {
        ListedElsewhere(q, a.id);
      }
    }
  }

  lemma BalancedStep(w: World, p: nat, now: nat)
    requires OneSpot(w) && Enabled(w.sys, p, Next(now)) && Ready(w.sys.q, w.sys.procs[p])
    ensures OneSpot(w.(sys := Act(w.sys, p, Next(now))))
  {
    hide Do, Then, Listed, Known, Hands, Held, InHand, Owned, Is, Count, Ready, OneSpot;
    var s' := Act(w.sys, p, Next(now));
    forall x
      ensures Listed(s'.q, x) + Hands(s'.procs, x) + Held(w.calls, x) == Count(Known(s'.q, x))
    {
      AtOne(w, x);
      CommandBalanced(w.sys.q, w.sys.procs[p], now, x);
      SetProc(w.sys.procs, p, Then(w.sys.q, w.sys.procs[p]), x);
    }
    IsOneSpot(w.(sys := s'));
  }

  lemma IsOneSpot(w: World)
    requires forall x :: Listed(w.sys.q, x) + Hands(w.sys.procs, x) + Held(w.calls, x) == Count(Known(w.sys.q, x))
    ensures OneSpot(w)
  {
    hide Listed, Hands, Held, Known, Count;
  }

  lemma VainCommand(q: Store, a: Proc, now: nat)
    requires Vain(q, a)
    ensures a.Unfail? || Leaves(a)
    ensures Do(q, a, now) == q && InHand(a) == None && InHand(Then(q, a)) == Some(a.id)
  {
    hide ZRem, Members, LRemFirst;
    if a.Unfail? {
      UnfailMissing(q, a.id, now, a.id);
    } else {
      Leaving(q, a, now);
      LRemMissing(q, a.id);
    }
  }

  lemma LRemMissing(q: Store, id: string)
    requires id !in q.active
    ensures q.(active := LRemFirst(q.active, id)) == q
  {
  }

  lemma VainStep(w: World, p: nat, now: nat)
    requires OneSpot(w) && Enabled(w.sys, p, Next(now)) && Vain(w.sys.q, w.sys.procs[p])
    ensures !OneSpot(w.(sys := Act(w.sys, p, Next(now))))
  {
    hide Do, Then, Listed, Known, Hands, Held, InHand, Owned, Vain, OneSpot;
    var a := w.sys.procs[p];
    var w' := w.(sys := Act(w.sys, p, Next(now)));
    VainCommand(w.sys.q, a, now);
    SetProc(w.sys.procs, p, Then(w.sys.q, a), a.id);
    AtOne(w, a.id);
    if OneSpot(w') {
      AtOne(w', a.id);
    }
  }

  /** A goroutine that holds nothing before and after, and a store that differs in locks, logs and the pause only. */
  lemma AsideStep(w: World, p: nat, a: Proc, s': System)
    requires OneSpot(w) && p < |w.sys.procs| && s'.procs == w.sys.procs[p := a]
    requires InHand(a) == InHand(w.sys.procs[p])
    requires s'.q == w.sys.q.(logs := s'.q.logs, paused := s'.q.paused)
    ensures OneSpot(w.(sys := s'))
  {
    hide Listed, Hands, Held, InHand, Owned, OneSpot;
    forall x
      ensures Listed(s'.q, x) + Hands(s'.procs, x) + Held(w.calls, x) == Count(Known(s'.q, x))
    {
      AtOne(w, x);
      SetProc(w.sys.procs, p, a, x);
      SameLists(w.sys.q, s'.q, x);
    }
    IsOneSpot(w.(sys := s'));
  }

  lemma SubmitStep(w: World, p: nat, id: string, opts: JobOptions, now: nat)
    requires OneSpot(w) && KnownIssued(w.sys) && Enabled(w.sys, p, Submit(id, opts, now))
    ensures OneSpot(w.(sys := Act(w.sys, p, Submit(id, opts, now))))
  {
    hide Listed, Hands, Held, OneSpot, Is;
    if NewJob(opts, now).Some? {
      var s' := Act(w.sys, p, Submit(id, opts, now));
      var job := NewJob(opts, now).value;
      forall x
        ensures Listed(s'.q, x) + Hands(s'.procs, x) + Held(w.calls, x) == Count(Known(s'.q, x))
      {
        AtOne(w, x);
        SetProc(w.sys.procs, p, Enqueue(id, job), x);
        SameLists(w.sys.q, s'.q, x);
        IsCount(id, x);
      }
      IsOneSpot(w.(sys := s'));
    }
  }

  lemma WorkStep(w: World, p: nat, a: Action)
    requires OneSpot(w) && KnownIssued(w.sys) && Enabled(w.sys, p, a)
    ensures OneSpot(w.(sys := Act(w.sys, p, a))) <==> Careful(w, Work(p, a))
  {
    hide OneSpot, KnownIssued, Vain, Ready, Listed, Members, ZHas;
    match a
    case Next(now) =>
      if Vain(w.sys.q, w.sys.procs[p]) {
        VainStep(w, p, now);
      } else {
        WorkerReady(w, p);
        BalancedStep(w, p, now);
      }
    case Submit(id, opts, now) => SubmitStep(w, p, id, opts, now);
    case _ => AsideStep(w, p, Act(w.sys, p, a).procs[p], Act(w.sys, p, a));
  }

  lemma WorkIssued(s: System, p: nat, a: Action)
    requires KnownIssued(s) && Enabled(s, p, a)
    ensures KnownIssued(Act(s, p, a))
  {
    hide Do, Then;
    if a.Next? {
      forall x | !Known(s.q, x)
        ensures !Known(Do(s.q, s.procs[p], a.now), x)
      {
        UnknownStays(s.q, s.procs[p], a.now, x);
      }
    }
  }

  // ---------------------------------------------------------------- steps of the calls

  lemma {:induction false} SetCall(calls: seq<Call>, i: nat, call: Call, x: string)
    requires i < |calls|
    ensures Held(calls[i := call], x) + Holding(calls[i], x) == Held(calls, x) + Holding(call, x)
  {
    hide Holding;
    if i == 0 {
      assert calls[0 := call][1..] == calls[1..];
    } else {
      assert calls[i := call][1..] == calls[1..][i - 1 := call];
      SetCall(calls[1..], i - 1, call, x);
    }
  }

  lemma {:induction false} AddCall(calls: seq<Call>, call: Call, x: string)
    ensures Held(calls + [call], x) == Held(calls, x) + Holding(call, x)
  {
    hide Holding;
    if calls == [] {
      assert calls + [call] == [call];
    } else {
      assert (calls + [call])[1..] == calls[1..] + [call];
      AddCall(calls[1..], call, x);
    }
  }

  lemma TakeListed(q: Store, c: Container, id: string, x: string)
    ensures Listed(Execute(q, Take(c, id)), x) + (if x == id then multiset(Content(q, c))[x] else 0) == Listed(q, x)
    ensures Execute(q, Take(c, id)).jobs == q.jobs
  {
    hide Members, ZRem, LRemAll;
  }

  lemma ClearListed(q: Store, c: Container, x: string)
    ensures Listed(Execute(q, Clear(c)), x) + multiset(Content(q, c))[x] == Listed(q, x)
    ensures Execute(q, Clear(c)).jobs == q.jobs
  {
    assert Members([]) == [];
    hide Members;
  }

  /** The listing, the call's hold and the knowledge of x before and after a command of a pipeline. */
  lemma CommandMoves(q: Store, todo: seq<Command>, held: multiset<string>, x: string)
    requires todo != [] && Follows(todo) && !todo[0].DeleteJob? && !todo[0].Clear?
    ensures Execute(q, todo[0]).jobs == q.jobs
    ensures Listed(Execute(q, todo[0]), x) + Holding(Send(todo[1..], Hold(q, todo[0], held)), x)
      == Listed(q, x) + Holding(Send(todo, held), x)
  {
    hide Listed, Content;
    assert todo == [todo[0]] + todo[1..];
    match todo[0]
    case Take(c, id) =>
      TakeListed(q, c, id, x);
    case DeleteLock(id) => SameLists(q, Execute(q, todo[0]), x);
    case DeleteLogs(id) => SameLists(q, Execute(q, todo[0]), x);
  }

  lemma ClearMoves(q: Store, todo: seq<Command>, held: multiset<string>, x: string)
    requires todo != [] && todo[0].Clear?
    ensures var r, kept := Execute(q, todo[0]), Holding(Send(todo[1..], Hold(q, todo[0], held)), x);
      && r.jobs == q.jobs
      && Listed(r, x) + multiset(Content(q, todo[0].c))[x] == Listed(q, x)
      && kept == Holding(Send(todo, held), x) + if DeleteJob(x) in todo then multiset(Content(q, todo[0].c))[x] else 0
  {
    hide Listed, Content;
    ClearListed(q, todo[0].c, x);
    assert todo == [todo[0]] + todo[1..];
  }

  lemma DeleteMoves(q: Store, todo: seq<Command>, held: multiset<string>, x: string)
    requires todo != [] && todo[0].DeleteJob?
    ensures var r, kept := Execute(q, todo[0]), Holding(Send(todo[1..], Hold(q, todo[0], held)), x);
      && Listed(r, x) == Listed(q, x)
      && Known(r, x) == (Known(q, x) && x != todo[0].id)
      && kept == if x == todo[0].id then 0 else Holding(Send(todo, held), x)
    ensures Holding(Send(todo, held), todo[0].id) == held[todo[0].id]
  {
    hide Listed;
    SameLists(q, Execute(q, todo[0]), x);
    assert todo == [todo[0]] + todo[1..];
  }

  lemma PlainStep(w: World, i: nat)
    requires OneSpot(w) && i < |w.calls| && Pending(w.calls[i]) && Follows(w.calls[i].todo)
    requires !w.calls[i].todo[0].DeleteJob? && !w.calls[i].todo[0].Clear?
    ensures OneSpot(Moved(w, Proceed(i, [])))
  {
    hide OneSpot, Listed, Hands, Held, Holding, Follows, Execute, Hold;
    var w' := Moved(w, Proceed(i, []));
    forall x
      ensures Listed(w'.sys.q, x) + Hands(w'.sys.procs, x) + Held(w'.calls, x) == Count(Known(w'.sys.q, x))
    {
      AtOne(w, x);
      SetCall(w.calls, i, w'.calls[i], x);
      CommandMoves(w.sys.q, w.calls[i].todo, w.calls[i].held, x);
    }
    IsOneSpot(w');
  }

  lemma ClearStep(w: World, i: nat)
    requires OneSpot(w) && i < |w.calls| && Pending(w.calls[i]) && w.calls[i].todo[0].Clear?
    ensures OneSpot(Moved(w, Proceed(i, []))) <==> !Loses(w.sys.q, w.calls[i].todo, w.calls[i].held)
  {
    hide OneSpot, Listed, Hands, Held, Holding, Execute, Hold, Content;
    var w' := Moved(w, Proceed(i, []));
    var todo := w.calls[i].todo;
    var content := Content(w.sys.q, todo[0].c);
    forall x
      ensures Listed(w'.sys.q, x) + Hands(w'.sys.procs, x) + Held(w'.calls, x)
        + (if DeleteJob(x) in todo then 0 else multiset(content)[x]) == Count(Known(w'.sys.q, x))
    {
      AtOne(w, x);
      SetCall(w.calls, i, w'.calls[i], x);
      ClearMoves(w.sys.q, todo, w.calls[i].held, x);
    }
    if OneSpot(w') {
      forall x | x in content
        ensures DeleteJob(x) in todo
      {
        AtOne(w', x);
        assert multiset(content)[x] > 0;
      }
    } else if !Loses(w.sys.q, todo, w.calls[i].held) {
      assert forall x :: DeleteJob(x) !in todo ==> multiset(content)[x] == 0;
      IsOneSpot(w');
    }
  }

  lemma DeleteStep(w: World, i: nat)
    requires OneSpot(w) && i < |w.calls| && Pending(w.calls[i]) && w.calls[i].todo[0].DeleteJob?
    ensures OneSpot(Moved(w, Proceed(i, []))) <==> !Loses(w.sys.q, w.calls[i].todo, w.calls[i].held)
  {
    hide OneSpot, Listed, Hands, Held, Holding, Execute, Hold;
    var w' := Moved(w, Proceed(i, []));
    var todo, held := w.calls[i].todo, w.calls[i].held;
    var id := todo[0].id;
    forall x
      ensures Listed(w'.sys.q, x) + Hands(w'.sys.procs, x) + Held(w'.calls, x)
        + (if x == id then held[id] else 0) == Count(Known(w.sys.q, x))
      ensures Known(w'.sys.q, x) == (Known(w.sys.q, x) && x != id)
    {
      AtOne(w, x);
      SetCall(w.calls, i, w'.calls[i], x);
      DeleteMoves(w.sys.q, todo, held, x);
    }
    if OneSpot(w') {
      AtOne(w', id);
    } else if !Loses(w.sys.q, todo, held) {
      IsOneSpot(w');
    }
  }

  /** A call that reads, or begins: nothing has been taken out yet. */
  lemma ReadStep(w: World, m: Move)
    requires OneSpot(w) && Allowed(w, m) && !m.Work?
    requires m.Proceed? ==> !w.calls[m.i].Send?
    ensures OneSpot(Moved(w, m))
  {
    hide OneSpot, Listed, Hands, Held, Cleanable, CleanCommands, DrainCommands, RemoveCommands, Content;
    var w' := Moved(w, m);
    forall x
      ensures Held(w'.calls, x) == Held(w.calls, x)
    {
      match m
      case Begin(request) => AddCall(w.calls, First(request), x);
      case Proceed(i, order) => SetCall(w.calls, i, w'.calls[i], x);
    }
    forall x
      ensures Listed(w'.sys.q, x) + Hands(w'.sys.procs, x) + Held(w'.calls, x) == Count(Known(w'.sys.q, x))
    {
      AtOne(w, x);
    }
    IsOneSpot(w');
  }

  /** Exactly which steps of whom break the one place of a job: an LREM or ZREM of a worker or RetryJob that replies 0,
      and a DEL of a hash or container that does not fit what the call itself has taken out or read. */
  lemma StepDecides(w: World, m: Move)
    requires Sound(w) && Allowed(w, m)
    ensures OneSpot(Moved(w, m)) <==> Careful(w, m)
  {
    hide OneSpot, KnownIssued, Vain, Follows, Hold, Execute, Content, Cleanable;
    match m
    case Work(p, a) => WorkStep(w, p, a);
    case Begin(_) => ReadStep(w, m);
    case Proceed(i, order) =>
      if !w.calls[i].Send? {
        ReadStep(w, m);
      } else {
        assert Moved(w, m) == Moved(w, Proceed(i, []));
        if w.calls[i].todo[0].Clear? {
          ClearStep(w, i);
        } else if w.calls[i].todo[0].DeleteJob? {
          DeleteStep(w, i);
        } else {
          PlainStep(w, i);
        }
      }
  }

  // ---------------------------------------------------------------- the shape of the pipelines

  lemma {:induction false} FollowsConcat(a: seq<Command>, b: seq<Command>)
    requires Follows(a) && Follows(b)
    ensures Follows(a + b)
  {
    if a == [] {
      assert a + b == b;
    } else {
      assert (a + b)[1..] == a[1..] + b;
      FollowsConcat(a[1..], b);
    }
  }

  lemma {:induction false} NoTakes(todo: seq<Command>)
    requires forall command <- todo :: !command.Take?
    ensures Follows(todo)
  {
    if todo != [] {
      NoTakes(todo[1..]);
    }
  }

  lemma {:induction false} TakesThenDeletes(takes: seq<Command>, id: string)
    requires forall command <- takes :: command.Take? && command.id == id
    ensures Follows(takes + Deletion(id))
  {
    var todo := takes + Deletion(id);
    if takes == [] {
      assert todo == Deletion(id);
      NoTakes(todo);
    } else {
      assert todo[1..] == takes[1..] + Deletion(id);
      TakesThenDeletes(takes[1..], id);
      assert Deletion(id)[0] == DeleteJob(id) && DeleteJob(id) in todo[1..];
    }
  }

  lemma RemoveFollows(id: string)
    ensures Follows(RemoveCommands(id))
  {
    hide Follows, Deletion;
    TakesThenDeletes(Takes(id), id);
  }

  lemma {:induction false} CleanFollows(c: Container, ids: seq<string>)
    ensures Follows(CleanCommands(c, ids))
  {
    if ids != [] {
      TakesThenDeletes([Take(c, ids[0])], ids[0]);
      CleanFollows(c, ids[1..]);
      hide Follows, Deletion;
      FollowsConcat([Take(c, ids[0])] + Deletion(ids[0]), CleanCommands(c, ids[1..]));
    }
  }

  lemma {:induction false} DeletionsTakeNothing(ids: seq<string>)
    ensures forall command <- Deletions(ids) :: !command.Take?
  {
    if ids != [] {
      DeletionsTakeNothing(ids[1..]);
    }
  }

  lemma DrainFollows(ids: seq<string>)
    ensures Follows(DrainCommands(ids))
  {
    hide Follows;
    DeletionsTakeNothing(ids);
    hide Deletions;
    NoTakes(DrainCommands(ids));
  }

  lemma CallFollows(w: World, m: Move)
    requires Sound(w) && Allowed(w, m) && !m.Work?
    ensures forall i :: 0 <= i < |Moved(w, m).calls| ==>
      (Moved(w, m).calls[i].Send? ==> Follows(Moved(w, m).calls[i].todo))
  {
    hide OneSpot, KnownIssued, Execute, Hold, Cleanable, CleanCommands, DrainCommands, RemoveCommands, Content;
    match m
    case Begin(Remove(id)) => RemoveFollows(id);
    case Begin(_) =>
    case Proceed(i, order) =>
      match w.calls[i] {
        case Query(jobType, cutoff, limit) =>
          CleanFollows(Archive(jobType), Cleanable(w.sys.q, cutoff, limit, jobType));
        case Collect(_, _) => DrainFollows(order);
        case Send(_, _) =>
      }
  }

  lemma ExecuteKnown(q: Store, command: Command, x: string)
    ensures Known(Execute(q, command), x) ==> Known(q, x)
  {
    hide ZRem, LRemAll;
  }

  lemma StepSound(w: World, m: Move)
    requires Sound(w) && Allowed(w, m) && Careful(w, m)
    ensures Sound(Moved(w, m))
  {
    hide OneSpot, Careful, Advanced, Execute, Follows, First, Known, Act;
    StepDecides(w, m);
    match m
    case Work(p, a) => WorkIssued(w.sys, p, a);
    case Begin(_) => CallFollows(w, m);
    case Proceed(i, _) =>
      CallFollows(w, m);
      if Pending(w.calls[i]) {
        forall x | Known(Execute(w.sys.q, w.calls[i].todo[0]), x)
          ensures Known(w.sys.q, x)
        {
          ExecuteKnown(w.sys.q, w.calls[i].todo[0], x);
        }
      }
  }

  // ---------------------------------------------------------------- runs

  lemma OpeningSound(w: World)
    requires Opening(w)
    ensures Sound(w)
  {
    hide Safe, Listed, Hands, Known;
    InitSafe(w.sys);
    forall x
      ensures Listed(w.sys.q, x) + Hands(w.sys.procs, x) + Held(w.calls, x) == Count(Known(w.sys.q, x))
      ensures Known(w.sys.q, x) ==> x in w.sys.used
    {
      SafeOnePlace(w.sys, x);
      InitUnknown(w.sys, x);
    }
  }

  lemma InitUnknown(s: System, x: string)
    requires Init(s)
    ensures !Known(s.q, x)
  {
  }

  lemma {:induction false} SoundCourse(w: World, moves: seq<Move>)
    requires Sound(w) && Course(w, moves)
    ensures AlwaysOneSpot(w, moves) <==> AlwaysCareful(w, moves)
    decreases moves
  {
    hide Sound, OneSpot, Careful, Moved;
    SoundOne(w);
    if moves != [] {
      StepDecides(w, moves[0]);
      if Careful(w, moves[0]) {
        StepSound(w, moves[0]);
        SoundCourse(Moved(w, moves[0]), moves[1..]);
      } else {
        NotAlwaysOne(Moved(w, moves[0]), moves[1..]);
      }
    }
  }

  lemma SoundOne(w: World)
    requires Sound(w)
    ensures OneSpot(w)
  {
    hide OneSpot;
  }

  lemma NotAlwaysOne(w: World, moves: seq<Move>)
    requires Course(w, moves) && !OneSpot(w)
    ensures !AlwaysOneSpot(w, moves)
  {
    hide OneSpot;
  }

  /** For every interleaving of all commands, from the empty queue. */
  lemma CourseOneSpot(w: World, moves: seq<Move>)
    requires Opening(w) && Course(w, moves)
    ensures AlwaysOneSpot(w, moves) <==> AlwaysCareful(w, moves)
  {
    hide Sound, AlwaysOneSpot, AlwaysCareful, Course;
    OpeningSound(w);
    SoundCourse(w, moves);
  }

  // ---------------------------------------------------------------- calls that nobody disturbs

  function ExecuteAll(q: Store, todo: seq<Command>): Store
    decreases |todo|
  {
    if todo == [] then q else ExecuteAll(Execute(q, todo[0]), todo[1..])
  }

  lemma {:induction false} ExecuteConcat(q: Store, a: seq<Command>, b: seq<Command>)
    ensures ExecuteAll(q, a + b) == ExecuteAll(ExecuteAll(q, a), b)
    decreases |a|
  {
    if a == [] {
      assert a + b == b;
    } else {
      assert (a + b)[1..] == a[1..] + b;
      ExecuteConcat(Execute(q, a[0]), a[1..], b);
    }
  }

  lemma ExecuteOne(q: Store, command: Command)
    ensures ExecuteAll(q, [command]) == Execute(q, command)
  {
    ExecuteConcat(q, [command], []);
  }

  lemma ExecuteCons(q: Store, command: Command, todo: seq<Command>)
    ensures ExecuteAll(q, [command] + todo) == ExecuteAll(Execute(q, command), todo)
  {
    hide Execute;
    assert ([command] + todo)[1..] == todo;
  }

  lemma ExecuteThree(q: Store, a: Command, b: Command, c: Command)
    ensures ExecuteAll(q, [a, b, c]) == Execute(Execute(Execute(q, a), b), c)
  {
    hide ExecuteAll, Execute;
    assert [a, b, c] == [a] + [b, c] && [b, c] == [b] + [c];
    ExecuteCons(q, a, [b, c]);
    ExecuteCons(Execute(q, a), b, [c]);
    ExecuteOne(Execute(Execute(q, a), b), c);
  }

  lemma ExecuteDeletion(q: Store, id: string)
    ensures ExecuteAll(q, Deletion(id)) == q.(jobs := q.jobs - {id}, locks := q.locks - {id}, logs := q.logs - {id})
  {
    hide ExecuteAll;
    ExecuteThree(q, DeleteJob(id), DeleteLock(id), DeleteLogs(id));
  }

  lemma WithoutLists(q: Store, id: string)
    ensures Without(Without(Without(q, Wait, id), Active, id), Prioritized, id) == q.(
      wait := LRemAll(q.wait, id), active := LRemAll(q.active, id), prioritized := ZRem(q.prioritized, {id}))
  {
    hide LRemAll, ZRem, Members;
  }

  lemma WithoutSets(q: Store, id: string)
    ensures Without(Without(Without(q, Delayed, id), Completed, id), Failed, id) == q.(
      delayed := ZRem(q.delayed, {id}), completed := ZRem(q.completed, {id}), failed := ZRem(q.failed, {id}))
  {
    hide ZRem, Members;
  }

  lemma AllTaken(q: Store, id: string)
    ensures ExecuteAll(q, Takes(id)) == q.(
      wait := LRemAll(q.wait, id), active := LRemAll(q.active, id),
      prioritized := ZRem(q.prioritized, {id}), delayed := ZRem(q.delayed, {id}),
      completed := ZRem(q.completed, {id}), failed := ZRem(q.failed, {id}))
  {
    hide ExecuteAll, Without, LRemAll, ZRem, Members;
    var lists := [Take(Wait, id), Take(Active, id), Take(Prioritized, id)];
    var a := ExecuteAll(q, lists);
    ExecuteConcat(q, lists, [Take(Delayed, id), Take(Completed, id), Take(Failed, id)]);
    ExecuteThree(q, Take(Wait, id), Take(Active, id), Take(Prioritized, id));
    ExecuteThree(a, Take(Delayed, id), Take(Completed, id), Take(Failed, id));
    WithoutLists(q, id);
    WithoutSets(a, id);
  }

  /** The nine commands of RemoveJob in a row. */
  lemma RemoveAlone(q: Store, id: string)
    ensures ExecuteAll(q, RemoveCommands(id)) == Removed(q, id)
  {
    hide ExecuteAll, LRemAll, ZRem, Takes, Deletion, Members;
    AllTaken(q, id);
    ExecuteDeletion(ExecuteAll(q, Takes(id)), id);
    ExecuteConcat(q, Takes(id), Deletion(id));
  }

  /** The pipeline of Clean in a row. */
  lemma {:induction false} CleanAlone(q: Store, ids: seq<string>, jobType: JobType)
    requires !jobType.Other?
    ensures ExecuteAll(q, CleanCommands(Archive(jobType), ids)) == DropAll(q, ids, jobType)
    decreases |ids|
  {
    if ids == [] {
      DropNone(q, jobType);
    } else {
      var c, r := Archive(jobType), DropAll(q, [ids[0]], jobType);
      CleanOne(q, ids[0], jobType);
      hide DropAll, Execute, Deletion;
      ExecuteConcat(q, [Take(c, ids[0])] + Deletion(ids[0]), CleanCommands(c, ids[1..]));
      CleanAlone(r, ids[1..], jobType);
      DropConcat(q, ids, jobType);
    }
  }

  lemma CleanOne(q: Store, id: string, jobType: JobType)
    requires !jobType.Other?
    ensures ExecuteAll(q, [Take(Archive(jobType), id)] + Deletion(id)) == DropAll(q, [id], jobType)
  {
    hide ExecuteAll, Deletion, ZRem, DropAll;
    ExecuteCons(q, Take(Archive(jobType), id), Deletion(id));
    ExecuteDeletion(Execute(q, Take(Archive(jobType), id)), id);
    DropOne(q, id, jobType);
  }

  lemma DropConcat(q: Store, ids: seq<string>, jobType: JobType)
    requires ids != []
    ensures DropAll(DropAll(q, [ids[0]], jobType), ids[1..], jobType) == DropAll(q, ids, jobType)
  {
    hide ZRem, Ids;
    var a, b := Ids([ids[0]]), Ids(ids[1..]);
    assert ids == [ids[0]] + ids[1..];
    IdsConcat([ids[0]], ids[1..]);
    ZRemTwice(q.completed, a, b);
    ZRemTwice(q.failed, a, b);
    MinusTwice(q, a, b);
  }

  lemma {:induction false} ExecuteDeletions(q: Store, ids: seq<string>)
    ensures ExecuteAll(q, Deletions(ids))
      == q.(jobs := q.jobs - Ids(ids), locks := q.locks - Ids(ids), logs := q.logs - Ids(ids))
    decreases |ids|
  {
    if ids == [] {
      IdsNone();
    } else {
      var a, b := Ids([ids[0]]), Ids(ids[1..]);
      var r := ExecuteAll(q, Deletion(ids[0]));
      ExecuteDeletion(q, ids[0]);
      assert ids == [ids[0]] + ids[1..];
      IdsConcat([ids[0]], ids[1..]);
      IdsOne(ids[0]);
      MinusTwice(q, a, b);
      hide ExecuteAll, Deletion, Ids;
      ExecuteConcat(q, Deletion(ids[0]), Deletions(ids[1..]));
      ExecuteDeletions(r, ids[1..]);
    }
  }

  /** The pipeline of Drain in a row. */
  lemma DrainAlone(q: Store, order: seq<string>)
    ensures ExecuteAll(q, DrainCommands(order)) == Store([], [], [], [], [], [],
      q.jobs - Ids(order), q.locks - Ids(order), q.logs - Ids(order), q.paused)
  {
    hide ExecuteAll, Deletions, Ids;
    var first := [Clear(Wait), Clear(Prioritized), Clear(Delayed)];
    var second := [Clear(Active), Clear(Completed), Clear(Failed)];
    var a := ExecuteAll(q, first);
    var b := ExecuteAll(a, second);
    ExecuteThree(q, Clear(Wait), Clear(Prioritized), Clear(Delayed));
    ExecuteThree(a, Clear(Active), Clear(Completed), Clear(Failed));
    ExecuteDeletions(b, order);
    ExecuteConcat(q, first, second);
    ExecuteConcat(q, first + second, Deletions(order));
    assert DrainCommands(order) == first + second + Deletions(order);
  }

  /** A pipeline that nobody disturbs leaves the store that its commands in a row make. */
  lemma {:induction false} Undisturbed(w: World, i: nat) returns (moves: seq<Move>)
    requires i < |w.calls| && w.calls[i].Send?
    ensures Course(w, moves) && |moves| == |w.calls[i].todo|
    ensures forall k :: 0 <= k < |moves| ==> moves[k] == Proceed(i, [])
    ensures var t := End(w, moves);
      && t.sys == w.sys.(q := ExecuteAll(w.sys.q, w.calls[i].todo))
      && |t.calls| == |w.calls| && t.calls[i].Send? && t.calls[i].todo == []
      && forall k :: 0 <= k < |w.calls| && k != i ==> t.calls[k] == w.calls[k]
    decreases |w.calls[i].todo|
  {
    hide Execute, Hold;
    if w.calls[i].todo == [] {
      moves := [];
    } else {
      var rest := Undisturbed(Moved(w, Proceed(i, [])), i);
      moves := [Proceed(i, [])] + rest;
      assert moves[1..] == rest;
    }
  }

  /** A RemoveJob that nobody disturbs keeps one place exactly if its job is in nobody's hands. */
  lemma RemoveAtOnce(w: World, id: string)
    requires OneSpot(w)
    ensures OneSpot(w.(sys := w.sys.(q := Removed(w.sys.q, id))))
      <==> Hands(w.sys.procs, id) + Held(w.calls, id) == 0
  {
    hide OneSpot, Listed, Hands, Held, Removed;
    var w' := w.(sys := w.sys.(q := Removed(w.sys.q, id)));
    forall x
      ensures Listed(w'.sys.q, x) == if x == id then 0 else Listed(w.sys.q, x)
      ensures Known(w'.sys.q, x) == (Known(w.sys.q, x) && x != id)
    {
      RemovedListed(w.sys.q, id, x);
      RemovedKnown(w.sys.q, id, x);
    }
    if OneSpot(w') {
      AtOne(w', id);
    } else if Hands(w.sys.procs, id) + Held(w.calls, id) == 0 {
      forall x
        ensures Listed(w'.sys.q, x) + Hands(w'.sys.procs, x) + Held(w'.calls, x) == Count(Known(w'.sys.q, x))
      {
        AtOne(w, x);
      }
      IsOneSpot(w');
    }
  }

  lemma RemovedKnown(q: Store, id: string, x: string)
    ensures Known(Removed(q, id), x) == (Known(q, x) && x != id)
  {
  }

  lemma {:induction false} CourseConcat(w: World, a: seq<Move>, b: seq<Move>)
    requires Course(w, a) && Course(End(w, a), b)
    ensures Course(w, a + b) && End(w, a + b) == End(End(w, a), b)
    decreases a
  {
    hide Moved;
    if a == [] {
      assert a + b == b;
    } else {
      assert (a + b)[1..] == a[1..] + b;
      CourseConcat(Moved(w, a[0]), a[1..], b);
    }
  }

  lemma OneMove(w: World, m: Move)
    requires Allowed(w, m)
    ensures Course(w, [m]) && End(w, [m]) == Moved(w, m)
  {
    hide Moved;
    NoMoves(Moved(w, m));
    assert [m][1..] == [];
  }

  lemma NoMoves(w: World)
    ensures Course(w, []) && End(w, []) == w
  {
  }

  lemma NextMove(w: World, moves: seq<Move>, m: Move) returns (more: seq<Move>)
    requires Course(w, moves) && Allowed(End(w, moves), m)
    ensures more == moves + [m] && Course(w, more) && End(w, more) == Moved(End(w, moves), m)
  {
    hide Course, End, Moved, Allowed;
    more := moves + [m];
    OneMove(End(w, moves), m);
    CourseConcat(w, moves, [m]);
  }

  /** The ids that Drain reads from the containers. */
  function Read(q: Store, rest: seq<Container>): set<string>
  {
    if rest == [] then {} else Ids(Content(q, rest[0])) + Read(q, rest[1..])
  }

  lemma {:induction false} ReadAll(w: World, i: nat) returns (moves: seq<Move>)
    requires i < |w.calls| && w.calls[i].Collect?
    ensures Course(w, moves)
    ensures forall k :: 0 <= k < |moves| ==> moves[k] == Proceed(i, [])
    ensures End(w, moves)
      == w.(calls := w.calls[i := Collect([], w.calls[i].ids + Read(w.sys.q, w.calls[i].rest))])
    decreases |w.calls[i].rest|
  {
    hide Ids, Content;
    if w.calls[i].rest == [] {
      moves := [];
      assert w.calls[i].ids + {} == w.calls[i].ids && w.calls[i := w.calls[i]] == w.calls;
    } else {
      var ids, more := w.calls[i].ids, w.calls[i].rest;
      var t := Moved(w, Proceed(i, []));
      var rest := ReadAll(t, i);
      moves := [Proceed(i, [])] + rest;
      assert moves[1..] == rest;
      assert ids + Read(w.sys.q, more) == ids + Ids(Content(w.sys.q, more[0])) + Read(w.sys.q, more[1..]);
      var all := Collect([], ids + Read(w.sys.q, more));
      assert t.calls[i := all] == w.calls[i := all];
    }
  }

  lemma ReadCons(q: Store, c: Container, rest: seq<Container>)
    ensures Read(q, [c] + rest) == Ids(Content(q, c)) + Read(q, rest)
  {
    hide Ids, Content;
    assert ([c] + rest)[1..] == rest;
  }

  lemma ReadThree(q: Store, a: Container, b: Container, c: Container, rest: seq<Container>)
    ensures Read(q, [a, b, c] + rest) == Ids(Content(q, a)) + Ids(Content(q, b)) + Ids(Content(q, c)) + Read(q, rest)
  {
    hide Ids, Content, Read;
    assert [a, b, c] + rest == [a] + ([b] + ([c] + rest));
    ReadCons(q, a, [b] + ([c] + rest));
    ReadCons(q, b, [c] + rest);
    ReadCons(q, c, rest);
  }

  lemma ReadsEverything(q: Store)
    ensures Read(q, [Wait, Prioritized, Delayed, Active, Completed, Failed]) == IdSet(q)
  {
    hide Ids, IdSet, Read;
    assert [Wait, Prioritized, Delayed, Active, Completed, Failed]
      == [Wait, Prioritized, Delayed] + ([Active, Completed, Failed] + []);
    ReadThree(q, Wait, Prioritized, Delayed, [Active, Completed, Failed] + []);
    ReadThree(q, Active, Completed, Failed, []);
    ReadNothing(q);
    IdSetParts(q);
  }

  lemma ReadNothing(q: Store)
    ensures Read(q, []) == {}
  {
  }

  lemma {:induction false} Enumeration(list: seq<string>) returns (order: seq<string>)
    ensures Ids(order) == Ids(list) && |order| == |Ids(list)|
  {
    if list == [] {
      order := [];
    } else {
      order := Enumeration(list[1..]);
      assert list == [list[0]] + list[1..];
      IdsConcat([list[0]], list[1..]);
      IdsOne(list[0]);
      if list[0] !in Ids(list[1..]) {
        IdsConcat([list[0]], order);
        order := [list[0]] + order;
      }
    }
  }

  /** What the call does to the store when nobody disturbs it. */
  function Effect(q: Store, request: Request): Store
  {
    match request
    case Remove(id) => Removed(q, id)
    case Clean(jobType, cutoff, limit) => Cleaned(q, cutoff, limit, jobType)
    case Drain => Drained(q)
  }

  lemma Began(w: World, request: Request) returns (moves: seq<Move>)
    ensures Course(w, moves) && moves == [Begin(request)]
    ensures End(w, moves) == w.(calls := w.calls + [First(request)])
  {
    hide Course, End;
    moves := [Begin(request)];
    OneMove(w, Begin(request));
  }

  /** Until its pipeline a call only reads; the pipeline then has the effect of the operation. */
  lemma Prepared(w: World, request: Request) returns (moves: seq<Move>)
    ensures Course(w, moves) && End(w, moves).sys == w.sys
    ensures var t := End(w, moves);
      && |t.calls| == |w.calls| + 1 && t.calls[..|w.calls|] == w.calls && t.calls[|w.calls|].Send?
      && ExecuteAll(w.sys.q, t.calls[|w.calls|].todo) == Effect(w.sys.q, request)
  {
    hide Course, End, ExecuteAll, RemoveCommands, CleanCommands, DrainCommands, Removed, DropAll, Cleanable, IdSet, Ids;
    var n := |w.calls|;
    moves := Began(w, request);
    match request {
      case Remove(id) => RemoveAlone(w.sys.q, id);
      case Clean(jobType, cutoff, limit) =>
        var ids := Cleanable(w.sys.q, cutoff, limit, jobType);
        if jobType.Other? {
          NothingOfType(w.sys.q, cutoff, limit);
          DropNone(w.sys.q, jobType);
          ExecuteNothing(w.sys.q);
        } else {
          moves := NextMove(w, moves, Proceed(n, []));
          CleanAlone(w.sys.q, ids, jobType);
        }
      case Drain =>
        var queries := ReadAll(End(w, moves), n);
        CourseConcat(w, moves, queries);
        moves := moves + queries;
        ReadsEverything(w.sys.q);
        var order := Enumeration(AllIds(w.sys.q));
        IdSetIs(w.sys.q);
        moves := NextMove(w, moves, Proceed(n, order));
        DrainAlone(w.sys.q, order);
    }
  }

  lemma IdSetIs(q: Store)
    ensures IdSet(q) == Ids(AllIds(q))
  {
  }

  lemma ExecuteNothing(q: Store)
    ensures ExecuteAll(q, []) == q
  {
  }

  /** The commands of a call that nobody disturbs leave the store that the operation promises. */
  lemma CallAlone(w: World, request: Request) returns (moves: seq<Move>)
    ensures Course(w, moves)
    ensures End(w, moves).sys == w.sys.(q := Effect(w.sys.q, request))
  {
    hide Course, End, ExecuteAll, Effect;
    moves := Prepared(w, request);
    var rest := Undisturbed(End(w, moves), |w.calls|);
    CourseConcat(w, moves, rest);
    moves := moves + rest;
  }

  // ---------------------------------------------------------------- what the calls break

  lemma {:induction false} Lifted(w: World, steps: seq<Step>) returns (moves: seq<Move>)
    requires Run(w.sys, steps)
    ensures Course(w, moves) && End(w, moves) == w.(sys := After(w.sys, steps))
    decreases steps
  {
    hide Act;
    if steps == [] {
      moves := [];
    } else {
      var m := Work(steps[0].p, steps[0].a);
      var rest := Lifted(Moved(w, m), steps[1..]);
      moves := [m] + rest;
      assert moves[1..] == rest;
    }
  }

  /** A worker has picked up a job, processed it, and taken it out of the active list. */
  lemma CompletingRun(s: System, id: string) returns (steps: seq<Step>)
    requires Init(s) && |s.procs| >= 2 && !s.q.paused
    ensures Run(s, steps) && |After(s, steps).procs| == |s.procs|
    ensures After(s, steps).procs[0] == StoreResult(id, Job(0, 0, 0, 1, 0, false, false), false)
  {
    hide Run, After, LRemFirst;
    steps := PickupRun(s, id);
    steps := PushStep(s, steps, 0, Finish(Success(false)));
    steps := PushStep(s, steps, 0, Next(0));
  }

  lemma CompletingMove(w: World)
    requires w.sys.procs != [] && w.sys.procs[0].StoreResult? && !w.sys.procs[0].result
    ensures Moved(w, Work(0, Next(0)))
      == w.(sys := w.sys.(procs := w.sys.procs[0 := Complete(w.sys.procs[0].id, w.sys.procs[0].job)]))
  {
  }

  lemma CompletedNow(q: Store, id: string, job: Job)
    requires !job.removeOnComplete
    ensures ZHas(Do(q, Complete(id, job), 0).completed, id) && Do(q, Complete(id, job), 0).jobs == q.jobs
  {
    ZAddMember(q.completed, 0, id);
  }

  lemma CompletedMove(w: World)
    requires w.sys.procs != [] && w.sys.procs[0].Complete? && !w.sys.procs[0].job.removeOnComplete
    ensures ZHas(Moved(w, Work(0, Next(0))).sys.q.completed, w.sys.procs[0].id)
    ensures Moved(w, Work(0, Next(0))).sys.q.jobs == w.sys.q.jobs
  {
    hide Do, Then, ZHas;
    CompletedNow(w.sys.q, w.sys.procs[0].id, w.sys.procs[0].job);
  }

  lemma Removal(w: World, id: string) returns (moves: seq<Move>)
    ensures Course(w, moves)
    ensures End(w, moves).sys.procs == w.sys.procs && id !in End(w, moves).sys.q.jobs
  {
    hide Course, End, ZRem, LRemAll;
    moves := CallAlone(w, Remove(id));
  }

  /** A RemoveJob between the LREM and the ZADD of a worker that completes the job: the id of a deleted job ends in the
      completed set. */
  lemma RemoveWhileCompleting(w: World, id: string) returns (moves: seq<Move>)
    requires Opening(w) && |w.sys.procs| >= 2 && !w.sys.q.paused
    ensures Course(w, moves)
    ensures ZHas(End(w, moves).sys.q.completed, id) && id !in End(w, moves).sys.q.jobs
  {
    hide Course, End, Run, After, ZHas, Moved, Init;
    var steps := CompletingRun(w.sys, id);
    moves := Lifted(w, steps);
    var removal := Removal(End(w, moves), id);
    CourseConcat(w, moves, removal);
    moves := moves + removal;
    CompletingMove(End(w, moves));
    moves := NextMove(w, moves, Work(0, Next(0)));
    CompletedMove(End(w, moves));
    moves := NextMove(w, moves, Work(0, Next(0)));
  }

  /** A job added between the reads of a Drain and its pipeline: its hash stays, and it is in no container. */
  lemma AddWhileDraining(w: World, id: string) returns (moves: seq<Move>)
    requires Opening(w) && |w.sys.procs| >= 1
    ensures Course(w, moves)
    ensures var t := End(w, moves);
      && t.sys.q == w.sys.q.(jobs := map[id := Full(Job(0, 0, 0, 1, 0, false, false))])
      && t.sys.procs == w.sys.procs
      && forall i :: 0 <= i < |t.calls| ==> t.calls[i].Send? && t.calls[i].todo == []
  {
    hide Course, End, ExecuteAll, Read, Ids, DrainCommands;
    moves := Began(w, Drain);
    var queries := ReadAll(End(w, moves), 0);
    CourseConcat(w, moves, queries);
    moves := moves + queries;
    ReadsEverything(w.sys.q);
    NoIds(w.sys.q);
    moves := NextMove(w, moves, Proceed(0, []));
    moves := NextMove(w, moves, Work(0, Submit(id, PLAIN, 0)));
    moves := NextMove(w, moves, Work(0, Next(0)));
    assert End(w, moves).sys.procs == w.sys.procs;
    var rest := Undisturbed(End(w, moves), 0);
    DrainAlone(End(w, moves).sys.q, []);
    CourseConcat(w, moves, rest);
    moves := moves + rest;
  }

  lemma NoIds(q: Store)
    requires q == Store([], [], [], [], [], [], map[], {}, {}, q.paused)
    ensures IdSet(q) == {} && Ids([]) == {}
  {
    EmptyIds(q);
    IdsNone();
  }
}
