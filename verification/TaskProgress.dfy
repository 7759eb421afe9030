/** No wake-up is lost, the pool never gets stuck with work to do, and stopping leaves no work behind. */
module TaskProgress {
  import opened Options
  import opened TaskQueues
  import opened TaskOrder

  ghost function AwakeOrNotifying(th: Thread): nat {
    (if th.place == Awake then 1 else 0) + if th.notify then 1 else 0
  }

  ghost function Stirring(): Thread -> int {
    th => AwakeOrNotifying(th)
  }

  /** Workers about to look for a job, and notifications still owed. */
  ghost function Stir(s: State): int {
    Sum(Stirring(), s.threads, |s.threads|)
  }

  ghost predicate SomeoneSleeps(threads: seq<Thread>) {
    exists i :: 0 <= i < |threads| && threads[i].place == Sleeping
  }

  ghost predicate Present(th: Thread) {
    IsWorker(th) && th.place != Exited
  }

  /** Some worker has not left for good. */
  ghost predicate SomeoneLeft(threads: seq<Thread>) {
    exists i :: 0 <= i < |threads| && Present(threads[i])
  }

  /** Handed over by an outside thread after the stop: the only jobs the pool may leave behind. */
  predicate Late(job: Job) {
    job.afterStop && !job.byWorker
  }

  /** As long as a worker sleeps, every queued job has a worker awake or a notification on its way. */
  ghost predicate WakeInv(s: State) {
    && (SomeoneSleeps(s.threads) ==> |s.pool.jobs| <= Stir(s))
    && (s.notifiedAll ==> s.pool.stop && !SomeoneSleeps(s.threads))
  }

  /** Workers leave only after the stop, and not before the jobs that were there or that workers added. */
  ghost predicate StopInv(s: State) {
    && (forall i :: 0 <= i < |s.threads| && s.threads[i].place == Exited ==> s.pool.stop)
    && (forall k :: 0 <= k < |s.pool.jobs| && !Late(s.pool.jobs[k]) ==> SomeoneLeft(s.threads))
    && (!s.pool.stop ==> SomeoneLeft(s.threads))
  }

  /** A step of one thread. */
  lemma OneThread(s: State, s': State, i: nat)
    requires WakeInv(s) && i < |s.threads| && |s'.threads| == |s.threads| && s'.threads == s.threads[i := s'.threads[i]]
    requires s'.notifiedAll == s.notifiedAll && s'.pool.stop == s.pool.stop
    requires s'.threads[i].place == Sleeping ==> s.threads[i].place == Sleeping || (|s'.pool.jobs| == 0 && !s.pool.stop)
    requires |s'.pool.jobs| - |s.pool.jobs| <= AwakeOrNotifying(s'.threads[i]) - AwakeOrNotifying(s.threads[i])
               || |s'.pool.jobs| == 0
    ensures WakeInv(s')
  {
    SumUpdate(Stirring(), s.threads, i, s'.threads[i], |s.threads|);
    StirNatural(s');
    if SomeoneSleeps(s'.threads) {
      var j :| 0 <= j < |s'.threads| && s'.threads[j].place == Sleeping;
      assert j != i ==> s.threads[j].place == Sleeping;
    }
  }

  lemma StirNatural(s: State)
    ensures Stir(s) >= 0
  {
    SumGrows(Stirring(), s.threads, 0, |s.threads|);
  }

  lemma NotifyOneWakes(s: State, i: nat, j: nat)
    requires WakeInv(s) && OrderInv(s) && Enabled(s, NotifyOne(i, j))
    ensures WakeInv(Next(s, NotifyOne(i, j)))
  {
    hide RoomInv;
    assert ThreadInv(s, s.threads[i]) && ThreadInv(s, s.threads[j]) && s.threads[j].place == Sleeping;
    var x := s.threads[i].(notify := false);
    var mid, s' := With(s, i, x), Next(s, NotifyOne(i, j));
    SumUpdate(Stirring(), s.threads, i, x, |s.threads|);
    SumUpdate(Stirring(), mid.threads, j, s'.threads[j], |s.threads|);
    if SomeoneSleeps(s'.threads) {
      var l :| 0 <= l < |s'.threads| && s'.threads[l].place == Sleeping;
      assert s.threads[l].place == Sleeping;
    }
  }

  lemma StepWakes(s: State, e: Step)
    requires WakeInv(s) && OrderInv(s) && Enabled(s, e)
    ensures WakeInv(Next(s, e))
  {
    hide RoomInv, WakeInv, Stir;
    match e
    case Post(i, _, _) => OneThread(s, Next(s, e), i);
    case HandOver(i) => assert ThreadInv(s, s.threads[i]); OneThread(s, Next(s, e), i);
    case NotifyOne(i, j) => NotifyOneWakes(s, i, j);
    case NotifyNobody(i) => NobodyToWake(s, i);
    case WorkerTurn(i) => OneThread(s, Next(s, e), i);
    case WakeUp(i) => OneThread(s, Next(s, e), i);
    case DrainTurn(i) => OneThread(s, Next(s, e), i);
    case TaskEnds(i) => OneThread(s, Next(s, e), i);
    case Stop => SameThreads(s, Next(s, e));
    case NotifyAll => EverybodyWakes(s);
  }

  lemma NobodyToWake(s: State, i: nat)
    requires WakeInv(s) && Enabled(s, NotifyNobody(i))
    ensures WakeInv(Next(s, NotifyNobody(i)))
  {
    hide Stir;
    var s' := Next(s, NotifyNobody(i));
    forall j | 0 <= j < |s'.threads|
      ensures s'.threads[j].place == s.threads[j].place
    {
    }
  }

  lemma SameThreads(s: State, s': State)
    requires WakeInv(s) && s'.threads == s.threads && s'.pool.jobs == s.pool.jobs && s'.notifiedAll == s.notifiedAll
    requires s.pool.stop ==> s'.pool.stop
    ensures WakeInv(s')
  {
  }

  lemma EverybodyWakes(s: State)
    requires WakeInv(s) && Enabled(s, NotifyAll)
    ensures WakeInv(Next(s, NotifyAll))
  {
    hide Woken, Stir;
    var s' := Next(s, NotifyAll);
    forall j | 0 <= j < |s'.threads|
      ensures s'.threads[j].place != Sleeping
    {
    }
  }

  // ----- leaving -----

  lemma StaysPresent(s: State, e: Step, i: nat)
    requires Enabled(s, e) && i < |s.threads| && Present(s.threads[i])
    ensures |Next(s, e).threads| == |s.threads|
    ensures !(e == WorkerTurn(i) && s.pool.stop && s.pool.jobs == []) ==> Present(Next(s, e).threads[i])
  {
    hide Woken;
  }

  lemma StepStops(s: State, e: Step)
    requires StopInv(s) && OrderInv(s) && Enabled(s, e)
    ensures StopInv(Next(s, e))
  {
    hide Woken, RoomInv;
    var s' := Next(s, e);
    if i :| 0 <= i < |s.threads| && Present(s.threads[i]) {
      StaysPresent(s, e, i);
    }
    if e.HandOver? {
      assert ThreadInv(s, s.threads[e.thread]);
      if IsWorker(s.threads[e.thread]) {
        StaysPresent(s, e, e.thread);
      }
    }
    forall i | 0 <= i < |s'.threads| && s'.threads[i].place == Exited
      ensures s'.pool.stop
    {
      assert s.threads[i].place == Exited || e == WorkerTurn(i);
    }
  }

  lemma InitialProgress(s: State)
    requires Initial(s)
    ensures WakeInv(s) && StopInv(s)
  {
    var i :| 0 <= i < |s.threads| && s.threads[i].place == Awake;
    assert Present(s.threads[i]);
  }

  lemma {:induction false} EveryRunProgress(s: State, steps: seq<Step>, t: State)
    requires Initial(s) && Runs(s, steps, t)
    ensures OrderInv(t) && WakeInv(t) && StopInv(t)
  {
    hide OrderInv, WakeInv, StopInv, Next, Enabled;
    EveryRunOrder(s, steps, t);
    if steps == [] {
      InitialProgress(s);
    } else {
      var k := |steps| - 1;
      var mid :| Runs(s, steps[..k], mid) && Takes(mid, steps[k], t);
      EveryRunProgress(s, steps[..k], mid);
      StepWakes(mid, steps[k]);
      StepStops(mid, steps[k]);
    }
  }

  // ----- the theorems -----

  /** No lost wake-up: while a job is queued and no notification is owed, some worker is awake, or none
      sleeps. */
  lemma NoLostWakeUp(s: State, steps: seq<Step>, t: State)
    requires Initial(s) && Runs(s, steps, t) && t.pool.jobs != []
    requires forall i :: 0 <= i < |t.threads| ==> !t.threads[i].notify
    ensures (exists i :: 0 <= i < |t.threads| && t.threads[i].place == Awake) || !SomeoneSleeps(t.threads)
  {
    hide OrderInv, StopInv;
    EveryRunProgress(s, steps, t);
    if SomeoneSleeps(t.threads) {
      var i := SumPositive(Stirring(), t.threads, |t.threads|);
      assert t.threads[i].place == Awake;
    }
  }

  /** A step other than a post or a spurious wake-up. */
  predicate Works(e: Step) {
    !e.Post? && !e.WakeUp? && !e.Stop?
  }

  ghost predicate CanWork(s: State) {
    exists e :: Works(e) && Enabled(s, e)
  }

  lemma BusyCanWork(s: State, i: nat)
    requires OrderInv(s) && i < |s.threads| && s.threads[i].place != Sleeping && s.threads[i].place != Exited
    requires s.threads[i].place != Outside || s.threads[i].owes.Some? || s.threads[i].notify
    ensures CanWork(s)
  {
    hide RoomInv;
    var th := s.threads[i];
    assert ThreadInv(s, th);
    if th.owes.Some? {
      assert Works(HandOver(i)) && Enabled(s, HandOver(i));
    } else if th.notify {
      if j :| 0 <= j < |s.threads| && s.threads[j].place == Sleeping {
        assert Works(NotifyOne(i, j)) && Enabled(s, NotifyOne(i, j));
      } else {
        assert Works(NotifyNobody(i)) && Enabled(s, NotifyNobody(i));
      }
    } else if th.place == Awake {
      assert Works(WorkerTurn(i)) && Enabled(s, WorkerTurn(i));
    } else if th.place.Draining? {
      assert Works(DrainTurn(i)) && Enabled(s, DrainTurn(i));
    } else {
      assert Works(TaskEnds(i)) && Enabled(s, TaskEnds(i));
    }
  }

  /** The pool is never stuck with work to do: before the stop, waiting tasks or queued jobs leave some
      thread a step to take. */
  lemma WorkGoesOn(s: State, steps: seq<Step>, t: State, r: nat)
    requires Initial(s) && Runs(s, steps, t) && !t.pool.stop && r < |t.rooms|
    requires t.rooms[r].queue.tasks != [] || t.pool.jobs != []
    ensures CanWork(t)
  {
    hide CanWork, Works, Enabled, Sum, JobsFor;
    EveryRunProgress(s, steps, t);
    if t.pool.jobs == [] {
      TokenHolder(t, r);
    } else if SomeoneSleeps(t.threads) {
      var i := SumPositive(Stirring(), t.threads, |t.threads|);
      assert ThreadInv(t, t.threads[i]);
      BusyCanWork(t, i);
    } else {
      var i :| 0 <= i < |t.threads| && Present(t.threads[i]);
      BusyCanWork(t, i);
    }
  }

  /** Waiting tasks with no job queued: some thread has the drain in hand. */
  lemma TokenHolder(t: State, r: nat)
    requires OrderInv(t) && r < |t.rooms| && t.rooms[r].queue.tasks != [] && t.pool.jobs == []
    ensures CanWork(t)
  {
    hide CanWork, Works, Enabled;
    assert RoomInv(t, r);
    var i := SumPositive(Holding(r), t.threads, |t.threads|);
    assert ThreadInv(t, t.threads[i]);
    BusyCanWork(t, i);
  }

  /** Once every worker has left, only drains that outside threads handed over after the stop are undone;
      every room without such a drain, or one still in an outside poster's hand, has been run to the end. */
  lemma NothingLeftBehind(s: State, steps: seq<Step>, t: State)
    requires Initial(s) && Runs(s, steps, t) && !SomeoneLeft(t.threads)
    ensures forall k :: 0 <= k < |t.pool.jobs| ==> Late(t.pool.jobs[k])
    ensures forall r :: 0 <= r < |t.rooms| && JobsFor(t.pool.jobs, r) == 0
                        && (forall i :: 0 <= i < |t.threads| ==> t.threads[i].owes != Some(r)) ==>
                        t.rooms[r].queue.tasks == [] && t.rooms[r].started == t.rooms[r].posted
  {
    hide WakeInv, JobsFor, Sum;
    EveryRunProgress(s, steps, t);
    forall r | 0 <= r < |t.rooms| && JobsFor(t.pool.jobs, r) == 0
        && (forall i :: 0 <= i < |t.threads| ==> t.threads[i].owes != Some(r))
      ensures t.rooms[r].queue.tasks == [] && t.rooms[r].started == t.rooms[r].posted
    {
      assert RoomInv(t, r);
      forall i | 0 <= i < |t.threads|
        ensures InHand(t.threads[i], r) == 0
      {
        assert !Present(t.threads[i]);
      }
      SumZero(Holding(r), t.threads, |t.threads|);
    }
  }

  /** After the workers have been told to stop, none waits any more: each either works on or leaves. */
  lemma NobodyWaitsAfterStop(s: State, steps: seq<Step>, t: State)
    requires Initial(s) && Runs(s, steps, t) && t.notifiedAll
    ensures !SomeoneSleeps(t.threads)
    ensures SomeoneLeft(t.threads) ==> CanWork(t)
  {
    hide CanWork, Works, Enabled, StopInv;
    EveryRunProgress(s, steps, t);
    if i :| 0 <= i < |t.threads| && Present(t.threads[i]) {
      BusyCanWork(t, i);
    }
  }

  // ----- how long it can take -----

  ghost function Weight(th: Thread): nat {
    (if th.owes.Some? then 5 else 0) + (if th.notify then 2 else 0) +
    match th.place
    case Awake => 1
    case Draining(_) => 2
    case Running(_, _) => 3
    case _ => 0
  }

  ghost function Weighing(): Thread -> int {
    th => Weight(th)
  }

  ghost function Waiting(rooms: seq<Room>, k: nat): nat
    requires k <= |rooms|
  {
    if k == 0 then 0 else Waiting(rooms, k - 1) + |rooms[k - 1].queue.tasks|
  }

  lemma {:induction false} WaitingUpdate(rooms: seq<Room>, r: nat, x: Room, k: nat)
    requires r < |rooms| && k <= |rooms|
    ensures Waiting(rooms[r := x], k) == Waiting(rooms, k) + if r < k then |x.queue.tasks| - |rooms[r].queue.tasks|
              else 0
  {
    if k > 0 {
      WaitingUpdate(rooms, r, x, k - 1);
    }
  }

  /** What is left to do: waiting tasks and queued jobs count twice, the stop's last call once per thread. */
  ghost function Energy(s: State): int {
    Sum(Weighing(), s.threads, |s.threads|) + 2 * Waiting(s.rooms, |s.rooms|) + 2 * |s.pool.jobs| +
    if s.notifiedAll then 0 else |s.threads| + 1
  }

  lemma {:induction false} WokenWeight(threads: seq<Thread>, k: nat, n: nat)
    requires k <= |threads| && n <= |threads|
    ensures Sum(Weighing(), Woken(threads, k), n) <= Sum(Weighing(), threads, n) + n
  {
    hide Woken;
    if n > 0 {
      WokenWeight(threads, k, n - 1);
    }
  }

  lemma ThreadEnergy(s: State, s': State, i: nat)
    requires i < |s.threads| && |s'.threads| == |s.threads| && s'.threads == s.threads[i := s'.threads[i]]
    requires s'.rooms == s.rooms && s'.notifiedAll == s.notifiedAll
    ensures Energy(s') - Energy(s) == Weight(s'.threads[i]) - Weight(s.threads[i])
              + 2 * (|s'.pool.jobs| - |s.pool.jobs|)
  {
    hide Weight;
    SumUpdate(Weighing(), s.threads, i, s'.threads[i], |s.threads|);
  }

  lemma RoomEnergy(s: State, s': State, i: nat, r: nat)
    requires i < |s.threads| && |s'.threads| == |s.threads| && s'.threads == s.threads[i := s'.threads[i]]
    requires s'.notifiedAll == s.notifiedAll
    requires r < |s.rooms| && |s'.rooms| == |s.rooms| && s'.rooms == s.rooms[r := s'.rooms[r]] && s'.pool == s.pool
    ensures Energy(s') - Energy(s) ==
            Weight(s'.threads[i]) - Weight(s.threads[i]) + 2 * (|s'.rooms[r].queue.tasks| - |s.rooms[r].queue.tasks|)
  {
    hide Weight;
    SumUpdate(Weighing(), s.threads, i, s'.threads[i], |s.threads|);
    WaitingUpdate(s.rooms, r, s'.rooms[r], |s.rooms|);
  }

  /** Steps that do work use energy up; a post adds at most 7, a spurious wake-up 1. */
  lemma StepEnergy(s: State, e: Step)
    requires Enabled(s, e) && OrderInv(s)
    ensures Energy(Next(s, e)) <= Energy(s) + if Works(e) then -1 else if e.Post? then 7 else 1
  {
    hide Energy, OrderInv, Next;
    match e
    case Post(i, r, t) => PostEnergy(s, i, r, t);
    case HandOver(i) => ThreadStepEnergy(s, e, i);
    case NotifyOne(i, j) => NotifyEnergy(s, i, j);
    case NotifyNobody(i) => ThreadStepEnergy(s, e, i);
    case WorkerTurn(i) => ThreadStepEnergy(s, e, i);
    case WakeUp(i) => ThreadStepEnergy(s, e, i);
    case DrainTurn(i) => DrainEnergy(s, i);
    case TaskEnds(i) => ThreadStepEnergy(s, e, i);
    case Stop => StopEnergy(s);
    case NotifyAll => CallEnergy(s);
  }

  lemma ThreadStepEnergy(s: State, e: Step, i: nat)
    requires Enabled(s, e)
    requires (e == HandOver(i) || e == NotifyNobody(i) || e == WorkerTurn(i) || e == WakeUp(i) || e == TaskEnds(i))
    ensures Energy(Next(s, e)) <= Energy(s) + if e.WakeUp? then 1 else -1
  {
    hide Energy;
    ThreadEnergy(s, Next(s, e), i);
  }

  lemma PostEnergy(s: State, i: nat, r: nat, t: Task)
    requires Enabled(s, Post(i, r, t))
    ensures Energy(Next(s, Post(i, r, t))) <= Energy(s) + 7
  {
    hide Energy;
    RoomEnergy(s, Next(s, Post(i, r, t)), i, r);
  }

  lemma DrainEnergy(s: State, i: nat)
    requires Enabled(s, DrainTurn(i))
    ensures Energy(Next(s, DrainTurn(i))) == Energy(s) - 1
  {
    hide Energy;
    RoomEnergy(s, Next(s, DrainTurn(i)), i, s.threads[i].place.queue);
  }

  lemma NotifyEnergy(s: State, i: nat, j: nat)
    requires Enabled(s, NotifyOne(i, j)) && OrderInv(s)
    ensures Energy(Next(s, NotifyOne(i, j))) == Energy(s) - 1
  {
    hide Energy, RoomInv;
    assert ThreadInv(s, s.threads[i]) && ThreadInv(s, s.threads[j]);
    var mid := With(s, i, s.threads[i].(notify := false));
    ThreadEnergy(s, mid, i);
    ThreadEnergy(mid, Next(s, NotifyOne(i, j)), j);
  }

  lemma StopEnergy(s: State)
    requires Enabled(s, Stop)
    ensures Energy(Next(s, Stop)) == Energy(s)
  {
  }

  lemma CallEnergy(s: State)
    requires Enabled(s, NotifyAll)
    ensures Energy(Next(s, NotifyAll)) < Energy(s)
  {
    WokenWeight(s.threads, |s.threads|, |s.threads|);
  }

  ghost function Work(steps: seq<Step>): nat {
    if steps == [] then 0 else Work(steps[..|steps| - 1]) + if Works(steps[|steps| - 1]) then 1 else 0
  }

  ghost function Supply(steps: seq<Step>): nat {
    if steps == [] then 0
    else Supply(steps[..|steps| - 1]) + if Works(steps[|steps| - 1]) then 0 else if steps[|steps| - 1].Post? then 7
        else 1
  }

  lemma EnergyNatural(s: State)
    ensures Energy(s) >= 0
  {
    SumGrows(Weighing(), s.threads, 0, |s.threads|);
  }

  /** Only finitely much work follows from what was posted: each post is answered by at most seven steps. */
  lemma {:induction false} WorkIsBounded(s: State, steps: seq<Step>, t: State)
    requires Initial(s) && Runs(s, steps, t)
    ensures Work(steps) + Energy(t) <= Energy(s) + Supply(steps) && Energy(t) >= 0
  {
    hide Energy, Works, Enabled, Next, OrderInv;
    EnergyNatural(t);
    if steps != [] {
      var k := |steps| - 1;
      var mid :| Runs(s, steps[..k], mid) && Takes(mid, steps[k], t);
      WorkIsBounded(s, steps[..k], mid);
      EveryRunOrder(s, steps[..k], mid);
      StepEnergy(mid, steps[k]);
    }
  }

  /** So the pool comes to rest, and at rest everything posted has been started. */
  lemma AtRestAllIsDone(s: State, steps: seq<Step>, t: State, r: nat)
    requires Initial(s) && Runs(s, steps, t) && !t.pool.stop && !CanWork(t) && r < |t.rooms|
    ensures t.rooms[r].queue.tasks == [] && t.rooms[r].started == t.rooms[r].posted && t.pool.jobs == []
  {
    hide CanWork;
    if t.rooms[r].queue.tasks != [] || t.pool.jobs != [] {
      WorkGoesOn(s, steps, t, r);
    }
    EveryRunOrder(s, steps, t);
    assert RoomInv(t, r);
  }
}
