/** Tasks of one room run one at a time and in the order they were posted, whatever the interleaving. */
module TaskOrder {
  import opened Options
  import opened TaskQueues

  // ----- counting -----

  /** Sum of a weight over the first `k` threads. */
  ghost function Sum(f: Thread -> int, threads: seq<Thread>, k: nat): int
    requires k <= |threads|
  {
    if k == 0 then 0 else Sum(f, threads, k - 1) + f(threads[k - 1])
  }

  lemma {:induction false} SumUpdate(f: Thread -> int, threads: seq<Thread>, i: nat, x: Thread, k: nat)
    requires i < |threads| && k <= |threads|
    ensures Sum(f, threads[i := x], k) == Sum(f, threads, k) + if i < k then f(x) - f(threads[i]) else 0
  {
    if k > 0 {
      SumUpdate(f, threads, i, x, k - 1);
    }
  }

  lemma {:induction false} SumAtLeastTwo(f: Thread -> int, threads: seq<Thread>, i: nat, j: nat, k: nat)
    requires i < j < k <= |threads| && forall m :: 0 <= m < |threads| ==> f(threads[m]) >= 0
    ensures Sum(f, threads, k) >= f(threads[i]) + f(threads[j])
  {
    SumAtLeast(f, threads, i, j);
    SumGrows(f, threads, j + 1, k);
  }

  lemma {:induction false} SumAtLeast(f: Thread -> int, threads: seq<Thread>, i: nat, k: nat)
    requires i < k <= |threads| && forall m :: 0 <= m < |threads| ==> f(threads[m]) >= 0
    ensures Sum(f, threads, k) >= f(threads[i]) >= 0
  {
    SumGrows(f, threads, 0, i);
    SumGrows(f, threads, i + 1, k);
  }

  lemma {:induction false} SumGrows(f: Thread -> int, threads: seq<Thread>, i: nat, k: nat)
    requires i <= k <= |threads| && forall m :: 0 <= m < |threads| ==> f(threads[m]) >= 0
    ensures Sum(f, threads, k) >= Sum(f, threads, i)
    decreases k - i
  {
    if i < k {
      SumGrows(f, threads, i, k - 1);
    }
  }

  lemma {:induction false} SumPositive(f: Thread -> int, threads: seq<Thread>, k: nat) returns (i: nat)
    requires k <= |threads| && Sum(f, threads, k) > 0
    ensures i < k && f(threads[i]) > 0
  {
    if f(threads[k - 1]) > 0 {
      i := k - 1;
    } else {
      i := SumPositive(f, threads, k - 1);
    }
  }

  /** The threads that have a drain of the queue in hand: to hand over, or to carry out. */
  ghost function InHand(th: Thread, q: nat): nat {
    (if th.owes == Some(q) then 1 else 0) +
    (if th.place == Draining(q) || (th.place.Running? && th.place.running == q) then 1 else 0)
  }

  ghost function Holding(q: nat): Thread -> int {
    th => InHand(th, q)
  }

  /** Drains of the queue waiting in the pool. */
  ghost function JobsFor(jobs: seq<Job>, q: nat): nat {
    if jobs == [] then 0 else JobsFor(jobs[..|jobs| - 1], q) + if jobs[|jobs| - 1].queue == q then 1 else 0
  }

  lemma JobsSnoc(jobs: seq<Job>, job: Job, q: nat)
    ensures JobsFor(jobs + [job], q) == JobsFor(jobs, q) + if job.queue == q then 1 else 0
  {
    assert (jobs + [job])[..|jobs|] == jobs;
  }

  lemma {:induction false} JobsTail(jobs: seq<Job>, q: nat)
    requires jobs != []
    ensures JobsFor(jobs, q) == JobsFor(jobs[1..], q) + if jobs[0].queue == q then 1 else 0
  {
    if |jobs| > 1 {
      var k := |jobs| - 1;
      JobsTail(jobs[..k], q);
      assert jobs[..k][1..] == jobs[1..][..k - 1];
    }
  }

  ghost function Drains(s: State, q: nat): int {
    Sum(Holding(q), s.threads, |s.threads|) + JobsFor(s.pool.jobs, q)
  }

  // ----- the invariant -----

  /** A drain of a queue is on its way exactly once if the flag is set, and not at all otherwise; waiting
      tasks imply it; and the started tasks are the posted ones up to those that wait. */
  ghost predicate RoomInv(s: State, r: nat)
    requires r < |s.rooms|
  {
    var room := s.rooms[r];
    && Drains(s, r) == (if room.queue.drainScheduled then 1 else 0)
    && (room.queue.tasks != [] ==> room.queue.drainScheduled)
    && room.posted == room.started + room.queue.tasks
  }

  /** A thread's drains are of rooms there are; it posts only outside the pool or inside a task; the task it
      is in is the last one its room has started. */
  ghost predicate ThreadInv(s: State, th: Thread) {
    && (th.owes.Some? ==> th.owes.value < |s.rooms|)
    && (th.place.Draining? ==> th.place.queue < |s.rooms|)
    && (th.place.Running? ==>
          && th.place.running < |s.rooms| && s.rooms[th.place.running].started != []
          && th.place.task == s.rooms[th.place.running].started[|s.rooms[th.place.running].started| - 1])
    && (th.owes.Some? || th.notify ==> th.place == Outside || th.place.Running?)
    && !(th.owes.Some? && th.notify)
  }

  ghost predicate OrderInv(s: State) {
    && (forall r :: 0 <= r < |s.rooms| ==> RoomInv(s, r))
    && (forall i :: 0 <= i < |s.threads| ==> ThreadInv(s, s.threads[i]))
    && (forall k :: 0 <= k < |s.pool.jobs| ==> s.pool.jobs[k].queue < |s.rooms|)
  }

  /** Two threads never have the same queue in hand. */
  lemma OneDrain(s: State, i: nat, j: nat, q: nat)
    requires OrderInv(s) && i < |s.threads| && j < |s.threads| && i != j && q < |s.rooms|
    ensures InHand(s.threads[i], q) + InHand(s.threads[j], q) <= 1
  {
    assert RoomInv(s, q);
    var f := Holding(q);
    if i < j {
      SumAtLeastTwo(f, s.threads, i, j, |s.threads|);
    } else {
      SumAtLeastTwo(f, s.threads, j, i, |s.threads|);
    }
  }

  /** Steps that move one thread and leave the rooms alone. */
  lemma MoveThread(s: State, s': State, i: nat, x: Thread)
    requires OrderInv(s) && i < |s.threads| && s'.threads == s.threads[i := x] && s'.rooms == s.rooms
    requires ThreadInv(s, x)
    requires forall q :: 0 <= q < |s.rooms| ==>
               InHand(x, q) + JobsFor(s'.pool.jobs, q) == InHand(s.threads[i], q) + JobsFor(s.pool.jobs, q)
    requires forall k :: 0 <= k < |s'.pool.jobs| ==> s'.pool.jobs[k].queue < |s.rooms|
    ensures OrderInv(s')
  {
    forall r | 0 <= r < |s.rooms|
      ensures RoomInv(s', r)
    {
      assert RoomInv(s, r);
      SumUpdate(Holding(r), s.threads, i, x, |s.threads|);
    }
  }

  // ----- every step keeps it -----

  lemma PostOrder(s: State, i: nat, r: nat, t: Task)
    requires OrderInv(s) && Enabled(s, Post(i, r, t))
    ensures OrderInv(Next(s, Post(i, r, t)))
  {
    hide JobsFor, Sum;
    var s' := Next(s, Post(i, r, t));
    assert RoomInv(s, r) && ThreadInv(s, s.threads[i]);
    forall q | 0 <= q < |s.rooms|
      ensures RoomInv(s', q)
    {
      assert RoomInv(s, q);
      SumUpdate(Holding(q), s.threads, i, s.threads[i].(owes := Some(r)), |s.threads|);
    }
    forall j | 0 <= j < |s.threads|
      ensures ThreadInv(s', s'.threads[j])
    {
      assert ThreadInv(s, s.threads[j]);
    }
  }

  lemma HandOverOrder(s: State, i: nat)
    requires OrderInv(s) && Enabled(s, HandOver(i))
    ensures OrderInv(Next(s, HandOver(i)))
  {
    hide JobsFor;
    var s', x := Next(s, HandOver(i)), s.threads[i].(owes := None, notify := true);
    assert ThreadInv(s, s.threads[i]);
    forall q | 0 <= q < |s.rooms|
      ensures InHand(x, q) + JobsFor(s'.pool.jobs, q) == InHand(s.threads[i], q) + JobsFor(s.pool.jobs, q)
    {
      JobsSnoc(s.pool.jobs, s'.pool.jobs[|s.pool.jobs|], q);
    }
    MoveThread(s, s', i, x);
  }

  lemma WorkerTurnOrder(s: State, i: nat)
    requires OrderInv(s) && Enabled(s, WorkerTurn(i))
    ensures OrderInv(Next(s, WorkerTurn(i)))
  {
    hide JobsFor;
    var s' := Next(s, WorkerTurn(i));
    var x := s'.threads[i];
    assert ThreadInv(s, s.threads[i]);
    forall q | 0 <= q < |s.rooms|
      ensures InHand(x, q) + JobsFor(s'.pool.jobs, q) == InHand(s.threads[i], q) + JobsFor(s.pool.jobs, q)
    {
      if s.pool.jobs != [] {
        JobsTail(s.pool.jobs, q);
      }
    }
    MoveThread(s, s', i, x);
  }

  lemma DrainTurnOrder(s: State, i: nat)
    requires OrderInv(s) && Enabled(s, DrainTurn(i))
    ensures OrderInv(Next(s, DrainTurn(i)))
  {
    hide JobsFor, Sum;
    var s', r := Next(s, DrainTurn(i)), s.threads[i].place.queue;
    var started, tasks := s.rooms[r].started, s.rooms[r].queue.tasks;
    assert RoomInv(s, r) && ThreadInv(s, s.threads[i]);
    assert tasks != [] ==> started + tasks == (started + [tasks[0]]) + tasks[1..];
    SumAtLeast(Holding(r), s.threads, i, |s.threads|);
    forall q | 0 <= q < |s.rooms|
      ensures RoomInv(s', q)
    {
      assert RoomInv(s, q);
      SumUpdate(Holding(q), s.threads, i, s'.threads[i], |s.threads|);
    }
    forall j | 0 <= j < |s.threads|
      ensures ThreadInv(s', s'.threads[j])
    {
      assert ThreadInv(s, s.threads[j]);
      if j != i {
        OneDrain(s, i, j, r);
      }
    }
  }

  lemma {:induction false} SumSame(f: Thread -> int, a: seq<Thread>, b: seq<Thread>, k: nat)
    requires k <= |a| == |b| && forall i :: 0 <= i < k ==> f(a[i]) == f(b[i])
    ensures Sum(f, a, k) == Sum(f, b, k)
  {
    if k > 0 {
      SumSame(f, a, b, k - 1);
    }
  }

  lemma NotifyAllOrder(s: State)
    requires OrderInv(s) && Enabled(s, NotifyAll)
    ensures OrderInv(Next(s, NotifyAll))
  {
    hide JobsFor, Sum, Woken;
    var s' := Next(s, NotifyAll);
    forall q | 0 <= q < |s.rooms|
      ensures RoomInv(s', q)
    {
      assert RoomInv(s, q);
      SumSame(Holding(q), s.threads, s'.threads, |s.threads|);
    }
    forall j | 0 <= j < |s.threads|
      ensures ThreadInv(s', s'.threads[j])
    {
      assert ThreadInv(s, s.threads[j]);
    }
  }

  lemma StepOrder(s: State, e: Step)
    requires OrderInv(s) && Enabled(s, e)
    ensures OrderInv(Next(s, e))
  {
    hide Sum, JobsFor, OrderInv, Next, Woken;
    match e
    case Post(i, r, t) => PostOrder(s, i, r, t);
    case HandOver(i) => HandOverOrder(s, i);
    case NotifyOne(i, j) => NotifyOneOrder(s, i, j);
    case NotifyNobody(i) => QuietMove(s, e, i);
    case WorkerTurn(i) => WorkerTurnOrder(s, i);
    case WakeUp(i) => QuietMove(s, e, i);
    case DrainTurn(i) => DrainTurnOrder(s, i);
    case TaskEnds(i) => QuietMove(s, e, i);
    case Stop => StopOrder(s);
    case NotifyAll => NotifyAllOrder(s);
  }

  lemma QuietMove(s: State, e: Step, i: nat)
    requires OrderInv(s) && Enabled(s, e) && (e == NotifyNobody(i) || e == WakeUp(i) || e == TaskEnds(i))
    ensures OrderInv(Next(s, e))
  {
    hide Sum, JobsFor;
    assert ThreadInv(s, s.threads[i]);
    MoveThread(s, Next(s, e), i, Next(s, e).threads[i]);
  }

  lemma NotifyOneOrder(s: State, i: nat, j: nat)
    requires OrderInv(s) && Enabled(s, NotifyOne(i, j))
    ensures OrderInv(Next(s, NotifyOne(i, j)))
  {
    hide Sum, JobsFor;
    var x := s.threads[i].(notify := false);
    var mid := With(s, i, x);
    assert ThreadInv(s, s.threads[i]) && ThreadInv(s, s.threads[j]);
    MoveThread(s, mid, i, x);
    MoveThread(mid, Next(s, NotifyOne(i, j)), j, mid.threads[j].(place := Awake));
  }

  lemma StopOrder(s: State)
    requires OrderInv(s) && Enabled(s, Stop)
    ensures OrderInv(Next(s, Stop))
  {
    hide Sum, JobsFor;
    forall r | 0 <= r < |s.rooms|
      ensures RoomInv(Next(s, Stop), r)
    {
      assert RoomInv(s, r);
    }
  }

  // ----- what it means for every run -----

  /** Nothing posted, no job queued, at least one worker, every thread idle. */
  ghost predicate Initial(s: State) {
    && (forall r :: 0 <= r < |s.rooms| ==> s.rooms[r] == Room(Queue([], false), [], []))
    && s.pool == Pool([], false) && !s.notifiedAll
    && (forall i :: 0 <= i < |s.threads| ==>
          s.threads[i] == Thread(Outside, None, false) || s.threads[i] == Thread(Awake, None, false))
    && exists i :: 0 <= i < |s.threads| && s.threads[i].place == Awake
  }

  ghost predicate Takes(s: State, e: Step, t: State) {
    Enabled(s, e) && t == Next(s, e)
  }

  /** `t` is reached from `s` by the steps, each enabled when it is taken. */
  ghost predicate Runs(s: State, steps: seq<Step>, t: State) {
    if steps == [] then t == s
    else
      var before, last := steps[..|steps| - 1], steps[|steps| - 1];
      exists mid: State :: Runs(s, before, mid) && Takes(mid, last, t)
  }

  lemma {:induction false} SumZero(f: Thread -> int, threads: seq<Thread>, k: nat)
    requires k <= |threads| && forall i :: 0 <= i < k ==> f(threads[i]) == 0
    ensures Sum(f, threads, k) == 0
  {
    if k > 0 {
      SumZero(f, threads, k - 1);
    }
  }

  lemma InitialOrder(s: State)
    requires Initial(s)
    ensures OrderInv(s)
  {
    forall r | 0 <= r < |s.rooms|
      ensures RoomInv(s, r)
    {
      SumZero(Holding(r), s.threads, |s.threads|);
    }
  }

  lemma {:induction false} EveryRunOrder(s: State, steps: seq<Step>, t: State)
    requires Initial(s) && Runs(s, steps, t)
    ensures OrderInv(t)
  {
    hide OrderInv, Next, Enabled;
    if steps == [] {
      InitialOrder(s);
    } else {
      var k := |steps| - 1;
      var mid :| Runs(s, steps[..k], mid) && Takes(mid, steps[k], t);
      EveryRunOrder(s, steps[..k], mid);
      StepOrder(mid, steps[k]);
    }
  }

  /** In every reachable state no two threads are inside tasks or drains of one room, and each room's
      started tasks are a prefix of its posted ones. */
  lemma OneAtATimeInOrder(s: State, steps: seq<Step>, t: State, r: nat, i: nat, j: nat)
    requires Initial(s) && Runs(s, steps, t) && r < |t.rooms| && i < |t.threads| && j < |t.threads| && i != j
    ensures !(InHand(t.threads[i], r) > 0 && InHand(t.threads[j], r) > 0)
    ensures t.rooms[r].started <= t.rooms[r].posted
    ensures t.threads[i].place.Running? && t.threads[i].place.running == r ==>
              && !(t.threads[j].place.Running? && t.threads[j].place.running == r)
              && t.rooms[r].started != [] && t.threads[i].place.task == t.rooms[r].started[|t.rooms[r].started| - 1]
  {
    hide Sum, JobsFor, Runs, Initial, Drains;
    EveryRunOrder(s, steps, t);
    OneDrain(t, i, j, r);
    assert RoomInv(t, r) && ThreadInv(t, t.threads[i]);
  }

  // ----- the order of the pool -----

  /** The queue whose drain a step hands to the pool, if it does. */
  ghost function HandedBy(s: State, e: Step): seq<nat> {
    if e.HandOver? && e.thread < |s.threads| && s.threads[e.thread].owes.Some? then [s.threads[e.thread].owes.value]
        else []
  }

  /** The queue that a worker turns to in a step, if one does. */
  ghost function TakenBy(e: Step, t: State): seq<nat> {
    if e.WorkerTurn? && e.thread < |t.threads| && t.threads[e.thread].place.Draining?
    then [t.threads[e.thread].place.queue] else []
  }

  /** What has been handed to the pool and taken from it on the way from `s` to `t`. */
  ghost predicate PoolLogs(s: State, steps: seq<Step>, t: State, handed: seq<nat>, taken: seq<nat>) {
    if steps == [] then t == s && handed == taken == []
    else
      var before, last := steps[..|steps| - 1], steps[|steps| - 1];
      exists mid: State, h: seq<nat>, k: seq<nat> ::
        && PoolLogs(s, before, mid, h, k) && Takes(mid, last, t)
        && handed == h + HandedBy(mid, last) && taken == k + TakenBy(last, t)
  }

  ghost function QueuesOf(jobs: seq<Job>): (r: seq<nat>)
    ensures |r| == |jobs|
  {
    seq(|jobs|, i requires 0 <= i < |jobs| => jobs[i].queue)
  }

  lemma StepKeepsPoolOrder(s: State, e: Step, handed: seq<nat>, taken: seq<nat>)
    requires Enabled(s, e) && handed == taken + QueuesOf(s.pool.jobs)
    ensures handed + HandedBy(s, e) == (taken + TakenBy(e, Next(s, e))) + QueuesOf(Next(s, e).pool.jobs)
  {
    hide Woken;
    var t := Next(s, e);
    if e.HandOver? {
      assert QueuesOf(t.pool.jobs) == QueuesOf(s.pool.jobs) + HandedBy(s, e);
    } else if e.WorkerTurn? && s.pool.jobs != [] {
      assert QueuesOf(s.pool.jobs) == TakenBy(e, t) + QueuesOf(t.pool.jobs);
    } else {
      assert t.pool.jobs == s.pool.jobs && TakenBy(e, t) == [] == HandedBy(s, e);
    }
  }

  /** The pool serves first in, first out: over every run the drains that workers have taken are, in order,
      the first of those handed over, and the others are the ones that wait. */
  lemma {:induction false} PoolIsFair(s: State, steps: seq<Step>, t: State, handed: seq<nat>, taken: seq<nat>)
    requires Initial(s) && PoolLogs(s, steps, t, handed, taken)
    ensures Runs(s, steps, t) && handed == taken + QueuesOf(t.pool.jobs)
  {
    hide Next, Enabled, HandedBy, TakenBy;
    if steps != [] {
      var k := |steps| - 1;
      var mid, h, l :| PoolLogs(s, steps[..k], mid, h, l) && Takes(mid, steps[k], t)
                       && handed == h + HandedBy(mid, steps[k]) && taken == l + TakenBy(steps[k], t);
      PoolIsFair(s, steps[..k], mid, h, l);
      StepKeepsPoolOrder(mid, steps[k], h, l);
    }
  }

  /** Every run has such logs. */
  lemma {:induction false} EveryRunIsLogged(s: State, steps: seq<Step>, t: State)
      returns (handed: seq<nat>, taken: seq<nat>)
    requires Runs(s, steps, t)
    ensures PoolLogs(s, steps, t, handed, taken)
  {
    hide Next, Enabled, HandedBy, TakenBy;
    if steps == [] {
      handed, taken := [], [];
    } else {
      var k := |steps| - 1;
      var mid :| Runs(s, steps[..k], mid) && Takes(mid, steps[k], t);
      var h, l := EveryRunIsLogged(s, steps[..k], mid);
      handed, taken := h + HandedBy(mid, steps[k]), l + TakenBy(steps[k], t);
    }
  }

  /** The logs only grow, a task at a time: what has been started or posted stays so, in its place. */
  lemma LogsGrow(s: State, e: Step, r: nat)
    requires Enabled(s, e) && r < |s.rooms|
    ensures |Next(s, e).rooms| == |s.rooms|
    ensures s.rooms[r].started <= Next(s, e).rooms[r].started && s.rooms[r].posted <= Next(s, e).rooms[r].posted
    ensures |Next(s, e).rooms[r].started| == |s.rooms[r].started| +
              if e.DrainTurn? && s.threads[e.thread].place.queue == r && s.rooms[r].queue.tasks != [] then 1 else 0
    ensures |Next(s, e).rooms[r].posted| == |s.rooms[r].posted| + if e.Post? && e.room == r then 1 else 0
  {
    hide Woken;
  }

  /** No lost drain: the flag is set exactly when one drain is owed by a poster, queued in the pool or being
      carried out; and waiting tasks imply it. */
  lemma FlagMeansOneDrain(s: State, steps: seq<Step>, t: State, r: nat)
    requires Initial(s) && Runs(s, steps, t) && r < |t.rooms|
    ensures Drains(t, r) == if t.rooms[r].queue.drainScheduled then 1 else 0
    ensures t.rooms[r].queue.tasks != [] ==> t.rooms[r].queue.drainScheduled
  {
    hide Sum, JobsFor;
    EveryRunOrder(s, steps, t);
    assert RoomInv(t, r);
  }
}
