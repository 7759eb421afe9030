/** Room task queues over a shared pool of workers (room_task_queue.cpp, room_executor.cpp), as the atomic
    steps of any number of threads: each critical section is one step, and so is each notification. */
module TaskQueues {

  import opened Options

  /** A task is known by a number; what it does is left open, except that it may post and may throw. */
  type Task = nat

  // ----- the shared objects and their critical sections -----

  /** A room's queue: the waiting tasks and whether a drain is on its way. */
  datatype Queue = Queue(tasks: seq<Task>, drainScheduled: bool)

  /** The locked part of `post`: the new queue, and whether the poster has to schedule a drain. */
  function Posted(q: Queue, t: Task): (Queue, bool) {
    (Queue(q.tasks + [t], true), !q.drainScheduled)
  }

  /** The locked part of one turn of `drain`: the next task, or none and the drain is over. */
  function Drained(q: Queue): (Queue, Option<Task>) {
    if q.tasks == [] then (q.(drainScheduled := false), None) else (q.(tasks := q.tasks[1..]), Some(q.tasks[0]))
  }

  /** A drain of a queue waiting in the pool, with who queued it and when. */
  datatype Job = Job(queue: nat, byWorker: bool, afterStop: bool)

  datatype Pool = Pool(jobs: seq<Job>, stop: bool)

  datatype Turn = Wait | Leave | Take(job: Job)

  /** The locked part of a worker's turn: wait, leave for good, or take the first job. */
  function Turned(p: Pool): (Pool, Turn) {
    if !p.stop && p.jobs == [] then (p, Wait)
    else if p.stop && p.jobs == [] then (p, Leave)
    else (p.(jobs := p.jobs[1..]), Take(p.jobs[0]))
  }

  class RoomTaskQueue {
    var tasks: seq<Task>
    var drainScheduled: bool

    function View(): Queue
      reads this
    {
      Queue(tasks, drainScheduled)
    }

    constructor ()
      ensures View() == Queue([], false)
    {
      tasks, drainScheduled := [], false;
    }

    method PostLocked(t: Task) returns (needSchedule: bool)
      modifies this
      ensures (View(), needSchedule) == Posted(old(View()), t)
    {
      needSchedule := false;
      tasks := tasks + [t];
      if !drainScheduled {
        drainScheduled := true;
        needSchedule := true;
      }
    }

    method DrainLocked() returns (next: Option<Task>)
      modifies this
      ensures (View(), next) == Drained(old(View()))
    {
      if tasks == [] {
        drainScheduled := false;
        return None;
      }
      next := Some(tasks[0]);
      tasks := tasks[1..];
    }

    /** Posts to a queue with a drain on its way: none of them asks for another. */
    method PostWhileDraining(ts: seq<Task>) returns (asked: bool)
      requires drainScheduled
      modifies this
      ensures View() == Queue(old(tasks) + ts, true) && !asked
    {
      asked := false;
      for i := 0 to |ts|
        invariant View() == Queue(old(tasks) + ts[..i], true) && !asked
      {
        var needSchedule := PostLocked(ts[i]);
        asked := asked || needSchedule;
        assert ts[..i + 1] == ts[..i] + [ts[i]];
      }
      assert ts[..|ts|] == ts;
    }

    /** A whole drain; `arrivals[i]` are the tasks that the running task or other threads post before its i-th
        turn. It runs what was waiting and all that arrived before it found the queue empty, each once and in
        order of arrival, and then stands down. */
    method Drain(arrivals: seq<seq<Task>>) returns (ran: seq<Task>, turns: nat)
      requires drainScheduled
      modifies this
      ensures View() == Queue([], false)
      ensures ran == old(tasks) + Arrived(arrivals, turns) && turns == |ran| + 1
    {
      hide Arrived;
      ran := [];
      var asked := PostWhileDraining(if arrivals == [] then [] else arrivals[0]);
      var next := DrainLocked();
      turns := 1;
      ArrivedStep(arrivals, 0);
      ArrivedNone(arrivals);
      while next.Some?
        invariant turns == |ran| + 1
        invariant old(tasks) + Arrived(arrivals, turns) == ran + (if next.Some? then [next.value] + tasks else [])
        invariant next.Some? ==> drainScheduled
        invariant next.None? ==> View() == Queue([], false)
        decreases if turns < |arrivals| then |arrivals| - turns else 0, |tasks| + if next.Some? then 1 else 0
      {
        var now := if turns < |arrivals| then arrivals[turns] else [];
        ArrivedStep(arrivals, turns);
        ArrivesLast(old(tasks), Arrived(arrivals, turns), now, ran, next.value, tasks);
        ran := ran + [next.value];
        asked := PostWhileDraining(now);
        next := DrainLocked();
        turns := turns + 1;
      }
    }
  }

  /** What arrives before the first `k` turns. */
  function Arrived(arrivals: seq<seq<Task>>, k: nat): seq<Task> {
    if k == 0 then [] else Arrived(arrivals, k - 1) + if k <= |arrivals| then arrivals[k - 1] else []
  }

  lemma ArrivedStep(arrivals: seq<seq<Task>>, k: nat)
    ensures Arrived(arrivals, k + 1) == Arrived(arrivals, k) + if k < |arrivals| then arrivals[k] else []
  {
  }

  lemma ArrivedNone(arrivals: seq<seq<Task>>)
    ensures Arrived(arrivals, 0) == []
  {
  }

  lemma ArrivesLast(first: seq<Task>, arrived: seq<Task>, now: seq<Task>, ran: seq<Task>, next: Task,
      waiting: seq<Task>)
    requires first + arrived == ran + ([next] + waiting)
    ensures first + (arrived + now) == (ran + [next]) + (waiting + now)
  {
    assert first + (arrived + now) == (first + arrived) + now;
    assert (ran + ([next] + waiting)) + now == (ran + [next]) + (waiting + now);
  }

  class RoomExecutor {
    var jobs: seq<Job>
    var stop: bool

    function View(): Pool
      reads this
    {
      Pool(jobs, stop)
    }

    constructor ()
      ensures View() == Pool([], false)
    {
      jobs, stop := [], false;
    }

    method PostLocked(job: Job)
      modifies this
      ensures View() == old(View()).(jobs := old(jobs) + [job])
    {
      jobs := jobs + [job];
    }

    method WorkerLocked() returns (turn: Turn)
      modifies this
      ensures (View(), turn) == Turned(old(View()))
    {
      if !(stop || jobs != []) {
        return Wait;
      }
      if stop && jobs == [] {
        return Leave;
      }
      turn := Take(jobs[0]);
      jobs := jobs[1..];
    }

    method StopLocked()
      modifies this
      ensures View() == old(View()).(stop := true)
    {
      stop := true;
    }
  }

  // ----- the threads -----

  datatype Place =
    | Outside                            // a thread of its own, free to post
    | Awake                              // a worker about to look for a job
    | Sleeping                           // a worker waiting on the condition
    | Draining(queue: nat)               // a worker about to look for the queue's next task
    | Running(running: nat, task: Task)  // a worker inside a task
    | Exited

  /** Where a thread is, the drain it still has to hand to the pool, and the notification it still owes. */
  datatype Thread = Thread(place: Place, owes: Option<nat>, notify: bool)

  predicate IsWorker(th: Thread) {
    th.place != Outside
  }

  predicate MayPost(th: Thread) {
    (th.place == Outside || th.place.Running?) && th.owes == None && !th.notify
  }

  /** The queues with what was posted to them and what was started, in the order of their locks. */
  datatype Room = Room(queue: Queue, posted: seq<Task>, started: seq<Task>)

  datatype State = State(rooms: seq<Room>, pool: Pool, threads: seq<Thread>, notifiedAll: bool)

  datatype Step =
    | Post(thread: nat, room: nat, task: Task)
    | HandOver(thread: nat)
    | NotifyOne(thread: nat, woken: nat)
    | NotifyNobody(thread: nat)
    | WorkerTurn(thread: nat)
    | WakeUp(thread: nat)
    | DrainTurn(thread: nat)
    | TaskEnds(thread: nat)
    | Stop
    | NotifyAll

  predicate Thr(s: State, i: nat) {
    i < |s.threads|
  }

  predicate Enabled(s: State, e: Step) {
    match e
    case Post(i, r, _) => Thr(s, i) && r < |s.rooms| && MayPost(s.threads[i])
    case HandOver(i) => Thr(s, i) && s.threads[i].owes.Some?
    case NotifyOne(i, j) => Thr(s, i) && Thr(s, j) && s.threads[i].notify && s.threads[j].place == Sleeping
    case NotifyNobody(i) => Thr(s, i) && s.threads[i].notify && forall j :: 0 <= j < |s.threads| ==>
        s.threads[j].place != Sleeping
    case WorkerTurn(i) => Thr(s, i) && s.threads[i].place == Awake
    case WakeUp(i) => Thr(s, i) && s.threads[i].place == Sleeping
    case DrainTurn(i) => Thr(s, i) && s.threads[i].place.Draining? && s.threads[i].place.queue < |s.rooms|
    case TaskEnds(i) => Thr(s, i) && s.threads[i].place.Running? && s.threads[i].owes == None && !s.threads[i].notify
    case Stop => !s.pool.stop
    case NotifyAll => s.pool.stop && !s.notifiedAll
  }

  function Woken(threads: seq<Thread>, k: nat): (r: seq<Thread>)
    requires k <= |threads|
    ensures |r| == |threads|
    ensures forall i :: 0 <= i < |threads| ==>
              r[i] == if i < k && threads[i].place == Sleeping then threads[i].(place := Awake) else threads[i]
  {
    if k == 0 then threads
    else
      var r := Woken(threads, k - 1);
      if threads[k - 1].place == Sleeping then r[k - 1 := threads[k - 1].(place := Awake)] else r
  }

  function With(s: State, i: nat, th: Thread): State
    requires Thr(s, i)
  {
    s.(threads := s.threads[i := th])
  }

  /** One step. A task that throws ends like one that returns. */
  function Next(s: State, e: Step): State
    requires Enabled(s, e)
  {
    match e
    case Post(i, r, t) =>
      var (q, needSchedule) := Posted(s.rooms[r].queue, t);
      var s' := s.(rooms := s.rooms[r := s.rooms[r].(queue := q, posted := s.rooms[r].posted + [t])]);
      if needSchedule then With(s', i, s.threads[i].(owes := Some(r))) else s'
    case HandOver(i) =>
      var job := Job(s.threads[i].owes.value, IsWorker(s.threads[i]), s.pool.stop);
      With(s, i, s.threads[i].(owes := None, notify := true)).(pool := s.pool.(jobs := s.pool.jobs + [job]))
    case NotifyOne(i, j) =>
      With(With(s, i, s.threads[i].(notify := false)), j,
          s.threads[i := s.threads[i].(notify := false)][j].(place := Awake))
    case NotifyNobody(i) => With(s, i, s.threads[i].(notify := false))
    case WorkerTurn(i) =>
      var (pool, turn) := Turned(s.pool);
      var place := match turn case Wait => Sleeping case Leave => Exited case Take(job) => Draining(job.queue);
      With(s, i, s.threads[i].(place := place)).(pool := pool)
    case WakeUp(i) => With(s, i, s.threads[i].(place := Awake))
    case DrainTurn(i) =>
      var r := s.threads[i].place.queue;
      var (q, next) := Drained(s.rooms[r].queue);
      if next.None? then With(s.(rooms := s.rooms[r := s.rooms[r].(queue := q)]), i, s.threads[i].(place := Awake))
      else With(s.(rooms := s.rooms[r := s.rooms[r].(queue := q, started := s.rooms[r].started + [next.value])]), i,
                s.threads[i].(place := Running(r, next.value)))
    case TaskEnds(i) => With(s, i, s.threads[i].(place := Draining(s.threads[i].place.running)))
    case Stop => s.(pool := s.pool.(stop := true))
    case NotifyAll => s.(threads := Woken(s.threads, |s.threads|), notifiedAll := true)
  }
}
