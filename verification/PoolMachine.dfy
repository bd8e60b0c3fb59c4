/** One pool with all its tasks, one critical section a step (pool.rs, broken_endpoints.rs,
    ready_channels.rs). Connect results, resolver answers, the interleaving and cancellation are
    choices of the step; the clock only moves forward. */
module PoolMachine {
  import opened Types
  import opened Backoff
  import Seqs
  import Ready = ReadyList
  import Heap = BrokenHeap
  import RoundRobin

  datatype Answer = Ok(id: nat) | Refused

  /** `recheck_broken_endpoint`, between its critical sections. */
  datatype Job =
    | Connecting(address: Delayed)
    | Connected(entry: Entry)       // waits for the ready lock
    | Restamped(delayed: Delayed)   // new test time taken, waits for the heap lock

  /** The doctor task: `next_broken_ip_address`, then a job. */
  datatype Doctor =
    | Looking                       // about to lock the heap and peek
    | ParkedEmpty                   // heap seen empty: waits for a notification
    | ParkedTimer(until: Delayed)   // waits for a notification or for this deadline
    | Busy(job: Job)

  datatype Task =
    // check_dns: addresses still to place, and the two lists built so far
    | Dns(todo: seq<Ip>, up: seq<Entry>, down: seq<Delayed>)
    | DnsAskBroken(todo: seq<Ip>, up: seq<Entry>, down: seq<Delayed>)   // todo[0] was not ready
    | DnsConnect(todo: seq<Ip>, up: seq<Entry>, down: seq<Delayed>)     // todo[0] is in neither list
    | DnsSwapHeap(down: seq<Delayed>)                                   // ready list already replaced
    // one future of a forced recheck
    | Forced(job: Job)
    // report_broken
    | Report(ip: Ip)
    | Removed(ip: Ip)               // out of the ready list, not yet stamped
    | ReportStamped(delayed: Delayed)

  /** When, and with which count, a failure was recorded. */
  datatype Failure = Failure(at: Instant, count: U8)

  datatype State = State(
    ready: seq<Entry>,
    index: nat,
    heap: seq<Delayed>,
    permit: bool,                   // of the `Notify`
    doctor: Doctor,
    tasks: map<nat, Task>,
    clock: Instant,
    // history, read by no step
    known: set<Ip>,                 // addresses ever resolved or reported
    born: map<Delayed, Failure>)    // the failure behind each entry ever stamped

  datatype Step =
    | Advance(d: nat)
    | Reorder(heap: seq<Delayed>)               // a heap's internal order is nobody's business
    | GetAny
    | StartDns(t: nat, ips: seq<Ip>)            // resolver answered; an error is no step at all
    | DnsStep(t: nat, answer: Answer)
    | StartForced(t: nat, address: Delayed)     // copies an entry out of the heap
    | ForcedStep(t: nat, answer: Answer)
    | StartReport(t: nat, ip: Ip)
    | ReportStep(t: nat)
    | Cancel(t: nat)                            // the future is dropped at an await
    | Look(i: nat)                              // i: where in the heap `peek` finds its maximum
    | Wake                                      // the doctor takes the permit
    | Timer                                     // its sleep ends (no assumption on when)
    | DoctorStep(answer: Answer)

  predicate IsDns(task: Task) {
    task.Dns? || ((task.DnsAskBroken? || task.DnsConnect?) && task.todo != []) || task.DnsSwapHeap?
  }

  predicate IsReport(task: Task) { task.Report? || task.Removed? || task.ReportStamped? }

  predicate Enabled(s: State, a: Step) {
    match a
    case Advance(_) => true
    case Reorder(heap) => multiset(heap) == multiset(s.heap)
    case GetAny => true
    case StartDns(t, _) => t !in s.tasks
    case DnsStep(t, _) => t in s.tasks && IsDns(s.tasks[t])
    case StartForced(t, address) => t !in s.tasks && address in s.heap
    case ForcedStep(t, _) => t in s.tasks && s.tasks[t].Forced?
    case StartReport(t, _) => t !in s.tasks
    case ReportStep(t) => t in s.tasks && IsReport(s.tasks[t])
    case Cancel(t) => t in s.tasks
    case Look(i) => s.doctor.Looking? && (s.heap == [] || Heap.IsMax(s.heap, i))
    case Wake => (s.doctor.ParkedEmpty? || s.doctor.ParkedTimer?) && s.permit
    case Timer => s.doctor.ParkedTimer?
    case DoctorStep(_) => s.doctor.Busy?
  }

  /** A step of a recheck: the shared state after it, and what is left of the job. */
  function JobStep(s: State, job: Job, answer: Answer): (State, Option<Job>) {
    match job
    case Connecting(address) =>
      (match answer
       case Ok(id) => (s, Some(Connected(Entry(address.ip, Channel(address.ip, id)))))
       case Refused =>
         var e := NextFailure(s.clock, address);
         (Stamp(s, e, Bumped(FailedTimes(address))), Some(Restamped(e))))
    case Connected(entry) => (s.(ready := s.ready + [entry]), None)
    case Restamped(e) => (Push(s, e), None)
  }

  function Stamp(s: State, e: Delayed, count: U8): State {
    s.(born := s.born[e := Failure(s.clock, count)])
  }

  /** retain, push, notify_one under one lock */
  function Push(s: State, e: Delayed): State {
    s.(heap := Heap.Insert(s.heap, e), permit := true)
  }

  function SetTask(s: State, t: nat, task: Task): State { s.(tasks := s.tasks[t := task]) }

  function EndTask(s: State, t: nat): State { s.(tasks := s.tasks - {t}) }

  function NextDns(s: State, t: nat, task: Task, answer: Answer): State
    requires IsDns(task)
  {
    match task
    case Dns(todo, up, down) =>
      if todo == [] then SetTask(s.(ready := up), t, DnsSwapHeap(down))
      else
        (match Ready.Find(s.ready, todo[0])
         case Some(channel) => SetTask(s, t, Dns(todo[1..], up + [Entry(todo[0], channel)], down))
         case None => SetTask(s, t, DnsAskBroken(todo, up, down)))
    case DnsAskBroken(todo, up, down) =>
      (match Heap.Lookup(s.heap, todo[0])
       case Some(delayed) => SetTask(s, t, Dns(todo[1..], up, down + [delayed]))
       case None => SetTask(s, t, DnsConnect(todo, up, down)))
    case DnsConnect(todo, up, down) =>
      (match answer
       case Ok(id) => SetTask(s, t, Dns(todo[1..], up + [Entry(todo[0], Channel(todo[0], id))], down))
       case Refused =>
         var e := FirstFailure(s.clock, todo[0]);
         SetTask(Stamp(s, e, 1), t, Dns(todo[1..], up, down + [e])))
    case DnsSwapHeap(down) => EndTask(s.(heap := down, permit := s.permit || down != []), t)
  }

  function NextReport(s: State, t: nat, task: Task): State
    requires IsReport(task)
  {
    match task
    case Report(ip) => SetTask(s.(ready := Ready.Remove(s.ready, ip)), t, Removed(ip))
    case Removed(ip) =>
      var e := FirstFailure(s.clock, ip);
      SetTask(Stamp(s, e, 1), t, ReportStamped(e))
    case ReportStamped(e) => EndTask(Push(s, e), t)
  }

  /** Locked: peek, compare with the clock, and pop only a due entry. */
  function NextLook(s: State, i: nat): State
    requires s.heap != [] ==> i < |s.heap|
  {
    if s.heap == [] then s.(doctor := ParkedEmpty)
    else if s.clock < s.heap[i].time then s.(doctor := ParkedTimer(s.heap[i]))
    else s.(heap := Seqs.RemoveAt(s.heap, i), doctor := Busy(Connecting(s.heap[i])))
  }

  function Next(s: State, a: Step): State
    requires Enabled(s, a)
  {
    match a
    case Advance(d) => s.(clock := s.clock + d)
    case Reorder(heap) => s.(heap := heap)
    case GetAny => if s.ready == [] then s else s.(index := (s.index + 1) % USIZE_VALUES)
    case StartDns(t, ips) => SetTask(s.(known := s.known + set ip | ip in ips), t, Dns(ips, [], []))
    case DnsStep(t, answer) => NextDns(s, t, s.tasks[t], answer)
    case StartForced(t, address) => SetTask(s, t, Forced(Connecting(address)))
    case ForcedStep(t, answer) =>
      var (u, left) := JobStep(s, s.tasks[t].job, answer);
      if left.Some? then SetTask(u, t, Forced(left.value)) else EndTask(u, t)
    case StartReport(t, ip) => SetTask(s.(known := s.known + {ip}), t, Report(ip))
    case ReportStep(t) => NextReport(s, t, s.tasks[t])
    case Cancel(t) => EndTask(s, t)
    case Look(i) => NextLook(s, i)
    case Wake => s.(permit := false, doctor := Looking)
    case Timer => s.(doctor := Looking)
    case DoctorStep(answer) =>
      var (u, left) := JobStep(s, s.doctor.job, answer);
      u.(doctor := if left.Some? then Busy(left.value) else Looking)
  }

  predicate CanRun(s: State, run: seq<Step>)
    decreases |run|
  {
    run == [] || (Enabled(s, run[0]) && CanRun(Next(s, run[0]), run[1..]))
  }

  function Run(s: State, run: seq<Step>): State
    requires CanRun(s, run)
    decreases |run|
  {
    if run == [] then s else Run(Next(s, run[0]), run[1..])
  }

  function Init(clock: Instant): State {
    State([], 0, [], false, Looking, map[], clock, {}, map[])
  }

  /** The entry a `GetAny` draws in a state with ready channels. */
  function Drawn(s: State): (e: Entry)
    requires s.ready != []
    ensures e in s.ready
  {
    s.ready[s.index % |s.ready|]
  }

  function Draws(calls: nat): seq<Step> { seq(calls, _ => GetAny) }

  lemma {:induction false} CounterAfter(s: State, calls: nat)
    requires s.ready != [] && s.index < USIZE_VALUES
    ensures CanRun(s, Draws(calls)) && Run(s, Draws(calls)) == s.(index := RoundRobin.Counter(s.index, calls))
    decreases calls
  {
    RoundRobin.CounterSteps(s.index, calls);
    if calls > 0 {
      var u := Next(s, GetAny);
      CounterAfter(u, calls - 1);
      OneStep(s, GetAny, Draws(calls - 1), u);
      assert [GetAny] + Draws(calls - 1) == Draws(calls);
    }
  }

  lemma DrawnAt(s: State, start: nat, calls: nat)
    requires s.ready != [] && s.index == RoundRobin.Counter(start, calls)
    ensures Drawn(s) == s.ready[RoundRobin.Pick(start, calls, |s.ready|)]
  {}

  /** Draws in a row go round the ready list as the sequential `get_any` does, and change nothing else. */
  lemma DrawsGoRound(s: State, calls: nat)
    requires s.ready != [] && s.index < USIZE_VALUES
    ensures CanRun(s, Draws(calls)) && Run(s, Draws(calls)) == s.(index := RoundRobin.Counter(s.index, calls))
    ensures Drawn(Run(s, Draws(calls))) == s.ready[RoundRobin.Pick(s.index, calls, |s.ready|)]
  {
    CounterAfter(s, calls);
    DrawnAt(Run(s, Draws(calls)), s.index, calls);
  }

  /** The heap may hold its entries in any order at any moment. */
  lemma AnyHeapOrder(s: State, heap: seq<Delayed>)
    ensures Enabled(s, Reorder(heap)) <==> forall d: Delayed :: multiset(heap)[d] == multiset(s.heap)[d]
    ensures Enabled(s, Reorder(heap)) ==> Next(s, Reorder(heap)) == s.(heap := heap)
  {}

  /** How the doctor waits. It parks for good on an empty heap and for a time on one with nothing due,
      leaving everything else, a stored permit too; a notification costs the permit; the end of a sleep
      does not. */
  lemma DoctorWaits(s: State, a: Step)
    requires Enabled(s, a)
    ensures a.Look? && s.heap == [] ==> Next(s, a) == s.(doctor := ParkedEmpty)
    ensures a.Look? && s.heap != [] && s.clock < s.heap[a.i].time ==>
              Next(s, a) == s.(doctor := ParkedTimer(s.heap[a.i]))
    ensures a.Look? && s.heap != [] && s.clock >= s.heap[a.i].time ==> Pops(s, a) && Next(s, a).permit == s.permit
    ensures a.Wake? ==> s.permit && Next(s, a) == s.(permit := false, doctor := Looking)
    ensures a.Timer? ==> Next(s, a) == s.(doctor := Looking)
  {}

  /** The step hands an entry out of `next_broken_ip_address`: afterwards the doctor is busy with it. */
  predicate Pops(s: State, a: Step) {
    a.Look? && Enabled(s, a) && Next(s, a).doctor.Busy?
  }

  /** What is handed out is the latest entry of the heap, it is due, and the heap loses just it. */
  lemma PopTakesLatestDue(s: State, i: nat)
    requires Pops(s, Look(i))
    ensures Heap.IsMax(s.heap, i) && s.clock >= s.heap[i].time
    ensures Next(s, Look(i)).doctor == Busy(Connecting(s.heap[i]))
    ensures multiset(Next(s, Look(i)).heap) == multiset(s.heap) - multiset{s.heap[i]}
  {
    Heap.RemoveAtContents(s.heap, i);
  }

  lemma OneStep(s: State, a: Step, rest: seq<Step>, t: State)
    requires Enabled(s, a) && Next(s, a) == t && CanRun(t, rest)
    ensures CanRun(s, [a] + rest) && Run(s, [a] + rest) == Run(t, rest)
  {
    assert ([a] + rest)[1..] == rest;
  }

  lemma {:induction false} RunConcat(s: State, first: seq<Step>, rest: seq<Step>)
    requires CanRun(s, first) && CanRun(Run(s, first), rest)
    ensures CanRun(s, first + rest) && Run(s, first + rest) == Run(Run(s, first), rest)
    decreases |first|
  {
    if first == [] {
      assert first + rest == rest;
    } else {
      RunConcat(Next(s, first[0]), first[1..], rest);
      assert (first + rest)[1..] == first[1..] + rest;
    }
  }
}
