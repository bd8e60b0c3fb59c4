/** What every run of the pool keeps, whatever the interleaving and wherever futures are dropped. */
module PoolSafety {
  import opened Types
  import opened Backoff
  import Seqs
  import opened PoolMachine
  import Heap = BrokenHeap
  import Pool

  // ---------- No lost wakeup ----------

  /** A parked doctor has a reason to stay parked, or a permit that will wake it. */
  ghost predicate NoLostWakeup(s: State) {
    && (s.doctor.ParkedEmpty? && s.heap != [] ==> s.permit)
    && (s.doctor.ParkedTimer? && !s.permit ==>
          s.heap == [] || (s.doctor.until in s.heap && forall x :: x in s.heap ==> Leq(x, s.doctor.until)))
  }

  lemma WakeupStep(s: State, a: Step)
    requires NoLostWakeup(s) && Enabled(s, a)
    ensures NoLostWakeup(Next(s, a))
  {
    if a.Reorder? { SameMembers(s.heap, a.heap); }
  }

  // ---------- Provenance ----------

  ghost predicate JobFine(s: State, job: Job) {
    match job
    case Connecting(address) => address.ip in s.known && address in s.born
    case Connected(entry) => entry.ip in s.known && entry.channel.peer == entry.ip
    case Restamped(delayed) => delayed.ip in s.known && delayed in s.born
  }

  ghost predicate EntriesFine(s: State, es: seq<Entry>) {
    forall e :: e in es ==> e.channel.peer == e.ip && e.ip in s.known
  }

  ghost predicate HeapFine(s: State, h: seq<Delayed>) {
    forall d :: d in h ==> d.ip in s.known && d in s.born
  }

  ghost predicate TaskFine(s: State, task: Task) {
    match task
    case Dns(todo, up, down) => ListsFine(s, todo, up, down)
    case DnsAskBroken(todo, up, down) => ListsFine(s, todo, up, down)
    case DnsConnect(todo, up, down) => ListsFine(s, todo, up, down)
    case DnsSwapHeap(down) => HeapFine(s, down)
    case Forced(job) => JobFine(s, job)
    case Report(ip) => ip in s.known
    case Removed(ip) => ip in s.known
    case ReportStamped(delayed) => delayed.ip in s.known && delayed in s.born
  }

  ghost predicate ListsFine(s: State, todo: seq<Ip>, up: seq<Entry>, down: seq<Delayed>) {
    (forall ip :: ip in todo ==> ip in s.known) && EntriesFine(s, up) && HeapFine(s, down)
  }

  /** The history explains every entry ever stamped, by a failure already in the past. */
  ghost predicate HistoryFine(s: State) {
    forall e :: e in s.born ==>
      && e.time == NextTest(s.born[e].at, s.born[e].count)
      && s.born[e].at <= s.clock
  }

  ghost predicate SharedFine(s: State) { EntriesFine(s, s.ready) && HeapFine(s, s.heap) }

  ghost predicate DoctorFine(s: State) {
    && (s.doctor.Busy? ==> JobFine(s, s.doctor.job))
    && (s.doctor.ParkedTimer? ==> s.doctor.until in s.born)
  }

  ghost predicate TasksFine(s: State) { forall t :: t in s.tasks ==> TaskFine(s, s.tasks[t]) }

  /** Wherever it is held, a channel was connected to the address it is listed under, every address
      was resolved or reported, and every broken entry was stamped at some recorded failure. */
  ghost predicate Provenance(s: State) {
    SharedFine(s) && DoctorFine(s) && TasksFine(s) && HistoryFine(s)
  }

  /** The history only grows. */
  ghost predicate Remembers(s: State, u: State) {
    s.known <= u.known && s.born.Keys <= u.born.Keys
  }

  lemma FineForever(s: State, u: State, task: Task)
    requires Remembers(s, u) && TaskFine(s, task)
    ensures TaskFine(u, task)
  {}

  lemma StampFine(s: State, e: Delayed, count: U8)
    requires HistoryFine(s) && e.time == NextTest(s.clock, count)
    ensures HistoryFine(Stamp(s, e, count)) && Remembers(s, Stamp(s, e, count))
  {}

  predicate Recording(a: Step) { a.DnsStep? || a.ForcedStep? || a.ReportStep? || a.DoctorStep? }

  lemma QuietHistory(s: State, a: Step)
    requires Enabled(s, a) && !Recording(a)
    ensures Next(s, a).born == s.born && Next(s, a).clock >= s.clock && s.known <= Next(s, a).known
  {}

  lemma HistoryStep(s: State, a: Step)
    requires HistoryFine(s) && Enabled(s, a)
    ensures HistoryFine(Next(s, a)) && Remembers(s, Next(s, a))
  {
    if !Recording(a) {
      QuietHistory(s, a);
    } else if a.DnsStep? {
      DnsHistory(s, a.t, s.tasks[a.t], a.answer);
    } else if a.ReportStep? {
      ReportHistory(s, a.t, s.tasks[a.t]);
    } else {
      JobHistory(s, if a.DoctorStep? then s.doctor.job else s.tasks[a.t].job, a.answer);
    }
  }

  lemma DnsHistory(s: State, t: nat, task: Task, answer: Answer)
    requires HistoryFine(s) && IsDns(task)
    ensures HistoryFine(NextDns(s, t, task, answer)) && Remembers(s, NextDns(s, t, task, answer))
  {
    if task.DnsConnect? { StampFine(s, FirstFailure(s.clock, task.todo[0]), 1); }
  }

  lemma ReportHistory(s: State, t: nat, task: Task)
    requires HistoryFine(s) && IsReport(task)
    ensures HistoryFine(NextReport(s, t, task)) && Remembers(s, NextReport(s, t, task))
  {
    if task.Removed? { StampFine(s, FirstFailure(s.clock, task.ip), 1); }
  }

  lemma JobHistory(s: State, job: Job, answer: Answer)
    requires HistoryFine(s)
    ensures HistoryFine(JobStep(s, job, answer).0) && Remembers(s, JobStep(s, job, answer).0)
  {
    if job.Connecting? {
      StampFine(s, NextFailure(s.clock, job.address), Bumped(FailedTimes(job.address)));
    }
  }

  lemma JobStepFine(s: State, job: Job, answer: Answer)
    requires SharedFine(s) && JobFine(s, job)
    ensures var (u, left) := JobStep(s, job, answer);
            SharedFine(u) && (left.Some? ==> JobFine(u, left.value))
  {
    if job.Restamped? { Heap.InsertEffect(s.heap, job.delayed); }
  }

  lemma DnsStepFine(s: State, t: nat, task: Task, answer: Answer)
    requires IsDns(task) && TaskFine(s, task) && SharedFine(s)
    ensures var u := NextDns(s, t, task, answer);
            SharedFine(u) && (t in u.tasks ==> TaskFine(u, u.tasks[t]))
  {
    if !task.DnsSwapHeap? && task.todo != [] {
      var todo := task.todo;
      assert todo[0] in todo && forall ip :: ip in todo[1..] ==> ip in todo;
    }
  }

  lemma ReportStepFine(s: State, t: nat, task: Task)
    requires IsReport(task) && TaskFine(s, task) && SharedFine(s)
    ensures var u := NextReport(s, t, task);
            SharedFine(u) && (t in u.tasks ==> TaskFine(u, u.tasks[t]))
  {
    match task
    case Report(ip) => Pool.ReportBrokenEffect(s.ready, s.heap, ip, s.clock);
    case Removed(ip) =>
    case ReportStamped(e) => Heap.InsertEffect(s.heap, e);
  }

  /** The task, if any, that the step is a step of. */
  function Actor(a: Step): Option<nat> {
    match a
    case StartDns(t, _) => Some(t)
    case DnsStep(t, _) => Some(t)
    case StartForced(t, _) => Some(t)
    case ForcedStep(t, _) => Some(t)
    case StartReport(t, _) => Some(t)
    case ReportStep(t) => Some(t)
    case _ => None
  }

  lemma SharedStep(s: State, a: Step)
    requires Provenance(s) && Enabled(s, a)
    ensures SharedFine(Next(s, a))
  {
    if a.DnsStep? {
      DnsStepFine(s, a.t, s.tasks[a.t], a.answer);
    } else if a.ForcedStep? {
      JobStepFine(s, s.tasks[a.t].job, a.answer);
    } else if a.ReportStep? {
      ReportStepFine(s, a.t, s.tasks[a.t]);
    } else if a.DoctorStep? {
      JobStepFine(s, s.doctor.job, a.answer);
    } else {
      QuietHistory(s, a);
      if a.Look? && s.heap != [] { Heap.RemoveAtMembers(s.heap, a.i); }
      if a.Reorder? { SameMembers(s.heap, a.heap); }
    }
  }

  lemma DoctorStepKeeps(s: State, a: Step)
    requires Provenance(s) && Enabled(s, a)
    ensures DoctorFine(Next(s, a))
  {
    if a.DoctorStep? {
      JobStepFine(s, s.doctor.job, a.answer);
    } else {
      HistoryStep(s, a);
      DoctorFrame(s, a);
    }
  }

  lemma DoctorFrame(s: State, a: Step)
    requires Enabled(s, a) && !a.DoctorStep?
    ensures !a.Look? && !a.Wake? && !a.Timer? ==> Next(s, a).doctor == s.doctor
    ensures a.Look? ==> Next(s, a).doctor == NextLook(s, a.i).doctor
    ensures a.Wake? || a.Timer? ==> Next(s, a).doctor == Looking
  {}

  lemma ActorStep(s: State, a: Step, t: nat)
    requires Provenance(s) && Enabled(s, a) && Actor(a) == Some(t) && t in Next(s, a).tasks
    ensures TaskFine(Next(s, a), Next(s, a).tasks[t])
  {
    match a {
      case DnsStep(_, answer) => DnsStepFine(s, t, s.tasks[t], answer);
      case ForcedStep(_, answer) => JobStepFine(s, s.tasks[t].job, answer);
      case ReportStep(_) => ReportStepFine(s, t, s.tasks[t]);
      case _ =>
    }
  }

  lemma OtherTasksUntouched(s: State, a: Step, t: nat)
    requires Enabled(s, a) && t in Next(s, a).tasks && Actor(a) != Some(t)
    ensures t in s.tasks && Next(s, a).tasks[t] == s.tasks[t]
  {
    match a
    case DnsStep(o, answer) => DnsTouchesOne(s, o, s.tasks[o], answer);
    case ReportStep(o) => ReportTouchesOne(s, o, s.tasks[o]);
    case _ =>
  }

  lemma DnsTouchesOne(s: State, t: nat, task: Task, answer: Answer)
    requires IsDns(task)
    ensures NextDns(s, t, task, answer).tasks - {t} == s.tasks - {t}
    ensures forall o :: o in NextDns(s, t, task, answer).tasks && o != t
                        ==> o in s.tasks && NextDns(s, t, task, answer).tasks[o] == s.tasks[o]
  {}

  lemma ReportTouchesOne(s: State, t: nat, task: Task)
    requires IsReport(task)
    ensures NextReport(s, t, task).tasks - {t} == s.tasks - {t}
    ensures forall o :: o in NextReport(s, t, task).tasks && o != t
                        ==> o in s.tasks && NextReport(s, t, task).tasks[o] == s.tasks[o]
  {}

  lemma SameMembers(g: seq<Delayed>, h: seq<Delayed>)
    requires multiset(g) == multiset(h)
    ensures forall x :: x in g <==> x in h
  {
    assert forall x :: x in g <==> x in multiset(g);
    assert forall x :: x in h <==> x in multiset(h);
  }

  lemma ProvenanceStep(s: State, a: Step)
    requires Provenance(s) && Enabled(s, a)
    ensures Provenance(Next(s, a))
  {
    var u := Next(s, a);
    HistoryStep(s, a);
    SharedStep(s, a);
    DoctorStepKeeps(s, a);
    forall t | t in u.tasks ensures TaskFine(u, u.tasks[t]) {
      if Actor(a) == Some(t) {
        ActorStep(s, a, t);
      } else {
        OtherTasksUntouched(s, a, t);
        FineForever(s, u, s.tasks[t]);
      }
    }
  }

  /** From the pool's start, whatever the callers, the network, the resolver and the scheduler do. */
  lemma {:induction false} EveryRun(s: State, run: seq<Step>)
    requires NoLostWakeup(s) && Provenance(s) && CanRun(s, run)
    ensures NoLostWakeup(Run(s, run)) && Provenance(Run(s, run))
    decreases |run|
  {
    if run != [] {
      WakeupStep(s, run[0]);
      ProvenanceStep(s, run[0]);
      EveryRun(Next(s, run[0]), run[1..]);
    }
  }

  /** A doctor that is not busy hands out the latest entry as soon as it is due: it needs at most a
      pending permit, or the end of a sleep whose deadline has really passed. */
  lemma DueEntryIsHandedOut(s: State, i: nat) returns (run: seq<Step>)
    requires NoLostWakeup(s) && !s.doctor.Busy?
    requires Heap.IsMax(s.heap, i) && s.clock >= s.heap[i].time
    ensures CanRun(s, run) && Run(s, run).doctor == Busy(Connecting(s.heap[i]))
    ensures Timer in run ==> s.doctor.ParkedTimer? && s.doctor.until.time <= s.clock
  {
    var look := Look(i);
    var free := s.(doctor := Looking);
    OneStep(free, look, [], Next(free, look));
    if s.doctor.Looking? {
      run := [look] + [];
    } else if s.permit {
      free := free.(permit := false);
      OneStep(free, look, [], Next(free, look));
      OneStep(s, Wake, [look] + [], free);
      run := [Wake] + ([look] + []);
    } else {
      assert s.heap[i] in s.heap && Leq(s.doctor.until, s.heap[i]);
      OneStep(s, Timer, [look] + [], free);
      run := [Timer] + ([look] + []);
    }
  }

  /** Every hand-out respects the backoff of the failure that scheduled it, and finds everything
      left in the heap due as well. */
  lemma BackoffRespected(clock: Instant, run: seq<Step>, i: nat)
    requires CanRun(Init(clock), run)
    requires Pops(Run(Init(clock), run), Look(i))
    ensures var s := Run(Init(clock), run);
            && Next(s, Look(i)).doctor.job.Connecting?
            && var e := Next(s, Look(i)).doctor.job.address;
               && e in s.born
               && FailedTimes(e) == s.born[e].count
               && s.clock >= s.born[e].at + BackoffSecs(s.born[e].count) * NANOS_PER_SEC - 255
               && (forall d :: d in Next(s, Look(i)).heap ==> d.time <= s.clock)
  {
    var s := Run(Init(clock), run);
    EveryRun(Init(clock), run);
    PopTakesLatestDue(s, i);
    var e := s.heap[i];
    assert e in s.heap;
    NextTestBounds(s.born[e].at, s.born[e].count);
    Heap.RemoveAtMembers(s.heap, i);
    forall d | d in Seqs.RemoveAt(s.heap, i) ensures d.time <= s.clock { assert d in s.heap; }
  }

  // ---------- One broken entry per address ----------

  ghost predicate TaskUnique(task: Task) {
    match task
    case Dns(todo, _, down) => Fresh(todo, down)
    case DnsAskBroken(todo, _, down) => Fresh(todo, down)
    case DnsConnect(todo, _, down) => Fresh(todo, down)
    case DnsSwapHeap(down) => Heap.UniqueIps(down)
    case _ => true
  }

  ghost predicate Fresh(todo: seq<Ip>, down: seq<Delayed>) {
    && Seqs.Distinct(todo)
    && Heap.UniqueIps(down)
    && forall d :: d in down ==> d.ip !in todo
  }

  ghost predicate UniqueHeap(s: State) {
    Heap.UniqueIps(s.heap) && forall t :: t in s.tasks ==> TaskUnique(s.tasks[t])
  }

  /** The resolver names no address twice in one answer. */
  predicate CleanAnswer(a: Step) { a.StartDns? ==> Seqs.Distinct(a.ips) }

  lemma FreshTail(todo: seq<Ip>, down: seq<Delayed>, e: Delayed)
    requires todo != [] && Fresh(todo, down) && e.ip == todo[0]
    ensures Fresh(todo[1..], down) && Fresh(todo[1..], down + [e])
  {
    var tail := todo[1..];
    assert forall ip :: ip in tail ==> ip in todo;
    assert todo[0] in todo && todo[0] !in tail;
    assert forall i :: 0 <= i < |down| ==> down[i] in down;
  }

  lemma DnsUnique(s: State, t: nat, task: Task, answer: Answer)
    requires IsDns(task) && TaskUnique(task) && Heap.UniqueIps(s.heap)
    ensures var u := NextDns(s, t, task, answer);
            Heap.UniqueIps(u.heap) && (t in u.tasks ==> TaskUnique(u.tasks[t]))
  {
    if !task.DnsSwapHeap? && task.todo != [] {
      var ip := task.todo[0];
      FreshTail(task.todo, task.down, FirstFailure(s.clock, ip));
      var known := Heap.Lookup(s.heap, ip);
      if known.Some? { FreshTail(task.todo, task.down, known.value); }
    }
  }

  lemma JobUnique(s: State, job: Job, answer: Answer)
    requires Heap.UniqueIps(s.heap)
    ensures Heap.UniqueIps(JobStep(s, job, answer).0.heap)
  {
    if job.Restamped? { Heap.InsertEffect(s.heap, job.delayed); }
  }

  lemma ReportUnique(s: State, t: nat, task: Task)
    requires Heap.UniqueIps(s.heap) && IsReport(task)
    ensures Heap.UniqueIps(NextReport(s, t, task).heap)
  {
    if task.ReportStamped? { Heap.InsertEffect(s.heap, task.delayed); }
  }

  lemma LookUnique(s: State, i: nat)
    requires Heap.UniqueIps(s.heap) && (s.heap != [] ==> i < |s.heap|)
    ensures Heap.UniqueIps(NextLook(s, i).heap)
  {
    if s.heap != [] { Heap.RemoveAtMembers(s.heap, i); }
  }

  lemma HeapUniqueStep(s: State, a: Step)
    requires UniqueHeap(s) && Enabled(s, a) && !a.DnsStep?
    ensures Heap.UniqueIps(Next(s, a).heap)
  {
    match a {
      case Reorder(h) => Heap.UniqueIsOrderFree(s.heap, h);
      case Look(i) => LookUnique(s, i);
      case ForcedStep(t, answer) => JobUnique(s, s.tasks[t].job, answer);
      case ReportStep(t) => ReportUnique(s, t, s.tasks[t]);
      case DoctorStep(answer) => JobUnique(s, s.doctor.job, answer);
      case _ =>
    }
  }

  lemma UniqueStep(s: State, a: Step)
    requires UniqueHeap(s) && Enabled(s, a) && CleanAnswer(a)
    ensures UniqueHeap(Next(s, a))
  {
    var u := Next(s, a);
    if a.DnsStep? { DnsUnique(s, a.t, s.tasks[a.t], a.answer); } else { HeapUniqueStep(s, a); }
    forall t | t in u.tasks ensures TaskUnique(u.tasks[t]) {
      if Actor(a) != Some(t) { OtherTasksUntouched(s, a, t); }
    }
  }

  /** If no resolver answer repeats an address, the heap never holds two entries for one. */
  lemma {:induction false} HeapUniqueInEveryRun(s: State, run: seq<Step>)
    requires UniqueHeap(s) && CanRun(s, run)
    requires forall k :: 0 <= k < |run| ==> CleanAnswer(run[k])
    ensures UniqueHeap(Run(s, run))
    decreases |run|
  {
    if run != [] {
      UniqueStep(s, run[0]);
      HeapUniqueInEveryRun(Next(s, run[0]), run[1..]);
    }
  }
}
