/** How the backoff of an address grows in the concurrent pool (pool.rs, broken_endpoints.rs). */
module BackoffRuns {
  import opened Types
  import opened Backoff
  import Seqs
  import opened PoolMachine
  import PoolSafety
  import opened PoolRuns
  import opened PoolWitness
  import Heap = BrokenHeap
  import Ready = ReadyList

  // ---------- One failed recheck ----------

  /** A refused connect is stamped as one failure more; the lists are not touched yet. */
  lemma RefusedIsStamped(s: State, e: Delayed)
    ensures var (u, left) := JobStep(s, Connecting(e), Refused);
            && left.Some? && left.value.Restamped?
            && Heap.OneMoreFailure(left.value.delayed, e, s.clock)
            && u == s.(born := u.born)
  {
    Heap.NextFailureIsOneMore(e, s.clock);
  }

  /** The doctor's recheck that fails, undisturbed: the entry it had popped is back, alone for its
      address, with one failure more and that count's backoff; all else stays, and a permit is set. */
  lemma DoctorRenews(s: State, e: Delayed)
    requires s.doctor == Busy(Connecting(e))
    ensures var run := [DoctorStep(Refused), DoctorStep(Refused)];
            && CanRun(s, run)
            && var u := Run(s, run);
               && Heap.Renewed(s.heap, u.heap, e, s.clock)
               && u.permit && u.doctor == Looking && u.ready == s.ready && u.tasks == s.tasks && u.clock == s.clock
  {
    var step := DoctorStep(Refused);
    RefusedIsStamped(s, e);
    var d := JobStep(s, Connecting(e), Refused).1.value.delayed;
    var s1 := Next(s, step);
    var u := Next(s1, step);
    Heap.InsertRenews(s.heap, d, e, s.clock);
    OneStep(s1, step, [], u);
    OneStep(s, step, [step], s1);
    assert [step] + [step] == [step, step];
  }

  /** And likewise one future of a forced recheck, which had only copied the entry. */
  lemma ForcedRenews(s: State, t: nat, e: Delayed)
    requires t in s.tasks && s.tasks[t] == Forced(Connecting(e))
    ensures var run := [ForcedStep(t, Refused), ForcedStep(t, Refused)];
            && CanRun(s, run)
            && var u := Run(s, run);
               && Heap.Renewed(s.heap, u.heap, e, s.clock)
               && u.permit && u.tasks == s.tasks - {t} && u.ready == s.ready && u.doctor == s.doctor
               && u.clock == s.clock
  {
    var step := ForcedStep(t, Refused);
    RefusedIsStamped(s, e);
    var d := JobStep(s, Connecting(e), Refused).1.value.delayed;
    var s1 := Next(s, step);
    assert s1.tasks == s.tasks[t := Forced(Restamped(d))] && s1 == s.(born := s1.born, tasks := s1.tasks);
    var u := Next(s1, step);
    assert u == s1.(heap := Heap.Insert(s.heap, d), permit := true, tasks := s1.tasks - {t});
    Heap.InsertRenews(s.heap, d, e, s.clock);
    OneStep(s1, step, [], u);
    OneStep(s, step, [step], s1);
    assert [step] + [step] == [step, step];
    assert u.tasks == s.tasks - {t};
  }

  // ---------- A run of failed rounds ----------

  /** The entry for `ip`, in the heap or with the doctor, counts n failures. */
  ghost predicate Counts(s: State, ip: Ip, n: U8) {
    && Heap.UniqueIps(s.heap)
    && if WithDoctor(s, ip) then
         && !Heap.HasIp(s.heap, ip)
         && match s.doctor.job
            case Connecting(address) => FailedTimes(address) == n
            case Restamped(delayed) => FailedTimes(delayed) == n
            case Connected(_) => false
       else
         && Heap.HasIp(s.heap, ip)
         && forall d :: d in s.heap && d.ip == ip ==> FailedTimes(d) == n
  }

  /** A connect of the doctor to `ip` fails in this step. */
  predicate FailsIn(s: State, a: Step, ip: Ip)
    requires Enabled(s, a)
  {
    a.DoctorStep? && a.answer.Refused? && s.doctor.job.Connecting? && s.doctor.job.address.ip == ip
  }

  /** No DNS check installs its heap, no other task inserts an entry for `ip`, and the doctor's connects
      to it fail. */
  predicate LeavesEntry(s: State, a: Step, ip: Ip)
    requires Enabled(s, a)
  {
    match a
    case DnsStep(t, _) => !s.tasks[t].DnsSwapHeap?
    case ForcedStep(t, _) => s.tasks[t].job.Restamped? ==> s.tasks[t].job.delayed.ip != ip
    case ReportStep(t) => s.tasks[t].ReportStamped? ==> s.tasks[t].delayed.ip != ip
    case DoctorStep(answer) => WithDoctor(s, ip) && s.doctor.job.Connecting? ==> answer.Refused?
    case _ => true
  }

  predicate EntryLeft(s: State, run: seq<Step>, ip: Ip)
    requires CanRun(s, run)
    decreases |run|
  {
    run == [] || (LeavesEntry(s, run[0], ip) && EntryLeft(Next(s, run[0]), run[1..], ip))
  }

  /** How many of the doctor's connects to `ip` fail in the run. */
  function Failed(s: State, run: seq<Step>, ip: Ip): nat
    requires CanRun(s, run)
    decreases |run|
  {
    if run == [] then 0 else (if FailsIn(s, run[0], ip) then 1 else 0) + Failed(Next(s, run[0]), run[1..], ip)
  }

  lemma OtherInserted(s: State, u: State, e: Delayed, ip: Ip, n: U8)
    requires Counts(s, ip, n) && e.ip != ip
    requires u.heap == Heap.Insert(s.heap, e)
    requires WithDoctor(u, ip) == WithDoctor(s, ip) && (WithDoctor(s, ip) ==> u.doctor == s.doctor)
    ensures Counts(u, ip, n)
  {
    Heap.InsertEffect(s.heap, e);
    Heap.InsertHas(s.heap, e, ip);
  }

  lemma ReorderCounts(s: State, h: seq<Delayed>, ip: Ip, n: U8)
    requires Counts(s, ip, n) && multiset(h) == multiset(s.heap)
    ensures Counts(s.(heap := h), ip, n)
  {
    Heap.UniqueIsOrderFree(s.heap, h);
    PoolSafety.SameMembers(s.heap, h);
    if Heap.HasIp(s.heap, ip) { SameHas(s.heap, h, ip); }
    if Heap.HasIp(h, ip) { SameHas(h, s.heap, ip); }
  }

  lemma LookCounts(s: State, i: nat, ip: Ip, n: U8)
    requires Counts(s, ip, n) && Enabled(s, Look(i))
    ensures Counts(Next(s, Look(i)), ip, n)
  {
    if s.heap != [] && s.clock >= s.heap[i].time {
      Heap.RemoveAtMembers(s.heap, i);
      if s.heap[i].ip != ip { RemoveAtHas(s.heap, i, ip); }
    }
  }

  lemma DoctorCounts(s: State, a: Step, ip: Ip, n: U8)
    requires Counts(s, ip, n) && a.DoctorStep? && Enabled(s, a) && LeavesEntry(s, a, ip)
    ensures Counts(Next(s, a), ip, if FailsIn(s, a, ip) then (n + 1) % 256 else n)
  {
    match s.doctor.job
    case Connecting(address) =>
      if a.answer.Refused? { RefusedIsStamped(s, address); }
    case Connected(_) =>
    case Restamped(e) =>
      Heap.InsertEffect(s.heap, e);
      Heap.InsertHas(s.heap, e, ip);
  }

  lemma CountsStep(s: State, a: Step, ip: Ip, n: U8)
    requires Counts(s, ip, n) && Enabled(s, a) && LeavesEntry(s, a, ip)
    ensures Counts(Next(s, a), ip, if FailsIn(s, a, ip) then (n + 1) % 256 else n)
  {
    match a {
      case DoctorStep(_) => DoctorCounts(s, a, ip, n);
      case Look(i) => LookCounts(s, i, ip, n);
      case Reorder(h) => ReorderCounts(s, h, ip, n);
      case ForcedStep(t, _) =>
        if s.tasks[t].job.Restamped? { OtherInserted(s, Next(s, a), s.tasks[t].job.delayed, ip, n); }
      case ReportStep(t) =>
        if s.tasks[t].ReportStamped? { OtherInserted(s, Next(s, a), s.tasks[t].delayed, ip, n); }
      case Wake =>
      case Timer =>
      case _ => assert Next(s, a).heap == s.heap && Next(s, a).doctor == s.doctor;
    }
  }

  lemma Wraps(n: nat, k: nat)
    ensures ((n + 1) % 256 + k) % 256 == (n + 1 + k) % 256
  {}

  /** In every run in which nothing else inserts an entry for the address, or installs a heap, each
      failed connect of the doctor adds one to its count, as a `u8`. */
  lemma {:induction false} EachFailureCounts(s: State, run: seq<Step>, ip: Ip, n: U8)
    requires Counts(s, ip, n) && CanRun(s, run) && EntryLeft(s, run, ip)
    ensures Counts(Run(s, run), ip, (n + Failed(s, run, ip)) % 256)
    decreases |run|
  {
    if run != [] {
      var m := if FailsIn(s, run[0], ip) then (n + 1) % 256 else n;
      CountsStep(s, run[0], ip, n);
      EachFailureCounts(Next(s, run[0]), run[1..], ip, m);
      Wraps(n, Failed(Next(s, run[0]), run[1..], ip));
    }
  }

  lemma AfterReport(s: State, r: nat, ip: Ip)
    requires r !in s.tasks && Heap.UniqueIps(s.heap) && !WithDoctor(s, ip)
    ensures CanRun(s, Reporting(r, ip)) && Counts(Run(s, Reporting(r, ip)), ip, 1)
  {
    ReportInSteps(s, r, ip);
    Heap.InsertEffect(s.heap, FirstFailure(s.clock, ip));
    Heap.InsertHas(s.heap, FirstFailure(s.clock, ip), ip);
    NextTestBounds(s.clock, 1);
  }

  lemma NotWrapped(k: nat)
    requires k <= 254
    ensures (1 + k) % 256 == k + 1
  {}

  /** After a report and k failed rounds of the doctor the entry counts k + 1, whatever interleaves. */
  lemma FailuresAfterReport(s: State, r: nat, ip: Ip, u: State, run: seq<Step>)
    requires r !in s.tasks && Heap.UniqueIps(s.heap) && !WithDoctor(s, ip)
    requires CanRun(s, Reporting(r, ip)) && u == Run(s, Reporting(r, ip))
    requires CanRun(u, run) && EntryLeft(u, run, ip) && Failed(u, run, ip) <= 254
    ensures Counts(Run(u, run), ip, Failed(u, run, ip) + 1)
  {
    AfterReport(s, r, ip);
    EachFailureCounts(u, run, ip, 1);
    NotWrapped(Failed(u, run, ip));
  }
}
