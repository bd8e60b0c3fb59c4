/** Whole runs of the pool: what is never lost, and which address the doctor tries. */
module PoolRuns {
  import opened Types
  import opened Backoff
  import Seqs
  import opened PoolMachine
  import Ready = ReadyList
  import Heap = BrokenHeap

  // ---------- No address is lost ----------

  function JobIp(job: Job): Ip {
    match job
    case Connecting(address) => address.ip
    case Connected(entry) => entry.ip
    case Restamped(delayed) => delayed.ip
  }

  predicate ReportHolds(task: Task, ip: Ip) {
    (task.Removed? && task.ip == ip) || (task.ReportStamped? && task.delayed.ip == ip)
  }

  ghost predicate InReport(s: State, ip: Ip) { exists t :: t in s.tasks && ReportHolds(s.tasks[t], ip) }

  predicate WithDoctor(s: State, ip: Ip) { s.doctor.Busy? && JobIp(s.doctor.job) == ip }

  /** The pool still knows the address: it is ready, broken, or in flight with the doctor or between
      the two halves of a `report_broken`. Copies held by forced rechecks do not count. */
  ghost predicate Holds(s: State, ip: Ip) {
    Ready.HasIp(s.ready, ip) || Heap.HasIp(s.heap, ip) || WithDoctor(s, ip) || InReport(s, ip)
  }

  /** No DNS result replaces a list, and no `report_broken` is dropped half-way. */
  predicate Conserving(s: State, a: Step)
    requires Enabled(s, a)
  {
    match a
    case DnsStep(t, _) => !s.tasks[t].DnsSwapHeap? && !(s.tasks[t].Dns? && s.tasks[t].todo == [])
    case Cancel(t) => !s.tasks[t].Removed? && !s.tasks[t].ReportStamped?
    case _ => true
  }

  predicate ConservingRun(s: State, run: seq<Step>)
    requires CanRun(s, run)
    decreases |run|
  {
    run == [] || (Conserving(s, run[0]) && ConservingRun(Next(s, run[0]), run[1..]))
  }

  lemma RemoveAtHas(h: seq<Delayed>, i: nat, ip: Ip)
    requires i < |h| && Heap.HasIp(h, ip) && ip != h[i].ip
    ensures Heap.HasIp(Seqs.RemoveAt(h, i), ip)
  {
    Heap.RemoveAtMembers(h, i);
    var j :| 0 <= j < |h| && h[j].ip == ip;
    assert h[j] in Seqs.RemoveAt(h, i);
  }

  lemma SameHas(g: seq<Delayed>, h: seq<Delayed>, ip: Ip)
    requires multiset(g) == multiset(h) && Heap.HasIp(g, ip)
    ensures Heap.HasIp(h, ip)
  {
    var i :| 0 <= i < |g| && g[i].ip == ip;
    assert g[i] in multiset(h);
    var j :| 0 <= j < |h| && h[j] == g[i];
  }

  lemma RemoveHas(es: seq<Entry>, gone: Ip, ip: Ip)
    requires Ready.HasIp(es, ip) && ip != gone
    ensures Ready.HasIp(Ready.Remove(es, gone), ip)
  {
    Ready.RemoveTakesFirst(es, gone);
    Ready.CopiesPositive(es, ip);
    Ready.CopiesPositive(Ready.Remove(es, gone), ip);
  }

  lemma AppendHas(es: seq<Entry>, e: Entry, ip: Ip)
    ensures Ready.HasIp(es + [e], ip) <==> ip == e.ip || Ready.HasIp(es, ip)
  {
    var fs := es + [e];
    assert fs[|es|] == e;
    if i :| 0 <= i < |es| && es[i].ip == ip { assert fs[i].ip == ip; }
    if j :| 0 <= j < |fs| && fs[j].ip == ip && ip != e.ip { assert es[j].ip == ip; }
  }

  /** A step of a recheck keeps every address listed, and finishes by listing its own. */
  lemma JobConserves(s: State, job: Job, answer: Answer, ip: Ip)
    ensures var (u, left) := JobStep(s, job, answer);
            && (Ready.HasIp(s.ready, ip) ==> Ready.HasIp(u.ready, ip))
            && (Heap.HasIp(s.heap, ip) ==> Heap.HasIp(u.heap, ip))
            && u.tasks == s.tasks && u.doctor == s.doctor
            && (left.Some? ==> JobIp(left.value) == JobIp(job))
            && (left.None? && ip == JobIp(job) ==> Ready.HasIp(u.ready, ip) || Heap.HasIp(u.heap, ip))
  {
    match job
    case Connecting(address) =>
    case Connected(entry) => AppendHas(s.ready, entry, ip);
    case Restamped(e) => Heap.InsertHas(s.heap, e, ip);
  }

  lemma InReportKept(s: State, u: State, ip: Ip, t: nat)
    requires InReport(s, ip)
    requires forall o :: o in s.tasks && o != t ==> o in u.tasks && u.tasks[o] == s.tasks[o]
    requires t in s.tasks && ReportHolds(s.tasks[t], ip) ==> Holds(u, ip)
    ensures Holds(u, ip)
  {
    var o :| o in s.tasks && ReportHolds(s.tasks[o], ip);
    if o != t { assert ReportHolds(u.tasks[o], ip); }
  }

  lemma ReportConserves(s: State, t: nat, ip: Ip)
    requires Enabled(s, ReportStep(t)) && Holds(s, ip)
    ensures Holds(Next(s, ReportStep(t)), ip)
  {
    var u := Next(s, ReportStep(t));
    match s.tasks[t] {
      case Report(gone) =>
        assert ReportHolds(u.tasks[t], gone);
        if ip != gone && Ready.HasIp(s.ready, ip) { RemoveHas(s.ready, gone, ip); }
      case Removed(gone) =>
        assert ReportHolds(u.tasks[t], gone);
      case ReportStamped(e) =>
        Heap.InsertHas(s.heap, e, ip);
    }
    if InReport(s, ip) { InReportKept(s, u, ip, t); }
  }

  lemma ForcedConserves(s: State, a: Step, ip: Ip)
    requires a.ForcedStep? && Enabled(s, a) && Holds(s, ip)
    ensures Holds(Next(s, a), ip)
  {
    JobConserves(s, s.tasks[a.t].job, a.answer, ip);
    if InReport(s, ip) { InReportKept(s, Next(s, a), ip, a.t); }
  }

  lemma DoctorConserves(s: State, a: Step, ip: Ip)
    requires (a.DoctorStep? || a.Look? || a.Wake? || a.Timer?) && Enabled(s, a) && Holds(s, ip)
    ensures Holds(Next(s, a), ip)
  {
    var u := Next(s, a);
    if a.DoctorStep? { JobConserves(s, s.doctor.job, a.answer, ip); }
    if a.Look? && s.heap != [] && Heap.HasIp(s.heap, ip) && ip != s.heap[a.i].ip { RemoveAtHas(s.heap, a.i, ip); }
    assert u.tasks == s.tasks;
    if InReport(s, ip) {
      var t :| t in s.tasks && ReportHolds(s.tasks[t], ip);
      assert ReportHolds(u.tasks[t], ip);
    }
  }

  lemma DnsConserves(s: State, a: Step, ip: Ip)
    requires a.DnsStep? && Enabled(s, a) && Conserving(s, a) && Holds(s, ip)
    ensures Holds(Next(s, a), ip)
  {
    var u := Next(s, a);
    assert u.ready == s.ready && u.heap == s.heap && u.doctor == s.doctor;
    if InReport(s, ip) { InReportKept(s, u, ip, a.t); }
  }

  lemma ConservingStep(s: State, a: Step, ip: Ip)
    requires Enabled(s, a) && Conserving(s, a) && Holds(s, ip)
    ensures Holds(Next(s, a), ip)
  {
    match a {
      case DnsStep(_, _) => DnsConserves(s, a, ip);
      case ForcedStep(_, _) => ForcedConserves(s, a, ip);
      case ReportStep(t) => ReportConserves(s, t, ip);
      case DoctorStep(_) => DoctorConserves(s, a, ip);
      case Look(_) => DoctorConserves(s, a, ip);
      case Wake => DoctorConserves(s, a, ip);
      case Timer => DoctorConserves(s, a, ip);
      case Reorder(h) =>
        if Heap.HasIp(s.heap, ip) { SameHas(s.heap, h, ip); }
        if InReport(s, ip) { InReportElsewhere(s, Next(s, a), ip); }
      case StartDns(t, _) => if InReport(s, ip) { InReportKept(s, Next(s, a), ip, t); }
      case StartForced(t, _) => if InReport(s, ip) { InReportKept(s, Next(s, a), ip, t); }
      case StartReport(t, _) => if InReport(s, ip) { InReportKept(s, Next(s, a), ip, t); }
      case Cancel(t) => if InReport(s, ip) { InReportKept(s, Next(s, a), ip, t); }
      case _ => if InReport(s, ip) { InReportElsewhere(s, Next(s, a), ip); }
    }
  }

  lemma InReportElsewhere(s: State, u: State, ip: Ip)
    requires InReport(s, ip) && u.tasks == s.tasks
    ensures InReport(u, ip)
  {
    var t :| t in s.tasks && ReportHolds(s.tasks[t], ip);
    assert t in u.tasks && ReportHolds(u.tasks[t], ip);
  }

  /** As long as no DNS result is installed (during a resolver outage, say) and reports run to their
      end, no address the pool knows is ever lost, however everything else interleaves. */
  lemma {:induction false} NoAddressLost(s: State, run: seq<Step>, ip: Ip)
    requires CanRun(s, run) && ConservingRun(s, run) && Holds(s, ip)
    ensures Holds(Run(s, run), ip)
    decreases |run|
  {
    if run != [] {
      ConservingStep(s, run[0], ip);
      NoAddressLost(Next(s, run[0]), run[1..], ip);
    }
  }

  // ---------- The doctor's choice ----------

  /** No task but the doctor inserts into the heap or replaces it, and the doctor's connects fail.
      Callers, reports, forced rechecks and DNS checks may all be on their way. */
  predicate LeavesHeap(s: State, a: Step)
    requires Enabled(s, a)
  {
    match a
    case DnsStep(t, _) => !s.tasks[t].DnsSwapHeap?
    case ForcedStep(t, _) => !s.tasks[t].job.Restamped?
    case ReportStep(t) => !s.tasks[t].ReportStamped?
    case DoctorStep(answer) => s.doctor.job.Connecting? ==> answer.Refused?
    case _ => true
  }

  predicate HeapLeft(s: State, run: seq<Step>)
    requires CanRun(s, run)
    decreases |run|
  {
    run == [] || (LeavesHeap(s, run[0]) && HeapLeft(Next(s, run[0]), run[1..]))
  }

  /** `d` is what the doctor is busy with or will pop next. */
  ghost predicate Dominates(s: State, d: Ip) {
    match s.doctor
    case Busy(Connecting(address)) => address.ip == d && forall x :: x in s.heap ==> x.time <= s.clock
    case Busy(Restamped(e)) => e.ip == d && forall x :: x in s.heap ==> x.time < e.time
    case Busy(Connected(_)) => false
    case _ => exists top :: top in s.heap && top.ip == d && forall x :: x in s.heap ==> x == top || x.time < top.time
  }

  lemma PopDominates(s: State, i: nat)
    requires Pops(s, Look(i))
    ensures i < |s.heap| && Dominates(Next(s, Look(i)), s.heap[i].ip)
  {
    PopTakesLatestDue(s, i);
    Heap.RemoveAtMembers(s.heap, i);
    forall x | x in Seqs.RemoveAt(s.heap, i) ensures x.time <= s.clock {
      assert x in s.heap;
    }
  }

  lemma PopIsDominant(s: State, i: nat, d: Ip)
    requires Pops(s, Look(i)) && Dominates(s, d)
    ensures i < |s.heap| && s.heap[i].ip == d && JobIp(Next(s, Look(i)).doctor.job) == d
  {
    PopTakesLatestDue(s, i);
    var top :| top in s.heap && top.ip == d && forall x :: x in s.heap ==> x == top || x.time < top.time;
    assert s.heap[i] in s.heap && Leq(top, s.heap[i]);
  }

  lemma FailedConnectDominates(s: State, d: Ip)
    requires s.doctor.Busy? && Dominates(s, d)
    ensures Dominates(Next(s, DoctorStep(Refused)), d)
    ensures forall x :: x in s.heap && x.ip != d ==> x in Next(s, DoctorStep(Refused)).heap
  {
    if s.doctor.job.Connecting? {
      NextTestBounds(s.clock, Bumped(FailedTimes(s.doctor.job.address)));
    } else {
      var e := s.doctor.job.delayed;
      Heap.InsertEffect(s.heap, e);
      assert e in Next(s, DoctorStep(Refused)).heap;
    }
  }

  lemma LookDominates(s: State, i: nat, d: Ip)
    requires Dominates(s, d) && Enabled(s, Look(i))
    ensures Dominates(Next(s, Look(i)), d)
    ensures forall x :: x in s.heap && x.ip != d ==> x in Next(s, Look(i)).heap
  {
    if Pops(s, Look(i)) {
      PopIsDominant(s, i, d);
      PopDominates(s, i);
      Heap.RemoveAtMembers(s.heap, i);
    }
  }

  lemma ReorderDominates(s: State, h: seq<Delayed>, d: Ip)
    requires Dominates(s, d) && multiset(h) == multiset(s.heap)
    ensures Dominates(s.(heap := h), d)
    ensures forall x :: x in s.heap ==> x in h
  {
    assert forall x :: x in h <==> x in multiset(h);
    assert forall x :: x in s.heap <==> x in multiset(s.heap);
  }

  lemma OthersLeaveHeap(s: State, a: Step)
    requires Enabled(s, a) && LeavesHeap(s, a)
    requires !a.DoctorStep? && !a.Look? && !a.Reorder? && !a.Wake? && !a.Timer?
    ensures Next(s, a).heap == s.heap && Next(s, a).doctor == s.doctor && Next(s, a).clock >= s.clock
  {}

  /** Past its connect, the doctor takes no notice of the answer. */
  lemma RestampedPushes(s: State, a: Step)
    requires a.DoctorStep? && Enabled(s, a) && !s.doctor.job.Connecting?
    ensures Next(s, a) == Next(s, DoctorStep(Refused))
  {}

  lemma DominanceStep(s: State, a: Step, d: Ip)
    requires Dominates(s, d) && Enabled(s, a) && LeavesHeap(s, a)
    ensures Dominates(Next(s, a), d)
    ensures forall x :: x in s.heap && x.ip != d ==> x in Next(s, a).heap
  {
    match a {
      case DoctorStep(answer) => if answer.Refused? { FailedConnectDominates(s, d); } else { RestampedPushes(s, a); }
      case Look(i) => LookDominates(s, i, d);
      case Reorder(h) => ReorderDominates(s, h, d);
      case Wake =>
      case Timer =>
      case _ => OthersLeaveHeap(s, a);
    }
  }

  /** Every entry handed out along the run is for `d`. */
  predicate EveryPopIs(s: State, run: seq<Step>, d: Ip)
    requires CanRun(s, run)
    decreases |run|
  {
    run == [] || ((Pops(s, run[0]) ==> JobIp(Next(s, run[0]).doctor.job) == d)
                  && EveryPopIs(Next(s, run[0]), run[1..], d))
  }

  lemma {:induction false} DominanceRun(s: State, run: seq<Step>, d: Ip)
    requires Dominates(s, d) && CanRun(s, run) && HeapLeft(s, run)
    ensures EveryPopIs(s, run, d)
    ensures forall x :: x in s.heap && x.ip != d ==> x in Run(s, run).heap
    decreases |run|
  {
    if run != [] {
      var a := run[0];
      if Pops(s, a) { PopIsDominant(s, a.i, d); }
      DominanceStep(s, a, d);
      DominanceRun(Next(s, a), run[1..], d);
    }
  }

  /** The heap hands out its latest entry, and a failed recheck makes that entry later still. So
      once an address has been handed out, then for as long as its connects fail and no other task
      inserts into the heap or replaces it, whatever else such tasks do, the doctor hands out no
      other address, and every other entry just stays. */
  lemma DoctorStaysWithOneAddress(s: State, i: nat, run: seq<Step>)
    requires Pops(s, Look(i)) && CanRun(Next(s, Look(i)), run) && HeapLeft(Next(s, Look(i)), run)
    ensures var d := JobIp(Next(s, Look(i)).doctor.job);
            && EveryPopIs(Next(s, Look(i)), run, d)
            && forall x :: x in s.heap && x.ip != d ==> x in Run(Next(s, Look(i)), run).heap
  {
    PopTakesLatestDue(s, i);
    PopDominates(s, i);
    DominanceRun(Next(s, Look(i)), run, s.heap[i].ip);
    Heap.RemoveAtMembers(s.heap, i);
  }
}
