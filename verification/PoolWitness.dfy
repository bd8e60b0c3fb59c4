/** The sequential operations as runs of the pool's steps, and runs in which a guarantee fails as soon
    as its guard is dropped. */
module PoolWitness {
  import opened Types
  import opened Backoff
  import opened PoolMachine
  import opened PoolRuns
  import opened ReadyRuns
  import Ready = ReadyList
  import Heap = BrokenHeap
  import Pool

  // ---------- check_dns, undisturbed ----------

  /** The failures among the attempts are noticed at non-decreasing readings from `clock` on. */
  predicate Timely(attempts: seq<Pool.Attempt>, clock: Instant) {
    attempts == [] ||
    match attempts[0]
    case Connected(_) => Timely(attempts[1..], clock)
    case Refused(at) => clock <= at && Timely(attempts[1..], at)
  }

  function ToAnswer(attempt: Pool.Attempt): Answer {
    match attempt
    case Connected(id) => Ok(id)
    case Refused(_) => Refused
  }

  predicate OwnSteps(run: seq<Step>, t: nat) {
    forall k :: 0 <= k < |run| ==> run[k].Advance? || (run[k].DnsStep? && run[k].t == t)
  }

  /** The shared lists are untouched, and task t, the only one to move, is at `task`. */
  ghost predicate OnlyTask(s: State, u: State, t: nat, task: Task) {
    SameShared(s, u) && t in u.tasks && u.tasks[t] == task && u.tasks - {t} == s.tasks - {t}
  }

  ghost predicate AtAddress(s: State, t: nat, task: Task) {
    t in s.tasks && s.tasks[t] == task && IsDns(task) && !task.DnsSwapHeap? && task.todo != []
  }

  lemma ConnectInStep(s: State, t: nat, task: Task, attempt: Pool.Attempt) returns (u: State)
    requires AtAddress(s, t, task) && task.DnsConnect?
    requires attempt.Refused? ==> s.clock == attempt.at
    requires !Ready.HasIp(s.ready, task.todo[0]) && !Heap.HasIp(s.heap, task.todo[0])
    ensures u == Next(s, DnsStep(t, ToAnswer(attempt))) && u.clock == s.clock
    ensures var p := Pool.Put(Pool.Lists(task.up, task.down), Pool.Place(task.todo[0], attempt, s.ready, s.heap));
            OnlyTask(s, u, t, Dns(task.todo[1..], p.ready, p.broken))
  {
    u := Next(s, DnsStep(t, ToAnswer(attempt)));
  }

  lemma AskInSteps(s: State, t: nat, task: Task, attempt: Pool.Attempt) returns (run: seq<Step>)
    requires AtAddress(s, t, task) && task.DnsAskBroken?
    requires attempt.Refused? ==> s.clock == attempt.at
    requires !Ready.HasIp(s.ready, task.todo[0])
    ensures CanRun(s, run) && OwnSteps(run, t) && Run(s, run).clock == s.clock
    ensures var p := Pool.Put(Pool.Lists(task.up, task.down), Pool.Place(task.todo[0], attempt, s.ready, s.heap));
            OnlyTask(s, Run(s, run), t, Dns(task.todo[1..], p.ready, p.broken))
  {
    var step := DnsStep(t, ToAnswer(attempt));
    var s1 := Next(s, step);
    if Heap.HasIp(s.heap, task.todo[0]) {
      OneStep(s, step, [], s1);
      run := [step] + [];
    } else {
      var s2 := ConnectInStep(s1, t, DnsConnect(task.todo, task.up, task.down), attempt);
      OneStep(s1, step, [], s2);
      OneStep(s, step, [step] + [], s1);
      run := [step] + ([step] + []);
    }
  }

  lemma PlaceNow(s: State, t: nat, task: Task, attempt: Pool.Attempt) returns (run: seq<Step>)
    requires AtAddress(s, t, task) && task.Dns?
    requires attempt.Refused? ==> s.clock == attempt.at
    ensures CanRun(s, run) && OwnSteps(run, t) && Run(s, run).clock == s.clock
    ensures var p := Pool.Put(Pool.Lists(task.up, task.down), Pool.Place(task.todo[0], attempt, s.ready, s.heap));
            OnlyTask(s, Run(s, run), t, Dns(task.todo[1..], p.ready, p.broken))
  {
    var step := DnsStep(t, ToAnswer(attempt));
    var s1 := Next(s, step);
    if Ready.HasIp(s.ready, task.todo[0]) {
      OneStep(s, step, [], s1);
      run := [step] + [];
    } else {
      var rest := AskInSteps(s1, t, DnsAskBroken(task.todo, task.up, task.down), attempt);
      OneStep(s, step, rest, s1);
      run := [step] + rest;
    }
  }

  /** One address: at most an advance of the clock and three steps, to where `Place` puts it. */
  lemma PlaceInSteps(s: State, t: nat, task: Task, attempt: Pool.Attempt) returns (run: seq<Step>)
    requires AtAddress(s, t, task) && task.Dns?
    requires attempt.Refused? ==> s.clock <= attempt.at
    ensures CanRun(s, run) && OwnSteps(run, t)
    ensures Run(s, run).clock == if attempt.Refused? then attempt.at else s.clock
    ensures var p := Pool.Put(Pool.Lists(task.up, task.down), Pool.Place(task.todo[0], attempt, s.ready, s.heap));
            OnlyTask(s, Run(s, run), t, Dns(task.todo[1..], p.ready, p.broken))
  {
    if attempt.Refused? {
      var wait := Advance(attempt.at - s.clock);
      var s0 := Next(s, wait);
      var rest := PlaceNow(s0, t, task, attempt);
      OneStep(s, wait, rest, s0);
      run := [wait] + rest;
    } else {
      run := PlaceNow(s, t, task, attempt);
    }
  }

  predicate SameShared(s: State, u: State) {
    u.ready == s.ready && u.heap == s.heap && u.permit == s.permit && u.doctor == s.doctor && u.index == s.index
  }

  lemma {:induction false} ScanInSteps(s: State, t: nat, ips: seq<Ip>, attempts: seq<Pool.Attempt>, i: nat)
    returns (run: seq<Step>)
    requires i <= |ips| == |attempts| && t in s.tasks
    requires var p := Pool.Scan(ips[..i], attempts[..i], s.ready, s.heap);
             s.tasks[t] == Dns(ips[i..], p.ready, p.broken)
    requires Timely(attempts[i..], s.clock)
    ensures CanRun(s, run) && OwnSteps(run, t)
    ensures var u := Run(s, run);
            var p := Pool.Scan(ips, attempts, s.ready, s.heap);
            OnlyTask(s, u, t, Dns([], p.ready, p.broken))
    decreases |ips| - i
  {
    if i == |ips| {
      run := [];
      assert ips[..i] == ips && attempts[..i] == attempts;
    } else {
      assert ips[i..][1..] == ips[i + 1..] && attempts[i..][1..] == attempts[i + 1..];
      Pool.ScanSnoc(ips, attempts, s.ready, s.heap, i);
      var first := PlaceInSteps(s, t, s.tasks[t], attempts[i]);
      var rest := ScanInSteps(Run(s, first), t, ips, attempts, i + 1);
      RunConcat(s, first, rest);
      run := first + rest;
    }
  }

  /** The two `replace_with` calls that end a check. */
  lemma SwapInSteps(s: State, t: nat, up: seq<Entry>, down: seq<Delayed>)
    requires t in s.tasks && s.tasks[t] == Dns([], up, down)
    ensures var run := [DnsStep(t, Refused), DnsStep(t, Refused)];
            && CanRun(s, run)
            && Run(s, run) == s.(ready := up, heap := down, permit := s.permit || down != [], tasks := s.tasks - {t})
  {
    var step := DnsStep(t, Refused);
    var s1 := Next(s, step);
    var s2 := Next(s1, step);
    OneStep(s1, step, [], s2);
    OneStep(s, step, [step], s1);
    assert s2.tasks == s.tasks - {t};
  }

  /** Run without interruption, the step machine's DNS task does to the shared lists exactly what
      the contract of `ManagedChannelPool.CheckDns` says. */
  lemma UndisturbedCheckDns(s: State, t: nat, ips: seq<Ip>, attempts: seq<Pool.Attempt>) returns (run: seq<Step>)
    requires t !in s.tasks && |attempts| == |ips| && Timely(attempts, s.clock)
    ensures CanRun(s, run)
    ensures |run| > 0 && run[0] == StartDns(t, ips) && OwnSteps(run[1..], t)
    ensures var u := Run(s, run);
            var p := Pool.Scan(ips, attempts, s.ready, s.heap);
            && u.ready == p.ready && u.heap == p.broken && u.permit == (s.permit || p.broken != [])
            && u.doctor == s.doctor && u.index == s.index && u.tasks == s.tasks
  {
    var start := StartDns(t, ips);
    var s1 := Next(s, start);
    assert ips[0..] == ips && attempts[0..] == attempts;
    var scan := ScanInSteps(s1, t, ips, attempts, 0);
    var p := Pool.Scan(ips, attempts, s.ready, s.heap);
    var swap := [DnsStep(t, Refused), DnsStep(t, Refused)];
    SwapInSteps(Run(s1, scan), t, p.ready, p.broken);
    RunConcat(s1, scan, swap);
    OneStep(s, start, scan + swap, s1);
    run := [start] + (scan + swap);
    assert run[1..] == scan + swap;
    assert s1.tasks - {t} == s.tasks;
  }

  // ---------- report_broken, undisturbed ----------

  function Reporting(r: nat, ip: Ip): seq<Step> { [StartReport(r, ip), ReportStep(r), ReportStep(r), ReportStep(r)] }

  /** `report_broken` from start to end. */
  lemma ReportInSteps(s: State, r: nat, ip: Ip)
    requires r !in s.tasks
    ensures var run := Reporting(r, ip);
            && CanRun(s, run)
            && var u := Run(s, run);
               && u.ready == Ready.Remove(s.ready, ip)
               && u.heap == Heap.Insert(s.heap, FirstFailure(s.clock, ip))
               && u.permit && u.tasks == s.tasks && u.doctor == s.doctor && u.clock == s.clock
  {
    var step := ReportStep(r);
    var s1 := Next(s, StartReport(r, ip));
    var s2 := Next(s1, step);
    var s3 := Next(s2, step);
    var s4 := Next(s3, step);
    OneStep(s3, step, [], s4);
    OneStep(s2, step, [step], s3);
    OneStep(s1, step, [step, step], s2);
    OneStep(s, StartReport(r, ip), [step, step, step], s1);
    assert [StartReport(r, ip)] + [step, step, step] == [StartReport(r, ip), step, step, step];
    assert s4.tasks == s.tasks;
  }

  /** After a report, the address is kept from every caller until somebody connects to it anew exactly
      when it was listed at most once and no task in flight carried it. */
  lemma ReportedStaysOutIff(s: State, r: nat, ip: Ip)
    requires r !in s.tasks
    ensures CanRun(s, Reporting(r, ip))
    ensures KeptOut(Run(s, Reporting(r, ip)), ip) <==> Ready.Copies(s.ready, ip) <= 1 && !Carried(s, ip)
  {
    ReportInSteps(s, r, ip);
    Ready.RemoveIsCompleteIff(s.ready, ip);
    KeptOutIff(Run(s, Reporting(r, ip)), ip);
  }

  // ---------- next_broken_ip_address, undisturbed ----------

  predicate Later(readings: seq<Instant>, clock: Instant) {
    readings == [] || (clock <= readings[0] && Later(readings[1..], readings[0]))
  }

  predicate DoctorsOwn(run: seq<Step>) {
    forall k :: 0 <= k < |run| ==> run[k].Advance? || run[k].Look? || run[k].Timer?
  }

  /** From s the doctor has come to u as the readings decide. */
  ghost predicate DoctorDid(s: State, u: State, readings: seq<Instant>, r: Option<Delayed>, n: nat) {
    && u.ready == s.ready && u.tasks == s.tasks
    && (r.Some? ==>
          && Heap.HandedOut(s.heap, readings, n, r.value)
          && u.doctor == Busy(Connecting(r.value)) && u.clock == readings[n - 1]
          && multiset(u.heap) == multiset(s.heap) - multiset{r.value})
    && (r.None? ==> Heap.NothingDue(s.heap, readings) && u.heap == s.heap && !u.doctor.Busy?)
  }

  /** The doctor's waiting loop as the machine's steps: one look at each reading, and the end of a
      sleep between two. It hands out the entry, at the reading, that the contract of
      `BrokenEndpoints.NextBrokenIpAddress` determines. */
  lemma UndisturbedDoctor(s: State, readings: seq<Instant>) returns (run: seq<Step>, r: Option<Delayed>, n: nat)
    requires s.doctor.Looking? && Later(readings, s.clock)
    ensures CanRun(s, run) && DoctorsOwn(run) && DoctorDid(s, Run(s, run), readings, r, n)
  {
    if s.heap == [] {
      run, r, n := [], None, 0;
    } else {
      run, r, n := LooksInSteps(s, readings, 0);
    }
  }

  lemma {:induction false} LooksInSteps(s: State, readings: seq<Instant>, k: nat)
    returns (run: seq<Step>, r: Option<Delayed>, n: nat)
    requires s.heap != [] && s.doctor.Looking? && k <= |readings| && Later(readings[k..], s.clock)
    requires forall j :: 0 <= j < k ==> readings[j] < Heap.Max(s.heap).time
    ensures CanRun(s, run) && DoctorsOwn(run) && DoctorDid(s, Run(s, run), readings, r, n)
    decreases |readings| - k
  {
    if k == |readings| {
      run, r, n := [], None, 0;
    } else {
      if readings[k] >= Heap.Max(s.heap).time {
        var u;
        run, u := LookOnce(s, readings[k]);
        r, n := Some(Heap.Max(s.heap)), k + 1;
      } else {
        var first, next := LookInVain(s, readings[k]);
        assert readings[k..][1..] == readings[k + 1..];
        var rest;
        rest, r, n := LooksInSteps(next, readings, k + 1);
        SameBefore(s, next, Run(next, rest), readings, r, n);
        RunConcat(s, first, rest);
        run := first + rest;
      }
    }
  }

  lemma LookInVain(s: State, now: Instant) returns (run: seq<Step>, next: State)
    requires s.heap != [] && s.doctor.Looking? && s.clock <= now < Heap.Max(s.heap).time
    ensures CanRun(s, run) && DoctorsOwn(run) && Run(s, run) == next
    ensures next.doctor.Looking? && next.clock == now
    ensures next.heap == s.heap && next.ready == s.ready && next.tasks == s.tasks
  {
    var u;
    run, u := LookOnce(s, now);
    next := AndThen(s, run, Timer);
    run := run + [Timer];
  }

  lemma SameBefore(s: State, next: State, u: State, readings: seq<Instant>, r: Option<Delayed>, n: nat)
    requires next.heap == s.heap && next.ready == s.ready && next.tasks == s.tasks
    requires DoctorDid(next, u, readings, r, n)
    ensures DoctorDid(s, u, readings, r, n)
  {}

  lemma LookOnce(s: State, now: Instant) returns (run: seq<Step>, u: State)
    requires s.heap != [] && s.doctor.Looking? && s.clock <= now
    ensures CanRun(s, run) && DoctorsOwn(run) && Run(s, run) == u
    ensures var top := Heap.Max(s.heap);
            && u.ready == s.ready && u.tasks == s.tasks && u.clock == now
            && (now < top.time ==> u.heap == s.heap && u.doctor == ParkedTimer(top))
            && (now >= top.time ==> u.doctor == Busy(Connecting(top))
                                    && multiset(u.heap) == multiset(s.heap) - multiset{top})
  {
    var top := Heap.Max(s.heap);
    var i :| 0 <= i < |s.heap| && s.heap[i] == top;
    var wait := Advance(now - s.clock);
    var s1 := Next(s, wait);
    assert s1 == s.(clock := now);
    u := LookAt(s1, i);
    OneStep(s1, Look(i), [], u);
    OneStep(s, wait, [Look(i)] + [], s1);
    run := [wait] + ([Look(i)] + []);
  }

  lemma LookAt(s: State, i: nat) returns (u: State)
    requires s.doctor.Looking? && Heap.IsMax(s.heap, i)
    ensures Enabled(s, Look(i)) && u == Next(s, Look(i))
    ensures u.ready == s.ready && u.tasks == s.tasks && u.clock == s.clock
    ensures s.clock < s.heap[i].time ==> u.heap == s.heap && u.doctor == ParkedTimer(s.heap[i])
    ensures s.clock >= s.heap[i].time ==> u.doctor == Busy(Connecting(s.heap[i]))
                                          && multiset(u.heap) == multiset(s.heap) - multiset{s.heap[i]}
  {
    u := Next(s, Look(i));
    Heap.RemoveAtContents(s.heap, i);
  }

  function TwoReports(a: Ip, b: Ip): seq<Step> {
    Reporting(0, a) + [Advance(NANOS_PER_SEC)] + Reporting(0, b) + [Advance(2 * NANOS_PER_SEC)] + [Look(1)]
  }

  /** Two reports a second apart, and then a doctor that looks once both entries are due: it is handed
      the later one. From then on, as long as connects to that address fail and no other task inserts
      into the heap, the earlier one, overdue, is never tried. */
  lemma LatestFirstFromStart(clock: Instant, a: Ip, b: Ip)
    requires a != b
    ensures CanRun(Init(clock), TwoReports(a, b))
    ensures var early, late := FirstFailure(clock, a), FirstFailure(clock + NANOS_PER_SEC, b);
            var u := Run(Init(clock), TwoReports(a, b));
            && early.time < late.time <= u.clock
            && u.doctor == Busy(Connecting(late)) && u.heap == [early]
            && forall rest | CanRun(u, rest) && HeapLeft(u, rest) ::
                 EveryPopIs(u, rest, b) && early in Run(u, rest).heap
  {
    var early, late := FirstFailure(clock, a), FirstFailure(clock + NANOS_PER_SEC, b);
    TwoDeadlines(clock, a, b);
    var s := Init(clock);
    var s3 := BothReported(clock, a, b);
    var run := Reporting(0, a) + [Advance(NANOS_PER_SEC)] + Reporting(0, b);
    var s4 := AndThen(s, run, Advance(2 * NANOS_PER_SEC));
    assert Heap.IsMax(s4.heap, 1);
    var u := AndThen(s, run + [Advance(2 * NANOS_PER_SEC)], Look(1));
    assert [early, late][..1] == [early];
    assert u.heap == [early] && early in u.heap;
    forall rest | CanRun(u, rest) && HeapLeft(u, rest)
      ensures EveryPopIs(u, rest, b) && early in Run(u, rest).heap
    {
      DominanceRun(u, rest, b);
    }
  }

  lemma TwoDeadlines(clock: Instant, a: Ip, b: Ip)
    ensures FirstFailure(clock, a).time < FirstFailure(clock + NANOS_PER_SEC, b).time <= clock + 3 * NANOS_PER_SEC
  {
    NextTestBounds(clock, 1);
    NextTestBounds(clock + NANOS_PER_SEC, 1);
    BackoffValues(1);
  }

  lemma BothReported(clock: Instant, a: Ip, b: Ip) returns (u: State)
    requires a != b
    ensures var run := Reporting(0, a) + [Advance(NANOS_PER_SEC)] + Reporting(0, b);
            CanRun(Init(clock), run) && Run(Init(clock), run) == u
    ensures u.heap == [FirstFailure(clock, a), FirstFailure(clock + NANOS_PER_SEC, b)]
    ensures u.doctor.Looking? && u.clock == clock + NANOS_PER_SEC
  {
    var s, run := Init(clock), Reporting(0, a);
    ReportInSteps(s, 0, a);
    var early := FirstFailure(clock, a);
    assert Run(s, run).heap == [early];
    var s2 := AndThen(s, run, Advance(NANOS_PER_SEC));
    ReportInSteps(s2, 0, b);
    RunConcat(s, run + [Advance(NANOS_PER_SEC)], Reporting(0, b));
    assert [early][1..] == [] && Heap.Without([early], b) == [early];
    u := Run(s2, Reporting(0, b));
  }

  lemma AndThen(s: State, run: seq<Step>, a: Step) returns (u: State)
    requires CanRun(s, run) && Enabled(Run(s, run), a)
    ensures CanRun(s, run + [a]) && Run(s, run + [a]) == u == Next(Run(s, run), a)
  {
    u := Next(Run(s, run), a);
    OneStep(Run(s, run), a, [], u);
    assert [a] + [] == [a];
    RunConcat(s, run, [a]);
  }

  // ---------- Why the guards are there ----------

  /** A forced recheck that succeeds leaves the address in both lists; if the doctor then reaches
      the copy still in the heap, the address is ready twice, and one report leaves it ready. */
  lemma ForcedRecheckDuplicates(s: State, t: nat, i: nat, first: nat, second: nat)
    requires t !in s.tasks && Pops(s, Look(i))
    ensures i < |s.heap|
    ensures var e := s.heap[i];
            var forced := [StartForced(t, e), ForcedStep(t, Ok(first)), ForcedStep(t, Ok(first))];
            var round := [Look(i), DoctorStep(Ok(second)), DoctorStep(Ok(second))];
            && CanRun(s, forced) && CanRun(s, forced + round)
            && Run(s, forced).heap == s.heap
            && Run(s, forced).ready == s.ready + [Entry(e.ip, Channel(e.ip, first))]
            && Run(s, forced + round).ready
               == s.ready + [Entry(e.ip, Channel(e.ip, first)), Entry(e.ip, Channel(e.ip, second))]
            && Ready.HasIp(Ready.Remove(Run(s, forced + round).ready, e.ip), e.ip)
  {
    PopTakesLatestDue(s, i);
    var e := s.heap[i];
    var c1, c2 := Entry(e.ip, Channel(e.ip, first)), Entry(e.ip, Channel(e.ip, second));
    var forced := [StartForced(t, e), ForcedStep(t, Ok(first)), ForcedStep(t, Ok(first))];
    var round := [Look(i), DoctorStep(Ok(second)), DoctorStep(Ok(second))];
    var s3 := ForcedSucceeds(s, t, e, first);
    assert s3.tasks == s.tasks;
    var s4 := Next(s3, Look(i));
    var s5 := Next(s4, DoctorStep(Ok(second)));
    var s6 := Next(s5, DoctorStep(Ok(second)));
    OneStep(s5, round[2], [], s6);
    OneStep(s4, round[1], [round[2]] + [], s5);
    OneStep(s3, round[0], [round[1]] + ([round[2]] + []), s4);
    assert round == [round[0]] + ([round[1]] + ([round[2]] + []));
    RunConcat(s, forced, round);
    TwoCopies(s.ready, c1, c2);
  }

  lemma ForcedSucceeds(s: State, t: nat, e: Delayed, id: nat) returns (u: State)
    requires t !in s.tasks && e in s.heap
    ensures var run := [StartForced(t, e), ForcedStep(t, Ok(id)), ForcedStep(t, Ok(id))];
            CanRun(s, run) && Run(s, run) == u
    ensures u == s.(ready := s.ready + [Entry(e.ip, Channel(e.ip, id))])
  {
    var run := [StartForced(t, e), ForcedStep(t, Ok(id)), ForcedStep(t, Ok(id))];
    var s1 := Next(s, run[0]);
    var s2 := Next(s1, run[1]);
    u := Next(s2, run[2]);
    OneStep(s2, run[2], [], u);
    OneStep(s1, run[1], [run[2]] + [], s2);
    OneStep(s, run[0], [run[1]] + ([run[2]] + []), s1);
    assert run == [run[0]] + ([run[1]] + ([run[2]] + []));
    assert u.tasks == s.tasks;
  }

  lemma TwoCopies(es: seq<Entry>, a: Entry, b: Entry)
    requires a.ip == b.ip
    ensures es + [a] + [b] == es + [a, b]
    ensures Ready.HasIp(Ready.Remove(es + [a, b], a.ip), a.ip)
  {
    var fs := es + [a, b];
    Ready.RemoveTakesFirst(fs, a.ip);
    Ready.CopiesPositive(Ready.Remove(fs, a.ip), a.ip);
    assert fs[|es|] == a;
    assert Ready.Ips(fs) == Ready.Ips(es) + [a.ip, a.ip];
    assert multiset(Ready.Ips(fs)) == multiset(Ready.Ips(es)) + multiset{a.ip, a.ip};
  }

  lemma DoctorAdds(s: State, e: Delayed, id: nat) returns (u: State)
    requires s.doctor == Busy(Connecting(e))
    ensures var run := [DoctorStep(Ok(id)), DoctorStep(Ok(id))]; CanRun(s, run) && Run(s, run) == u
    ensures u == s.(ready := s.ready + [Entry(e.ip, Channel(e.ip, id))], doctor := Looking)
  {
    var step := DoctorStep(Ok(id));
    var s1 := Next(s, step);
    u := Next(s1, step);
    OneStep(s1, step, [], u);
    OneStep(s, step, [step], s1);
    assert [step] + [step] == [step, step];
  }

  /** Without any forced recheck: while the doctor connects to the address it popped, which is then in
      neither list, a whole DNS check connects to it as well, and both add it. */
  lemma DnsRaceDuplicates(s: State, t: nat, i: nat, first: nat, second: nat) returns (check: seq<Step>)
    requires t !in s.tasks && Pops(s, Look(i)) && Heap.UniqueIps(s.heap)
    requires i < |s.heap| && !Ready.HasIp(s.ready, s.heap[i].ip)
    ensures |check| > 0 && check[0] == StartDns(t, [s.heap[i].ip]) && OwnSteps(check[1..], t)
    ensures var e := s.heap[i];
            var run := [Look(i)] + check + [DoctorStep(Ok(second)), DoctorStep(Ok(second))];
            && CanRun(s, run)
            && Run(s, run).ready == [Entry(e.ip, Channel(e.ip, first)), Entry(e.ip, Channel(e.ip, second))]
            && Ready.HasIp(Ready.Remove(Run(s, run).ready, e.ip), e.ip)
  {
    PopTakesLatestDue(s, i);
    var e := s.heap[i];
    Heap.RemoveAtMembers(s.heap, i);
    var s1 := Next(s, Look(i));
    var ips, attempts := [e.ip], [Pool.Attempt.Connected(first)];
    assert attempts[1..] == [] && ips[..0] == [] && attempts[..0] == [];
    check := UndisturbedCheckDns(s1, t, ips, attempts);
    var c1, c2 := Entry(e.ip, Channel(e.ip, first)), Entry(e.ip, Channel(e.ip, second));
    assert Pool.Scan(ips, attempts, s1.ready, s1.heap) == Pool.Lists([c1], []);
    var s2 := Run(s1, check);
    var s3 := DoctorAdds(s2, e, second);
    var add := [DoctorStep(Ok(second)), DoctorStep(Ok(second))];
    OneStep(s, Look(i), check, s1);
    RunConcat(s, [Look(i)] + check, add);
    TwoCopies([], c1, c2);
    assert [] + [c1, c2] == [c1, c2];
  }

  /** Without any DNS check either: a caller that still holds the address reports it while the doctor
      connects to it. The connect succeeds, the entry the report left is tried in turn, and succeeds
      too. */
  lemma LateReportDuplicates(s: State, r: nat, i: nat, first: nat, second: nat) returns (j: nat)
    requires r !in s.tasks && Pops(s, Look(i))
    ensures i < |s.heap|
    ensures var e := s.heap[i];
            var run := [Look(i)] + Reporting(r, e.ip) + [DoctorStep(Ok(first)), DoctorStep(Ok(first))]
                       + [Advance(2 * NANOS_PER_SEC)] + [Look(j)] + [DoctorStep(Ok(second)), DoctorStep(Ok(second))];
            && CanRun(s, run)
            && Run(s, run).ready == Ready.Remove(s.ready, e.ip)
                                    + [Entry(e.ip, Channel(e.ip, first)), Entry(e.ip, Channel(e.ip, second))]
            && Ready.HasIp(Ready.Remove(Run(s, run).ready, e.ip), e.ip)
  {
    PopTakesLatestDue(s, i);
    Heap.RemoveAtMembers(s.heap, i);
    var e := s.heap[i];
    var s1 := Next(s, Look(i));
    ReportInSteps(s1, r, e.ip);
    OneStep(s, Look(i), Reporting(r, e.ip), s1);
    var run := [Look(i)] + Reporting(r, e.ip);
    var s2 := Run(s, run);
    var add := [DoctorStep(Ok(first)), DoctorStep(Ok(first))];
    var s3 := DoctorAdds(s2, e, first);
    RunConcat(s, run, add);
    run := run + add;
    var s4 := AndThen(s, run, Advance(2 * NANOS_PER_SEC));
    run := run + [Advance(2 * NANOS_PER_SEC)];
    j := |s4.heap| - 1;
    ReportIsLatest(s, i, s4.heap);
    var s5 := AndThen(s, run, Look(j));
    run := run + [Look(j)];
    var again := [DoctorStep(Ok(second)), DoctorStep(Ok(second))];
    var s6 := DoctorAdds(s5, s4.heap[j], second);
    RunConcat(s, run, again);
    TwoCopies(Ready.Remove(s.ready, e.ip), Entry(e.ip, Channel(e.ip, first)), Entry(e.ip, Channel(e.ip, second)));
  }

  /** After a hand-out everything left is due, so an entry stamped now comes after it. */
  lemma ReportIsLatest(s: State, i: nat, h: seq<Delayed>)
    requires Pops(s, Look(i)) && i < |s.heap|
    requires h == Heap.Insert(Next(s, Look(i)).heap, FirstFailure(s.clock, s.heap[i].ip))
    ensures h != [] && Heap.IsMax(h, |h| - 1) && h[|h| - 1] == FirstFailure(s.clock, s.heap[i].ip)
    ensures h[|h| - 1].time <= s.clock + 2 * NANOS_PER_SEC
  {
    PopTakesLatestDue(s, i);
    Heap.RemoveAtMembers(s.heap, i);
    var e := FirstFailure(s.clock, s.heap[i].ip);
    NextTestBounds(s.clock, 1);
    BackoffValues(1);
    Heap.InsertEffect(Next(s, Look(i)).heap, e);
    forall k | 0 <= k < |h| ensures Leq(h[k], e) { assert h[k] in h; }
  }

  /** A report that completes while a DNS check holds its snapshot is overwritten by it: the address
      ends up ready again, with no broken entry left. */
  lemma ReportOverwritten(s: State, t: nat, r: nat, ip: Ip) returns (run: seq<Step>)
    requires t !in s.tasks && r !in s.tasks && t != r && Ready.HasIp(s.ready, ip)
    ensures CanRun(s, run)
    ensures |run| >= 2 && Reporting(r, ip) <= run[2..]
    ensures Run(s, run).ready == [Entry(ip, Ready.Find(s.ready, ip).value)]
    ensures Run(s, run).heap == [] && Run(s, run).tasks == s.tasks
  {
    var scan := [StartDns(t, [ip]), DnsStep(t, Refused)];
    var swap := [DnsStep(t, Refused), DnsStep(t, Refused)];
    var up := [Entry(ip, Ready.Find(s.ready, ip).value)];
    var s2 := Snapshot(s, t, ip);
    ReportInSteps(s2, r, ip);
    SwapInSteps(Run(s2, Reporting(r, ip)), t, up, []);
    RunConcat(s2, Reporting(r, ip), swap);
    RunConcat(s, scan, Reporting(r, ip) + swap);
    run := scan + (Reporting(r, ip) + swap);
    assert run[2..] == Reporting(r, ip) + swap;
  }

  /** A check of one address, ready when it looks. */
  lemma Snapshot(s: State, t: nat, ip: Ip) returns (u: State)
    requires t !in s.tasks && Ready.HasIp(s.ready, ip)
    ensures var run := [StartDns(t, [ip]), DnsStep(t, Refused)]; CanRun(s, run) && Run(s, run) == u
    ensures u.tasks == s.tasks[t := Dns([], [Entry(ip, Ready.Find(s.ready, ip).value)], [])]
    ensures u.tasks - {t} == s.tasks && u.ready == s.ready && u.heap == s.heap && u.doctor == s.doctor
  {
    var step := DnsStep(t, Refused);
    var s1 := Next(s, StartDns(t, [ip]));
    u := Next(s1, step);
    OneStep(s1, step, [], u);
    OneStep(s, StartDns(t, [ip]), [step], s1);
    assert [ip][1..] == [];
    assert u.tasks[t] == Dns([], [Entry(ip, Ready.Find(s.ready, ip).value)], []);
    assert u.tasks == s.tasks[t := u.tasks[t]] && u.tasks - {t} == s.tasks;
  }

  /** A report whose future is dropped between its two halves loses the address. */
  lemma DroppedReportLosesAddress(s: State, t: nat, ip: Ip)
    requires t !in s.tasks && Ready.Copies(s.ready, ip) == 1
    requires !Heap.HasIp(s.heap, ip) && !WithDoctor(s, ip) && !InReport(s, ip)
    ensures var run := [StartReport(t, ip), ReportStep(t), Cancel(t)];
            CanRun(s, run) && Holds(s, ip) && !Holds(Run(s, run), ip)
  {
    var run := [StartReport(t, ip), ReportStep(t), Cancel(t)];
    var s1 := Next(s, run[0]);
    var s2 := Next(s1, run[1]);
    var s3 := Next(s2, run[2]);
    OneStep(s2, run[2], [], s3);
    OneStep(s1, run[1], [run[2]] + [], s2);
    OneStep(s, run[0], [run[1]] + ([run[2]] + []), s1);
    assert run == [run[0]] + ([run[1]] + ([run[2]] + []));
    Ready.CopiesPositive(s.ready, ip);
    Ready.RemoveIsCompleteIff(s.ready, ip);
    assert s3.tasks == s.tasks;
  }

  /** A resolver answer that repeats an address can put two entries for it into the heap. */
  lemma RepeatedAnswerDuplicatesHeap(s: State, t: nat, ip: Ip) returns (run: seq<Step>)
    requires t !in s.tasks && !Ready.HasIp(s.ready, ip) && !Heap.HasIp(s.heap, ip)
    ensures CanRun(s, run) && !Heap.UniqueIps(Run(s, run).heap)
  {
    var ips := [ip, ip];
    var attempts := [Pool.Attempt.Refused(s.clock), Pool.Attempt.Refused(s.clock)];
    assert Timely(attempts[1..], s.clock) by { assert attempts[1..][1..] == []; }
    run := UndisturbedCheckDns(s, t, ips, attempts);
    var e := FirstFailure(s.clock, ip);
    assert ips[..1] == [ip] && attempts[..1] == [attempts[0]];
    assert ips[..1][..0] == [] && attempts[..1][..0] == [];
    assert Pool.Scan([ip], [attempts[0]], s.ready, s.heap) == Pool.Lists([], [e]);
    assert Pool.Scan(ips, attempts, s.ready, s.heap) == Pool.Lists([], [e, e]);
    var h := Run(s, run).heap;
    assert h[0].ip == h[1].ip;
  }
}
