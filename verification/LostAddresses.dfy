/** When an address that the resolver keeps naming can be lost all the same (pool.rs). */
module LostAddresses {
  import opened Types
  import opened Backoff
  import Seqs
  import opened PoolMachine
  import PoolSafety
  import opened PoolRuns
  import opened ReadyRuns
  import opened PoolWitness
  import Ready = ReadyList
  import Heap = BrokenHeap

  // ---------- What keeps an address ----------

  /** A check between its two swaps that is about to put the address into the heap. */
  ghost predicate SwapHolds(task: Task, ip: Ip) { task.DnsSwapHeap? && Heap.HasIp(task.down, ip) }

  /** A check between its two swaps that is about to install a heap without the address. */
  ghost predicate SwapLacks(task: Task, ip: Ip) { task.DnsSwapHeap? && !Heap.HasIp(task.down, ip) }

  ghost predicate InSwap(s: State, ip: Ip) { exists t :: t in s.tasks && SwapHolds(s.tasks[t], ip) }

  ghost predicate Known(s: State, ip: Ip) { Holds(s, ip) || InSwap(s, ip) }

  /** A check under way has placed the address, or still has to. */
  ghost predicate Places(task: Task, ip: Ip) {
    match task
    case Dns(todo, up, down) => ip in todo || Ready.HasIp(up, ip) || Heap.HasIp(down, ip)
    case DnsAskBroken(todo, up, down) => ip in todo || Ready.HasIp(up, ip) || Heap.HasIp(down, ip)
    case DnsConnect(todo, up, down) => ip in todo || Ready.HasIp(up, ip) || Heap.HasIp(down, ip)
    case _ => true
  }

  ghost predicate AllPlace(s: State, ip: Ip) { forall t :: t in s.tasks ==> Places(s.tasks[t], ip) }

  /** The heap is about to lose the address only while it is ready. */
  ghost predicate LacksOnlyReady(s: State, ip: Ip) {
    forall t :: t in s.tasks && SwapLacks(s.tasks[t], ip) ==> Ready.HasIp(s.ready, ip)
  }

  ghost predicate Secure(s: State, ip: Ip) { Known(s, ip) && AllPlace(s, ip) && LacksOnlyReady(s, ip) }

  /** Without a check in flight, every address held is secure. */
  lemma SecureWhenQuiet(s: State, ip: Ip)
    requires Holds(s, ip)
    requires forall t :: t in s.tasks ==> s.tasks[t].Forced? || IsReport(s.tasks[t])
    ensures Secure(s, ip)
  {}

  /** The step takes the address out of the ready list, or one entry for it. */
  ghost predicate TakesOut(s: State, a: Step, ip: Ip)
    requires Enabled(s, a)
  {
    || (a.ReportStep? && s.tasks[a.t] == Report(ip))
    || (Installs(s, a) && !Ready.HasIp(s.tasks[a.t].up, ip))
  }

  /** The resolver names the address; no report is dropped half-way, and no check between its swaps;
      and no report or check takes the address out of the ready list while a check that found it ready
      is between its swaps. */
  ghost predicate Careful(s: State, a: Step, ip: Ip)
    requires Enabled(s, a)
  {
    && (a.StartDns? ==> ip in a.ips)
    && (a.Cancel? ==> Conserving(s, a) && !SwapHolds(s.tasks[a.t], ip))
    && (TakesOut(s, a, ip) ==> forall t :: t in s.tasks ==> !SwapLacks(s.tasks[t], ip))
  }

  ghost predicate CarefulRun(s: State, run: seq<Step>, ip: Ip)
    requires CanRun(s, run)
    decreases |run|
  {
    run == [] || (Careful(s, run[0], ip) && CarefulRun(Next(s, run[0]), run[1..], ip))
  }

  // ---------- Every careful step keeps it ----------

  lemma AppendDelayedHas(h: seq<Delayed>, d: Delayed, ip: Ip)
    ensures Heap.HasIp(h + [d], ip) <==> ip == d.ip || Heap.HasIp(h, ip)
  {
    var g := h + [d];
    assert g[|h|] == d;
    if i :| 0 <= i < |h| && h[i].ip == ip { assert g[i].ip == ip; }
    if j :| 0 <= j < |g| && g[j].ip == ip && ip != d.ip { assert h[j].ip == ip; }
  }

  lemma DnsPlaces(s: State, t: nat, task: Task, answer: Answer, ip: Ip)
    requires IsDns(task) && Places(task, ip)
    ensures var u := NextDns(s, t, task, answer); t in u.tasks ==> Places(u.tasks[t], ip)
  {
    if !task.DnsSwapHeap? && task.todo != [] {
      var to := task.todo[0];
      assert forall x :: x in task.todo ==> x == to || x in task.todo[1..];
      match task
      case Dns(_, up, _) =>
        match Ready.Find(s.ready, to) {
          case Some(channel) => AppendHas(up, Entry(to, channel), ip);
          case None =>
        }
      case DnsAskBroken(_, _, down) =>
        match Heap.Lookup(s.heap, to) {
          case Some(d) => AppendDelayedHas(down, d, ip);
          case None =>
        }
      case DnsConnect(_, up, down) =>
        match answer {
          case Ok(id) => AppendHas(up, Entry(to, Channel(to, id)), ip);
          case Refused => AppendDelayedHas(down, FirstFailure(s.clock, to), ip);
        }
    }
  }

  lemma PlacesStep(s: State, a: Step, ip: Ip)
    requires AllPlace(s, ip) && Enabled(s, a) && (a.StartDns? ==> ip in a.ips)
    ensures AllPlace(Next(s, a), ip)
  {
    var u := Next(s, a);
    forall t | t in u.tasks ensures Places(u.tasks[t], ip) {
      if PoolSafety.Actor(a) != Some(t) {
        PoolSafety.OtherTasksUntouched(s, a, t);
      } else if a.DnsStep? {
        DnsPlaces(s, t, s.tasks[t], a.answer, ip);
      }
    }
  }

  /** What is ready stays ready, unless the step takes it out. */
  lemma StaysReady(s: State, a: Step, ip: Ip)
    requires Enabled(s, a) && Ready.HasIp(s.ready, ip) && !TakesOut(s, a, ip)
    ensures Ready.HasIp(Next(s, a).ready, ip)
  {
    ReadyAfter(s, a);
    if Adding(s, a).Some? {
      AppendHas(s.ready, if a.DoctorStep? then s.doctor.job.entry else s.tasks[a.t].job.entry, ip);
    } else if a.ReportStep? && s.tasks[a.t].Report? {
      RemoveHas(s.ready, s.tasks[a.t].ip, ip);
    }
  }

  /** The only step that comes between the two swaps of a check is its first. */
  lemma NewSwap(s: State, a: Step, t: nat)
    requires Enabled(s, a) && t in Next(s, a).tasks && Next(s, a).tasks[t].DnsSwapHeap?
    ensures (t in s.tasks && s.tasks[t] == Next(s, a).tasks[t])
            || (Installs(s, a) && a.t == t && Next(s, a).tasks[t].down == s.tasks[t].down)
  {
    if PoolSafety.Actor(a) != Some(t) { PoolSafety.OtherTasksUntouched(s, a, t); }
  }

  lemma LacksStep(s: State, a: Step, ip: Ip)
    requires Secure(s, ip) && Enabled(s, a) && Careful(s, a, ip)
    ensures LacksOnlyReady(Next(s, a), ip)
  {
    var u := Next(s, a);
    forall t | t in u.tasks && SwapLacks(u.tasks[t], ip) ensures Ready.HasIp(u.ready, ip) {
      NewSwap(s, a, t);
      if Installs(s, a) && a.t == t {
        assert Places(s.tasks[t], ip);
      } else {
        StaysReady(s, a, ip);
      }
    }
  }

  /** A check that is about to install the address in the heap keeps it until it does. */
  lemma SwapKeeps(s: State, a: Step, ip: Ip)
    requires Enabled(s, a) && Careful(s, a, ip) && InSwap(s, ip)
    ensures Known(Next(s, a), ip)
  {
    var u := Next(s, a);
    var t :| t in s.tasks && SwapHolds(s.tasks[t], ip);
    if !(a.DnsStep? && a.t == t) {
      KeepsOthers(s, a, t);
      assert SwapHolds(u.tasks[t], ip);
    }
  }

  lemma KeepsOthers(s: State, a: Step, t: nat)
    requires Enabled(s, a) && t in s.tasks && s.tasks[t].DnsSwapHeap?
    requires !(a.DnsStep? && a.t == t) && !(a.Cancel? && a.t == t)
    ensures t in Next(s, a).tasks && Next(s, a).tasks[t] == s.tasks[t]
  {
    match a
    case DnsStep(o, answer) =>
      PoolSafety.DnsTouchesOne(s, o, s.tasks[o], answer);
      assert t in s.tasks - {o};
    case ReportStep(o) =>
      PoolSafety.ReportTouchesOne(s, o, s.tasks[o]);
      assert t in s.tasks - {o};
    case _ =>
  }

  /** The two steps with which a check installs its lists. */
  lemma InstallKeeps(s: State, a: Step, ip: Ip)
    requires Secure(s, ip) && Enabled(s, a) && Careful(s, a, ip) && a.DnsStep? && !Conserving(s, a)
    ensures Known(Next(s, a), ip)
  {
    var u, task := Next(s, a), s.tasks[a.t];
    assert Places(task, ip);
    if task.Dns? {
      assert u.ready == task.up && u.tasks[a.t] == DnsSwapHeap(task.down);
      assert Heap.HasIp(task.down, ip) ==> SwapHolds(u.tasks[a.t], ip);
    } else {
      assert u.heap == task.down && u.ready == s.ready;
    }
  }

  lemma SecureStep(s: State, a: Step, ip: Ip)
    requires Secure(s, ip) && Enabled(s, a) && Careful(s, a, ip)
    ensures Secure(Next(s, a), ip)
  {
    PlacesStep(s, a, ip);
    LacksStep(s, a, ip);
    if a.DnsStep? && !Conserving(s, a) {
      InstallKeeps(s, a, ip);
    } else if Holds(s, ip) {
      ConservingStep(s, a, ip);
    } else {
      SwapKeeps(s, a, ip);
    }
  }

  /** DNS checks included: an address the resolver keeps naming is never lost, whatever else
      interleaves, as long as reports and swaps run to their ends and nothing takes the address out of
      the ready list between the two swaps of a check that found it there. */
  lemma {:induction false} NamedAddressNeverLost(s: State, run: seq<Step>, ip: Ip)
    requires CanRun(s, run) && CarefulRun(s, run, ip) && Secure(s, ip)
    ensures Known(Run(s, run), ip)
    decreases |run|
  {
    if run != [] {
      SecureStep(s, run[0], ip);
      NamedAddressNeverLost(Next(s, run[0]), run[1..], ip);
    }
  }

  // ---------- Why the guards are there ----------

  /** A check finds the address broken; the doctor pops it, connects, and adds it; the check installs
      its ready list, without it, and is dropped before it installs the heap: the resolver named the
      address, and the pool has lost it. */
  lemma DroppedCheckLosesAddress(s: State, t: nat, i: nat, id: nat) returns (run: seq<Step>)
    requires t !in s.tasks && Pops(s, Look(i)) && Heap.UniqueIps(s.heap)
    requires i < |s.heap| && !Ready.HasIp(s.ready, s.heap[i].ip)
    requires !InReport(s, s.heap[i].ip) && !InSwap(s, s.heap[i].ip)
    ensures var ip := s.heap[i].ip;
            && run == [StartDns(t, [ip]), DnsStep(t, Refused), DnsStep(t, Refused)]
                      + [Look(i), DoctorStep(Ok(id)), DoctorStep(Ok(id))] + [DnsStep(t, Refused), Cancel(t)]
            && CanRun(s, run) && Holds(s, ip) && !Known(Run(s, run), ip)
  {
    var e := s.heap[i];
    var find := [StartDns(t, [e.ip]), DnsStep(t, Refused), DnsStep(t, Refused)];
    var u := FoundBroken(s, t, e.ip);
    var round := [Look(i), DoctorStep(Ok(id)), DoctorStep(Ok(id))];
    var w := RoundSucceeds(u, i, id);
    RunConcat(s, find, round);
    var y := InstallsHalf(w, t, [Heap.Lookup(s.heap, e.ip).value]);
    RunConcat(s, find + round, [DnsStep(t, Refused), Cancel(t)]);
    run := find + round + [DnsStep(t, Refused), Cancel(t)];
    Heap.RemoveAtMembers(s.heap, i);
    NotKnown(s, y, e.ip);
  }

  lemma InstallsHalf(s: State, t: nat, down: seq<Delayed>) returns (u: State)
    requires t in s.tasks && s.tasks[t] == Dns([], [], down)
    ensures var run := [DnsStep(t, Refused), Cancel(t)]; CanRun(s, run) && Run(s, run) == u
    ensures u.ready == [] && u.heap == s.heap && u.doctor == s.doctor && u.tasks == s.tasks - {t}
  {
    var s1 := Next(s, DnsStep(t, Refused));
    u := Next(s1, Cancel(t));
    OneStep(s1, Cancel(t), [], u);
    OneStep(s, DnsStep(t, Refused), [Cancel(t)], s1);
    assert [DnsStep(t, Refused)] + [Cancel(t)] == [DnsStep(t, Refused), Cancel(t)];
    assert u.tasks == s.tasks - {t};
  }

  lemma NotKnown(s: State, u: State, ip: Ip)
    requires !InReport(s, ip) && !InSwap(s, ip) && u.tasks == s.tasks
    requires !Ready.HasIp(u.ready, ip) && !Heap.HasIp(u.heap, ip) && !WithDoctor(u, ip)
    ensures !Known(u, ip)
  {}

  lemma FoundBroken(s: State, t: nat, ip: Ip) returns (u: State)
    requires t !in s.tasks && !Ready.HasIp(s.ready, ip) && Heap.HasIp(s.heap, ip)
    ensures var run := [StartDns(t, [ip]), DnsStep(t, Refused), DnsStep(t, Refused)];
            CanRun(s, run) && Run(s, run) == u
    ensures u.ready == s.ready && u.heap == s.heap && u.doctor == s.doctor && u.clock == s.clock
    ensures t in u.tasks && u.tasks[t] == Dns([], [], [Heap.Lookup(s.heap, ip).value]) && u.tasks - {t} == s.tasks
  {
    var start, step := StartDns(t, [ip]), DnsStep(t, Refused);
    var s1 := Next(s, start);
    var s2 := Next(s1, step);
    u := Next(s2, step);
    OneStep(s2, step, [], u);
    OneStep(s1, step, [step], s2);
    assert [step] + [step] == [step, step];
    OneStep(s, start, [step, step], s1);
    assert [start] + [step, step] == [start, step, step];
    assert [ip][1..] == [];
    assert [] + [Heap.Lookup(s.heap, ip).value] == [Heap.Lookup(s.heap, ip).value];
    assert u.tasks - {t} == s.tasks;
  }

  lemma RoundSucceeds(s: State, i: nat, id: nat) returns (u: State)
    requires Pops(s, Look(i))
    ensures i < |s.heap|
    ensures var run := [Look(i), DoctorStep(Ok(id)), DoctorStep(Ok(id))]; CanRun(s, run) && Run(s, run) == u
    ensures u == s.(ready := s.ready + [Entry(s.heap[i].ip, Channel(s.heap[i].ip, id))],
                    heap := Seqs.RemoveAt(s.heap, i), doctor := Looking)
  {
    PopTakesLatestDue(s, i);
    var add := [DoctorStep(Ok(id)), DoctorStep(Ok(id))];
    var s1 := Next(s, Look(i));
    u := DoctorAdds(s1, s.heap[i], id);
    OneStep(s, Look(i), add, s1);
    assert [Look(i)] + add == [Look(i), DoctorStep(Ok(id)), DoctorStep(Ok(id))];
  }

  /** Nothing is dropped: a check finds the address ready and installs its ready list; a report of the
      address then runs from start to end; and the check installs its heap, without the entry the
      report left. */
  lemma ReportBetweenSwapsLosesAddress(s: State, t: nat, r: nat, ip: Ip) returns (run: seq<Step>)
    requires t !in s.tasks && r !in s.tasks && t != r && Ready.HasIp(s.ready, ip)
    requires !WithDoctor(s, ip) && !InReport(s, ip) && !InSwap(s, ip)
    ensures run == [StartDns(t, [ip]), DnsStep(t, Refused)] + [DnsStep(t, Refused)] + Reporting(r, ip)
                   + [DnsStep(t, Refused)]
    ensures CanRun(s, run) && Holds(s, ip) && !Known(Run(s, run), ip)
  {
    var step := DnsStep(t, Refused);
    var find := [StartDns(t, [ip]), step];
    var entry := Entry(ip, Ready.Find(s.ready, ip).value);
    var u := Snapshot(s, t, ip);
    var w := AndThen(s, find, step);
    assert w.ready == [entry] && w.tasks[t] == DnsSwapHeap([]);
    ReportInSteps(w, r, ip);
    RunConcat(s, find + [step], Reporting(r, ip));
    var x := Run(w, Reporting(r, ip));
    var y := AndThen(s, find + [step] + Reporting(r, ip), step);
    run := find + [step] + Reporting(r, ip) + [step];
    Ready.RemoveIsCompleteIff([entry], ip);
    assert y.tasks == s.tasks;
    assert y.heap == [] && y.ready == Ready.Remove([entry], ip);
    NotKnown(s, y, ip);
  }
}
