/** What whole runs of the pool may do to the ready list: when it lists an address twice, and when a
    reported address comes back. */
module ReadyRuns {
  import opened Types
  import Seqs
  import opened PoolMachine
  import PoolSafety
  import opened PoolRuns
  import Ready = ReadyList

  // ---------- Each address listed once ----------

  /** What a step is about to do to the ready list: add a channel for `ip`, if anything. */
  function Adding(s: State, a: Step): Option<Ip>
    requires Enabled(s, a)
  {
    match a
    case ForcedStep(t, _) => if s.tasks[t].job.Connected? then Some(s.tasks[t].job.entry.ip) else None
    case DoctorStep(_) => if s.doctor.job.Connected? then Some(s.doctor.job.entry.ip) else None
    case _ => None
  }

  /** The step is the one with which a DNS check installs its list. */
  predicate Installs(s: State, a: Step)
    requires Enabled(s, a)
  {
    a.DnsStep? && s.tasks[a.t].Dns? && s.tasks[a.t].todo == []
  }

  /** A recheck adds an address already ready, or a DNS check installs a list with a repetition. */
  ghost predicate Duplicates(s: State, a: Step)
    requires Enabled(s, a)
  {
    || (Adding(s, a).Some? && Ready.HasIp(s.ready, Adding(s, a).value))
    || (Installs(s, a) && !Ready.UniqueIps(s.tasks[a.t].up))
  }

  lemma AppendUnique(es: seq<Entry>, e: Entry)
    requires Ready.UniqueIps(es)
    ensures Ready.UniqueIps(es + [e]) <==> !Ready.HasIp(es, e.ip)
  {
    var fs := es + [e];
    if i :| 0 <= i < |es| && es[i].ip == e.ip { assert fs[i].ip == fs[|es|].ip; }
  }

  /** What every step does to the ready list. */
  lemma ReadyAfter(s: State, a: Step)
    requires Enabled(s, a)
    ensures Next(s, a).ready ==
            if Adding(s, a).Some? then
              s.ready + [if a.DoctorStep? then s.doctor.job.entry else s.tasks[a.t].job.entry]
            else if Installs(s, a) then s.tasks[a.t].up
            else if a.ReportStep? && s.tasks[a.t].Report? then Ready.Remove(s.ready, s.tasks[a.t].ip)
            else s.ready
  {}

  /** One step keeps each address listed once exactly when it does neither. */
  lemma UniqueStepIff(s: State, a: Step)
    requires Enabled(s, a) && Ready.UniqueIps(s.ready)
    ensures Ready.UniqueIps(Next(s, a).ready) <==> !Duplicates(s, a)
  {
    ReadyAfter(s, a);
    if Adding(s, a).Some? {
      AppendUnique(s.ready, if a.DoctorStep? then s.doctor.job.entry else s.tasks[a.t].job.entry);
    } else if a.ReportStep? && s.tasks[a.t].Report? {
      Ready.RemoveIsCompleteIff(s.ready, s.tasks[a.t].ip);
    }
  }

  predicate AlwaysUnique(s: State, run: seq<Step>)
    requires CanRun(s, run)
    decreases |run|
  {
    Ready.UniqueIps(s.ready) && (run == [] || AlwaysUnique(Next(s, run[0]), run[1..]))
  }

  ghost predicate NeverDuplicates(s: State, run: seq<Step>)
    requires CanRun(s, run)
    decreases |run|
  {
    run == [] || (!Duplicates(s, run[0]) && NeverDuplicates(Next(s, run[0]), run[1..]))
  }

  lemma {:induction false} UniqueRunIff(s: State, run: seq<Step>)
    requires Ready.UniqueIps(s.ready) && CanRun(s, run)
    ensures AlwaysUnique(s, run) <==> NeverDuplicates(s, run)
    decreases |run|
  {
    if run != [] {
      UniqueStepIff(s, run[0]);
      if !Duplicates(s, run[0]) {
        UniqueRunIff(Next(s, run[0]), run[1..]);
      } else {
        NotUniqueNow(Next(s, run[0]), run[1..]);
      }
    }
  }

  lemma NotUniqueNow(s: State, run: seq<Step>)
    requires CanRun(s, run) && !Ready.UniqueIps(s.ready)
    ensures !AlwaysUnique(s, run)
  {}

  // ---------- DNS checks install no repetition ----------

  /** The list a check has built names no address twice, and none it has still to place. */
  predicate UpFresh(todo: seq<Ip>, up: seq<Entry>) {
    && Seqs.Distinct(todo)
    && Ready.UniqueIps(up)
    && forall i :: 0 <= i < |up| ==> up[i].ip !in todo
  }

  predicate TaskUpFresh(task: Task) {
    match task
    case Dns(todo, up, _) => UpFresh(todo, up)
    case DnsAskBroken(todo, up, _) => UpFresh(todo, up)
    case DnsConnect(todo, up, _) => UpFresh(todo, up)
    case _ => true
  }

  predicate UpsFresh(s: State) { forall t :: t in s.tasks ==> TaskUpFresh(s.tasks[t]) }

  lemma UpFreshTail(todo: seq<Ip>, up: seq<Entry>, e: Entry)
    requires todo != [] && UpFresh(todo, up) && e.ip == todo[0]
    ensures UpFresh(todo[1..], up) && UpFresh(todo[1..], up + [e])
  {
    var tail := todo[1..];
    assert forall ip :: ip in tail ==> ip in todo;
    assert todo[0] in todo && todo[0] !in tail;
  }

  lemma DnsUpFresh(s: State, t: nat, task: Task, answer: Answer)
    requires IsDns(task) && TaskUpFresh(task)
    ensures var u := NextDns(s, t, task, answer); t in u.tasks ==> TaskUpFresh(u.tasks[t])
  {
    if !task.DnsSwapHeap? && task.todo != [] {
      var ip := task.todo[0];
      match Ready.Find(s.ready, ip)
      case Some(channel) => UpFreshTail(task.todo, task.up, Entry(ip, channel));
      case None =>
    }
    if task.DnsAskBroken? || task.DnsConnect? {
      var ip := task.todo[0];
      UpFreshTail(task.todo, task.up, Entry(ip, Channel(ip, if answer.Ok? then answer.id else 0)));
    }
  }

  lemma UpsFreshStep(s: State, a: Step)
    requires UpsFresh(s) && Enabled(s, a) && PoolSafety.CleanAnswer(a)
    ensures UpsFresh(Next(s, a))
  {
    var u := Next(s, a);
    forall t | t in u.tasks ensures TaskUpFresh(u.tasks[t]) {
      if PoolSafety.Actor(a) != Some(t) {
        PoolSafety.OtherTasksUntouched(s, a, t);
      } else if a.DnsStep? {
        DnsUpFresh(s, t, s.tasks[t], a.answer);
      }
    }
  }

  /** Every channel a recheck adds is for an address not ready at that moment. */
  ghost predicate AddsOnlyAbsent(s: State, run: seq<Step>)
    requires CanRun(s, run)
    decreases |run|
  {
    run != [] ==>
      && (Adding(s, run[0]).Some? ==> !Ready.HasIp(s.ready, Adding(s, run[0]).value))
      && AddsOnlyAbsent(Next(s, run[0]), run[1..])
  }

  lemma {:induction false} CleanRunDuplicates(s: State, run: seq<Step>)
    requires UpsFresh(s) && CanRun(s, run)
    requires forall k :: 0 <= k < |run| ==> PoolSafety.CleanAnswer(run[k])
    ensures NeverDuplicates(s, run) <==> AddsOnlyAbsent(s, run)
    decreases |run|
  {
    if run != [] {
      UpsFreshStep(s, run[0]);
      CleanRunDuplicates(Next(s, run[0]), run[1..]);
      assert Installs(s, run[0]) ==> TaskUpFresh(s.tasks[run[0].t]);
    }
  }

  /** From the pool's start, with a resolver that names no address twice in one answer: no address is
      ever listed twice exactly when no recheck, the doctor's or a forced one, adds an address that is
      already ready at that moment. DNS checks alone never do it. */
  lemma ReadyUniqueFromStartIff(clock: Instant, run: seq<Step>)
    requires CanRun(Init(clock), run)
    requires forall k :: 0 <= k < |run| ==> PoolSafety.CleanAnswer(run[k])
    ensures AlwaysUnique(Init(clock), run) <==> AddsOnlyAbsent(Init(clock), run)
  {
    UniqueRunIff(Init(clock), run);
    CleanRunDuplicates(Init(clock), run);
  }

  // ---------- A reported address stays out ----------

  /** In no state of the run is `ip` ready, and no `GetAny` of it returns an entry for `ip`. */
  ghost predicate StaysOut(s: State, run: seq<Step>, ip: Ip)
    requires CanRun(s, run)
    decreases |run|
  {
    && !Ready.HasIp(s.ready, ip)
    && (run != [] ==>
          && (run[0].GetAny? && s.ready != [] ==> s.ready[s.index % |s.ready|].ip != ip)
          && StaysOut(Next(s, run[0]), run[1..], ip))
  }

  /** The step puts an entry for `ip` into the ready list. */
  ghost predicate Readds(s: State, a: Step, ip: Ip)
    requires Enabled(s, a)
  {
    Adding(s, a) == Some(ip) || (Installs(s, a) && Ready.HasIp(s.tasks[a.t].up, ip))
  }

  ghost predicate NeverReadded(s: State, run: seq<Step>, ip: Ip)
    requires CanRun(s, run)
    decreases |run|
  {
    run == [] || (!Readds(s, run[0], ip) && NeverReadded(Next(s, run[0]), run[1..], ip))
  }

  lemma OutStepIff(s: State, a: Step, ip: Ip)
    requires Enabled(s, a) && !Ready.HasIp(s.ready, ip)
    ensures Ready.HasIp(Next(s, a).ready, ip) <==> Readds(s, a, ip)
  {
    ReadyAfter(s, a);
    if Adding(s, a).Some? {
      AppendHas(s.ready, if a.DoctorStep? then s.doctor.job.entry else s.tasks[a.t].job.entry, ip);
    } else if a.ReportStep? && s.tasks[a.t].Report? {
      Ready.RemoveTakesFirst(s.ready, s.tasks[a.t].ip);
      Ready.CopiesPositive(s.ready, ip);
      Ready.CopiesPositive(Ready.Remove(s.ready, s.tasks[a.t].ip), ip);
    }
  }

  /** Of a single run: an address that is not ready stays out of callers' hands exactly until a step
      puts it into the list. */
  lemma {:induction false} OutUntilReadded(s: State, run: seq<Step>, ip: Ip)
    requires CanRun(s, run) && !Ready.HasIp(s.ready, ip)
    ensures StaysOut(s, run, ip) <==> NeverReadded(s, run, ip)
    decreases |run|
  {
    if run != [] {
      var u := Next(s, run[0]);
      OutStepIff(s, run[0], ip);
      if !Ready.HasIp(u.ready, ip) { OutUntilReadded(u, run[1..], ip); }
    }
  }

  // Whether that happens is decided by what is in flight and by later connects.

  /** The task has an entry for `ip` that it can make ready with no further connect to it. */
  ghost predicate Carries(task: Task, ip: Ip) {
    match task
    case Dns(_, up, _) => Ready.HasIp(up, ip)
    case DnsAskBroken(todo, up, _) => todo != [] && Ready.HasIp(up, ip)
    case DnsConnect(todo, up, _) => todo != [] && Ready.HasIp(up, ip)
    case Forced(job) => job.Connected? && job.entry.ip == ip
    case _ => false
  }

  predicate DoctorCarries(s: State, ip: Ip) {
    s.doctor.Busy? && s.doctor.job.Connected? && s.doctor.job.entry.ip == ip
  }

  ghost predicate Carried(s: State, ip: Ip) {
    DoctorCarries(s, ip) || exists t :: t in s.tasks && Carries(s.tasks[t], ip)
  }

  /** The step is a successful connect to `ip`. */
  predicate ConnectsTo(s: State, a: Step, ip: Ip)
    requires Enabled(s, a)
  {
    match a
    case DnsStep(t, answer) => answer.Ok? && s.tasks[t].DnsConnect? && s.tasks[t].todo[0] == ip
    case ForcedStep(t, answer) => answer.Ok? && s.tasks[t].job.Connecting? && s.tasks[t].job.address.ip == ip
    case DoctorStep(answer) => answer.Ok? && s.doctor.job.Connecting? && s.doctor.job.address.ip == ip
    case _ => false
  }

  predicate NoConnect(s: State, run: seq<Step>, ip: Ip)
    requires CanRun(s, run)
    decreases |run|
  {
    run == [] || (!ConnectsTo(s, run[0], ip) && NoConnect(Next(s, run[0]), run[1..], ip))
  }

  /** Neither ready nor carried by any task. */
  ghost predicate Away(s: State, ip: Ip) { !Ready.HasIp(s.ready, ip) && !Carried(s, ip) }

  lemma AwayReady(s: State, a: Step, ip: Ip)
    requires Enabled(s, a) && Away(s, ip)
    ensures !Ready.HasIp(Next(s, a).ready, ip)
  {
    OutStepIff(s, a, ip);
    assert a.ForcedStep? || Installs(s, a) ==> !Carries(s.tasks[a.t], ip);
  }

  lemma AwayDns(s: State, t: nat, answer: Answer, ip: Ip)
    requires Enabled(s, DnsStep(t, answer)) && Away(s, ip) && !ConnectsTo(s, DnsStep(t, answer), ip)
    ensures var u := Next(s, DnsStep(t, answer)); t in u.tasks ==> !Carries(u.tasks[t], ip)
  {
    var task := s.tasks[t];
    assert !Carries(task, ip);
    if !task.DnsSwapHeap? && task.todo != [] {
      var to := task.todo[0];
      if task.Dns? && Ready.HasIp(s.ready, to) {
        AppendHas(task.up, Entry(to, Ready.Find(s.ready, to).value), ip);
      }
      if task.DnsConnect? && answer.Ok? { AppendHas(task.up, Entry(to, Channel(to, answer.id)), ip); }
    }
  }

  lemma AwayStep(s: State, a: Step, ip: Ip)
    requires Enabled(s, a) && Away(s, ip) && !ConnectsTo(s, a, ip)
    ensures Away(Next(s, a), ip)
  {
    var u := Next(s, a);
    AwayReady(s, a, ip);
    forall t | t in u.tasks ensures !Carries(u.tasks[t], ip) {
      if PoolSafety.Actor(a) != Some(t) {
        PoolSafety.OtherTasksUntouched(s, a, t);
      } else if a.DnsStep? {
        AwayDns(s, t, a.answer, ip);
      }
    }
  }

  lemma {:induction false} AwayRun(s: State, run: seq<Step>, ip: Ip)
    requires CanRun(s, run) && Away(s, ip) && NoConnect(s, run, ip)
    ensures StaysOut(s, run, ip)
    decreases |run|
  {
    if run != [] {
      AwayStep(s, run[0], ip);
      AwayRun(Next(s, run[0]), run[1..], ip);
    }
  }

  /** A DNS check that holds an entry for `ip` installs it, even if it can connect to nothing more. */
  lemma {:induction false} DriveDns(s: State, t: nat, ip: Ip) returns (run: seq<Step>)
    requires t in s.tasks && Carries(s.tasks[t], ip) && !s.tasks[t].Forced?
    ensures CanRun(s, run) && NoConnect(s, run, ip) && Ready.HasIp(Run(s, run).ready, ip)
    decreases |s.tasks[t].todo|, if s.tasks[t].Dns? then 2 else if s.tasks[t].DnsAskBroken? then 1 else 0
  {
    var a := DnsStep(t, Refused);
    var u := Next(s, a);
    if Installs(s, a) {
      run := [a] + [];
    } else {
      if s.tasks[t].Dns? && Ready.HasIp(s.ready, s.tasks[t].todo[0]) {
        var to := s.tasks[t].todo[0];
        AppendHas(s.tasks[t].up, Entry(to, Ready.Find(s.ready, to).value), ip);
      }
      var rest := DriveDns(u, t, ip);
      run := [a] + rest;
    }
    OneStep(s, a, run[1..], u);
    assert run == [a] + run[1..];
  }

  /** Whatever carries the address can finish at once. */
  lemma ComesBack(s: State, ip: Ip) returns (run: seq<Step>)
    requires !Away(s, ip)
    ensures CanRun(s, run) && NoConnect(s, run, ip) && Ready.HasIp(Run(s, run).ready, ip)
  {
    if Ready.HasIp(s.ready, ip) {
      run := [];
    } else if DoctorCarries(s, ip) {
      run := [DoctorStep(Refused)] + [];
      OneStep(s, run[0], [], Next(s, run[0]));
      AppendHas(s.ready, s.doctor.job.entry, ip);
    } else {
      var t :| t in s.tasks && Carries(s.tasks[t], ip);
      if s.tasks[t].Forced? {
        run := [ForcedStep(t, Refused)] + [];
        OneStep(s, run[0], [], Next(s, run[0]));
        AppendHas(s.ready, s.tasks[t].job.entry, ip);
      } else {
        run := DriveDns(s, t, ip);
      }
    }
  }

  lemma {:induction false} StaysOutToTheEnd(s: State, run: seq<Step>, ip: Ip)
    requires CanRun(s, run) && StaysOut(s, run, ip)
    ensures !Ready.HasIp(Run(s, run).ready, ip)
    decreases |run|
  {
    if run != [] { StaysOutToTheEnd(Next(s, run[0]), run[1..], ip); }
  }

  /** Whatever else happens, `ip` stays out until somebody connects to it anew. */
  ghost predicate KeptOut(s: State, ip: Ip) {
    forall run | CanRun(s, run) && NoConnect(s, run, ip) :: StaysOut(s, run, ip)
  }

  lemma KeptOutIn(s: State, run: seq<Step>, ip: Ip)
    requires KeptOut(s, ip) && CanRun(s, run) && NoConnect(s, run, ip)
    ensures StaysOut(s, run, ip)
  {}

  /** From any state: an address stays out of every caller's hands until somebody connects to it anew,
      in every run whatever, exactly when it is not ready and no task in flight carries it. */
  lemma KeptOutIff(s: State, ip: Ip)
    ensures KeptOut(s, ip) <==> Away(s, ip)
  {
    if Away(s, ip) {
      forall run | CanRun(s, run) && NoConnect(s, run, ip) ensures StaysOut(s, run, ip) { AwayRun(s, run, ip); }
    } else if KeptOut(s, ip) {
      var back := ComesBack(s, ip);
      KeptOutIn(s, back, ip);
      StaysOutToTheEnd(s, back, ip);
    }
  }
}
