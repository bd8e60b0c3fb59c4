/** Calls in the concurrent pool: what a caller's retries and a forced recheck can take from and put
    into the ready list, whatever else interleaves (macros.rs, pool.rs). */
module CallRuns {
  import opened Types
  import opened PoolMachine
  import opened ReadyRuns
  import PoolSafety
  import Ready = ReadyList
  import RetryPool

  // ---------- Entries that come and go ----------

  /** How many entries the step puts into the ready list: one that a recheck adds, or the whole list
      that a DNS check installs. */
  function Enters(s: State, a: Step): nat
    requires Enabled(s, a)
  {
    if Adding(s, a).Some? then 1 else if Installs(s, a) then |s.tasks[a.t].up| else 0
  }

  /** An added entry makes the list one longer, an installed list is counted whole, and no other step
      makes the list longer. */
  lemma EntersExactly(s: State, a: Step)
    requires Enabled(s, a)
    ensures Adding(s, a).Some? ==> |Next(s, a).ready| == |s.ready| + Enters(s, a)
    ensures Installs(s, a) ==> |Next(s, a).ready| == Enters(s, a)
    ensures Adding(s, a).None? && !Installs(s, a) ==> Enters(s, a) == 0 && |Next(s, a).ready| <= |s.ready|
  {
    ReadyAfter(s, a);
    if a.ReportStep? && s.tasks[a.t].Report? { Ready.RemoveTakesFirst(s.ready, s.tasks[a.t].ip); }
  }

  function Entered(s: State, run: seq<Step>): nat
    requires CanRun(s, run)
    decreases |run|
  {
    if run == [] then 0 else Enters(s, run[0]) + Entered(Next(s, run[0]), run[1..])
  }

  lemma {:induction false} Grows(s: State, run: seq<Step>)
    requires CanRun(s, run)
    ensures |Run(s, run).ready| <= |s.ready| + Entered(s, run)
    decreases |run|
  {
    if run != [] {
      ReadyAfter(s, run[0]);
      Grows(Next(s, run[0]), run[1..]);
    }
  }

  /** A step keeps a ready entry, or makes some entry leave. */
  lemma StepKeepsOrTakes(s: State, a: Step, e: Entry)
    requires Enabled(s, a) && e in s.ready
    ensures e in Next(s, a).ready || |Next(s, a).ready| < |s.ready| + Enters(s, a)
    ensures |Next(s, a).ready| <= |s.ready| + Enters(s, a)
  {
    ReadyAfter(s, a);
    if a.ReportStep? && s.tasks[a.t].Report? { Ready.RemoveTakesFirst(s.ready, s.tasks[a.t].ip); }
  }

  lemma {:induction false} RunKeepsOrTakes(s: State, run: seq<Step>, e: Entry)
    requires CanRun(s, run) && e in s.ready
    ensures e in Run(s, run).ready || |Run(s, run).ready| < |s.ready| + Entered(s, run)
    ensures |Run(s, run).ready| <= |s.ready| + Entered(s, run)
    decreases |run|
  {
    if run != [] {
      var u := Next(s, run[0]);
      StepKeepsOrTakes(s, run[0], e);
      if e in u.ready { RunKeepsOrTakes(u, run[1..], e); } else { Grows(u, run[1..]); }
    }
  }

  // ---------- One call among any others ----------

  /** A turn of some caller that ends in a retry: steps of all tasks up to its draw, its own forced
      recheck among them if it made one; then steps of all tasks up to the removal with which its
      report, task t, begins. */
  datatype Retry = Retry(before: seq<Step>, t: nat, during: seq<Step>)

  function Drawing(s: State, r: Retry): State
    requires CanRun(s, r.before)
  {
    Run(s, r.before)
  }

  /** The caller draws a channel, the call fails, and it comes to report the address it drew. */
  predicate Retries(s: State, r: Retry) {
    && CanRun(s, r.before)
    && Drawing(s, r).ready != []
    && var u := Next(Drawing(s, r), GetAny);
       && CanRun(u, r.during)
       && r.t in Run(u, r.during).tasks
       && Run(u, r.during).tasks[r.t] == Report(Drawn(Drawing(s, r)).ip)
  }

  /** Once the address has been taken out. */
  function After(s: State, r: Retry): State
    requires Retries(s, r)
  {
    Next(Run(Next(Drawing(s, r), GetAny), r.during), ReportStep(r.t))
  }

  function EnteredIn(s: State, r: Retry): nat
    requires Retries(s, r)
  {
    Entered(s, r.before) + Entered(Next(Drawing(s, r), GetAny), r.during)
  }

  /** Between its draw and the end of its removal at least one entry leaves the list: the one drawn,
      unless another task took that one first, or a second entry for the same address. */
  lemma RetryCosts(s: State, r: Retry)
    requires Retries(s, r)
    ensures |After(s, r).ready| < |s.ready| + EnteredIn(s, r)
  {
    Grows(s, r.before);
    RemovalCosts(Next(Drawing(s, r), GetAny), r.during, r.t, Drawn(Drawing(s, r)));
  }

  lemma RemovalCosts(s: State, run: seq<Step>, t: nat, e: Entry)
    requires CanRun(s, run) && e in s.ready
    requires t in Run(s, run).tasks && Run(s, run).tasks[t] == Report(e.ip)
    ensures |Next(Run(s, run), ReportStep(t)).ready| < |s.ready| + Entered(s, run)
  {
    var w := Run(s, run);
    RunKeepsOrTakes(s, run, e);
    Ready.RemoveTakesFirst(w.ready, e.ip);
    if e in w.ready { RetryPool.Drawn(w.ready, e); }
  }

  /** The retries of one call, one after the other. */
  predicate AllRetried(s: State, rs: seq<Retry>)
    decreases |rs|
  {
    rs == [] || (Retries(s, rs[0]) && AllRetried(After(s, rs[0]), rs[1..]))
  }

  function End(s: State, rs: seq<Retry>): State
    requires AllRetried(s, rs)
    decreases |rs|
  {
    if rs == [] then s else End(After(s, rs[0]), rs[1..])
  }

  function EnteredInAll(s: State, rs: seq<Retry>): nat
    requires AllRetried(s, rs)
    decreases |rs|
  {
    if rs == [] then 0 else EnteredIn(s, rs[0]) + EnteredInAll(After(s, rs[0]), rs[1..])
  }

  /** However many callers, reports, checks and rechecks run beside it, one call that retries only what
      it reports retries no more often than there were entries when it began and entries that came in
      since: other callers may take entries away, but never make it retry for free. */
  lemma {:induction false} RetriesWithinEntries(s: State, rs: seq<Retry>)
    requires AllRetried(s, rs)
    ensures |rs| + |End(s, rs).ready| <= |s.ready| + EnteredInAll(s, rs)
    decreases |rs|
  {
    if rs != [] {
      RetryCosts(s, rs[0]);
      RetriesWithinEntries(After(s, rs[0]), rs[1..]);
    }
  }

  // ---------- What one forced recheck can make ready ----------

  /** In the step only the futures of one recheck, the check d and the rechecks fs, put anything into
      the ready list, and none of them is started again. */
  predicate OnlyRace(s: State, a: Step, d: nat, fs: set<nat>)
    requires Enabled(s, a)
  {
    && (Adding(s, a).Some? ==> a.ForcedStep? && a.t in fs)
    && (Installs(s, a) ==> a.t == d)
    && (a.StartDns? || a.StartForced? || a.StartReport? ==> a.t != d && a.t !in fs)
  }

  predicate RaceRun(s: State, run: seq<Step>, d: nat, fs: set<nat>)
    requires CanRun(s, run)
    decreases |run|
  {
    run == [] || (OnlyRace(s, run[0], d, fs) && RaceRun(Next(s, run[0]), run[1..], d, fs))
  }

  /** The rechecks that have not ended. */
  function Unfinished(s: State, fs: set<nat>): set<nat> { set t | t in fs && t in s.tasks }

  predicate WithinAnswer(task: Task, named: nat) {
    match task
    case Dns(todo, up, _) => |todo| + |up| <= named
    case DnsAskBroken(todo, up, _) => |todo| + |up| <= named
    case DnsConnect(todo, up, _) => |todo| + |up| <= named
    case _ => true
  }

  predicate RaceInv(s: State, d: nat, fs: set<nat>, named: nat) {
    && |s.ready| + |Unfinished(s, fs)| <= named + |fs|
    && (d in s.tasks ==> WithinAnswer(s.tasks[d], named))
  }

  lemma {:induction false} Smaller(a: set<nat>, b: set<nat>)
    requires a <= b
    ensures |a| <= |b|
    decreases |a|
  {
    if a != {} {
      var x :| x in a;
      Smaller(a - {x}, b - {x});
    }
  }

  lemma DnsWithinAnswer(s: State, t: nat, task: Task, answer: Answer, named: nat)
    requires IsDns(task) && WithinAnswer(task, named)
    ensures var u := NextDns(s, t, task, answer); t in u.tasks ==> WithinAnswer(u.tasks[t], named)
  {}

  /** No recheck of the race is started by the step, and one that adds its entry has ended. */
  lemma RaceEnds(s: State, a: Step, d: nat, fs: set<nat>)
    requires Enabled(s, a) && OnlyRace(s, a, d, fs)
    ensures Unfinished(Next(s, a), fs) <= Unfinished(s, fs)
    ensures Adding(s, a).Some? ==> Unfinished(Next(s, a), fs) <= Unfinished(s, fs) - {a.t}
  {
    var u := Next(s, a);
    forall t | t in fs && t in u.tasks ensures t in s.tasks {
      if PoolSafety.Actor(a) != Some(t) { PoolSafety.OtherTasksUntouched(s, a, t); }
    }
  }

  lemma AnswerKept(s: State, a: Step, d: nat, fs: set<nat>, named: nat)
    requires Enabled(s, a) && OnlyRace(s, a, d, fs) && (d in s.tasks ==> WithinAnswer(s.tasks[d], named))
    ensures d in Next(s, a).tasks ==> WithinAnswer(Next(s, a).tasks[d], named)
  {
    if d in Next(s, a).tasks {
      if PoolSafety.Actor(a) != Some(d) {
        PoolSafety.OtherTasksUntouched(s, a, d);
      } else if a.DnsStep? {
        DnsWithinAnswer(s, d, s.tasks[d], a.answer, named);
      }
    }
  }

  lemma RaceStep(s: State, a: Step, d: nat, fs: set<nat>, named: nat)
    requires Enabled(s, a) && OnlyRace(s, a, d, fs) && RaceInv(s, d, fs, named)
    ensures RaceInv(Next(s, a), d, fs, named)
  {
    var before, left := Unfinished(s, fs), Unfinished(Next(s, a), fs);
    EntersExactly(s, a);
    RaceEnds(s, a, d, fs);
    AnswerKept(s, a, d, fs, named);
    Smaller(left, before);
    Smaller(before, fs);
    if Adding(s, a).Some? { Smaller(left, before - {a.t}); }
  }

  lemma {:induction false} RaceInvInRun(s: State, run: seq<Step>, d: nat, fs: set<nat>, named: nat)
    requires CanRun(s, run) && RaceRun(s, run, d, fs) && RaceInv(s, d, fs, named)
    ensures RaceInv(Run(s, run), d, fs, named)
    decreases |run|
  {
    if run != [] {
      RaceStep(s, run[0], d, fs, named);
      RaceInvInRun(Next(s, run[0]), run[1..], d, fs, named);
    }
  }

  /** From an empty ready list, the futures of a forced recheck make ready, at any moment and in any
      interleaving, at most what the resolver named and one entry a recheck. */
  lemma RaceGains(s: State, run: seq<Step>, d: nat, fs: set<nat>, ips: seq<Ip>)
    requires s.ready == [] && d in s.tasks && s.tasks[d] == Dns(ips, [], [])
    requires CanRun(s, run) && RaceRun(s, run, d, fs)
    ensures |Run(s, run).ready| <= |ips| + |fs|
  {
    Smaller(Unfinished(s, fs), fs);
    RaceInvInRun(s, run, d, fs, |ips|);
  }
}
