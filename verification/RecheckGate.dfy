/** The process-wide limit on forced rechecks: the static stamp behind an RwLock in
    `get_channel` (pool.rs), with any number of concurrent callers of any number of pools. */
module RecheckGate {
  import opened Types

  const MIN_INTERVAL: int := 500_000_000  // 500 ms

  /** The static itself. */
  class Gate {
    var stamp: Instant

    constructor (past: Instant)
      ensures stamp == past
    {
      stamp := past;
    }
  }

  type Caller = nat

  /** Where a caller is after `get_any` found nothing. */
  datatype Phase =
    | Passed(tried: nat)                // `try_read` succeeded at step `tried`, stamp old enough
    | Queued                            // `try_read` failed: waits only for the lock to be free
    | Holding(tried: nat, locked: nat)  // has the write lock, looks at the ready list again
    | Rechecking                        // has stamped, keeps the lock while it rechecks

  /** A forced recheck that started. */
  datatype Record = Record(caller: Caller, tried: nat, locked: nat, stamp: Instant)

  datatype State = State(
    clock: Instant,
    stamp: Instant,             // the value behind the lock
    writer: Option<Caller>,     // who holds the write lock
    callers: map<Caller, Phase>,
    log: seq<Record>,
    step: nat)                  // how many steps have been taken

  datatype Step =
    | Advance(d: nat)
    | TryPass(c: Caller)
    | TryTooSoon(c: Caller)     // returns None
    | TryBusy(c: Caller)
    | Lock(c: Caller)
    | LockQueued(c: Caller)     // acquires and drops the lock at once, then `get_any`
    | FoundReady(c: Caller)     // second `get_any` succeeds
    | Stamp(c: Caller)
    | Finish(c: Caller)
    | Cancel(c: Caller)         // the caller's future is dropped at an await

  predicate Enabled(s: State, a: Step) {
    match a
    case Advance(_) => true
    case TryPass(c) => c !in s.callers && s.writer == None && s.clock - s.stamp >= MIN_INTERVAL
    case TryTooSoon(c) => c !in s.callers && s.writer == None && s.clock - s.stamp < MIN_INTERVAL
    case TryBusy(c) => c !in s.callers && s.callers != map[]  // a writer holds the lock, waits for it or is about to
    case Lock(c) => c in s.callers && s.callers[c].Passed? && s.writer == None
    case LockQueued(c) => c in s.callers && s.callers[c].Queued? && s.writer == None
    case FoundReady(c) => c in s.callers && s.callers[c].Holding?
    case Stamp(c) => c in s.callers && s.callers[c].Holding?
    case Finish(c) => c in s.callers && s.callers[c].Rechecking?
    case Cancel(c) => c in s.callers
  }

  function Leave(s: State, c: Caller): State {
    s.(callers := s.callers - {c}, writer := if s.writer == Some(c) then None else s.writer)
  }

  function Next(s: State, a: Step): State
    requires Enabled(s, a)
  {
    var t := s.(step := s.step + 1);
    match a
    case Advance(d) => t.(clock := s.clock + d)
    case TryPass(c) => t.(callers := s.callers[c := Passed(s.step)])
    case TryTooSoon(_) => t
    case TryBusy(c) => t.(callers := s.callers[c := Queued])
    case Lock(c) => t.(callers := s.callers[c := Holding(s.callers[c].tried, s.step)], writer := Some(c))
    case LockQueued(c) => Leave(t, c)
    case FoundReady(c) => Leave(t, c)
    case Stamp(c) =>
      var p := s.callers[c];
      t.(stamp := s.clock,
         callers := s.callers[c := Rechecking],
         log := s.log + [Record(c, p.tried, p.locked, s.clock)])
    case Finish(c) => Leave(t, c)
    case Cancel(c) => Leave(t, c)
  }

  predicate CanRun(s: State, run: seq<Step>)
    decreases |run|
  {
    run == [] || (Enabled(s, run[0]) && CanRun(Next(s, run[0]), run[1..]))
  }

  function Run(s: State, run: seq<Step>): State
    requires CanRun(s, run)
    decreases |run|
  {
    if run == [] then s else Run(Next(s, run[0]), run[1..])
  }

  /** Nobody has called yet; the stamp is some reading in the past, as `DateTime::MIN_UTC` is. */
  predicate Initial(s: State) {
    s.stamp <= s.clock && s.writer == None && s.callers == map[] && s.log == [] && s.step == 0
  }

  // ---------- Invariant ----------

  predicate HasLock(p: Phase) { p.Holding? || p.Rechecking? }

  /** The lock is held by exactly the callers that believe they hold it, so by at most one. */
  ghost predicate Exclusive(s: State) {
    forall c :: c in s.callers && HasLock(s.callers[c]) <==> s.writer == Some(c)
  }

  ghost predicate LogInOrder(s: State) {
    && (forall i, j :: 0 <= i < j < |s.log| ==> s.log[i].stamp <= s.log[j].stamp && s.log[i].locked < s.log[j].locked)
    && (forall i :: 0 <= i < |s.log| ==> s.log[i].stamp <= s.stamp && s.log[i].tried < s.log[i].locked < s.step)
    && s.stamp <= s.clock
    && (s.log != [] ==> s.log[|s.log| - 1].stamp == s.stamp)
  }

  /** Two stamps are too close only if the later caller tried before the earlier one had the lock. */
  ghost predicate SpacedUnlessOverlapping(log: seq<Record>) {
    forall i, j :: 0 <= i < j < |log| && log[j].stamp - log[i].stamp < MIN_INTERVAL
      ==> log[j].tried < log[i].locked
  }

  predicate HasTried(p: Phase) { p.Passed? || p.Holding? }

  /** A caller that passed `try_read` saw every stamp whose lock was taken before, and all are old. */
  ghost predicate TriesSawTheLog(s: State) {
    && (forall c :: c in s.callers && HasTried(s.callers[c]) ==> s.callers[c].tried < s.step)
    && (forall c, i :: c in s.callers && HasTried(s.callers[c]) && 0 <= i < |s.log|
          && s.log[i].locked <= s.callers[c].tried
          ==> s.clock - s.log[i].stamp >= MIN_INTERVAL)
  }

  /** Nobody passes `try_read` while another holds the lock. */
  ghost predicate TriesPrecedeLock(s: State) {
    && (forall c :: c in s.callers && s.callers[c].Holding? ==>
          && s.callers[c].tried < s.callers[c].locked < s.step
          && (forall i :: 0 <= i < |s.log| ==> s.log[i].locked < s.callers[c].locked))
    && (forall c, d :: c in s.callers && d in s.callers && s.callers[c].Holding? && s.callers[d].Passed?
          ==> s.callers[d].tried < s.callers[c].locked)
  }

  ghost predicate Inv(s: State) {
    && Exclusive(s) && LogInOrder(s) && SpacedUnlessOverlapping(s.log)
    && TriesSawTheLog(s) && TriesPrecedeLock(s)
  }

  lemma ExclusiveKept(s: State, a: Step)
    requires Exclusive(s) && Enabled(s, a)
    ensures Exclusive(Next(s, a))
  {}

  lemma LogOrderKept(s: State, a: Step)
    requires LogInOrder(s) && TriesPrecedeLock(s) && Enabled(s, a)
    ensures LogInOrder(Next(s, a)) && Next(s, a).stamp >= s.stamp
  {}

  lemma SpacingKept(s: State, a: Step)
    requires SpacedUnlessOverlapping(s.log) && TriesSawTheLog(s) && Enabled(s, a)
    ensures SpacedUnlessOverlapping(Next(s, a).log)
  {}

  lemma TriesSawTheLogKept(s: State, a: Step)
    requires Exclusive(s) && LogInOrder(s) && TriesSawTheLog(s) && TriesPrecedeLock(s) && Enabled(s, a)
    ensures TriesSawTheLog(Next(s, a))
  {
    if a.Stamp? {
      forall d | d in s.callers && d != a.c && HasTried(s.callers[d])
        ensures s.callers[d].Passed?
      {
        assert s.writer == Some(a.c);
      }
    }
  }

  lemma TriesPrecedeLockKept(s: State, a: Step)
    requires Exclusive(s) && LogInOrder(s) && TriesSawTheLog(s) && TriesPrecedeLock(s) && Enabled(s, a)
    ensures TriesPrecedeLock(Next(s, a))
  {
    var t := Next(s, a);
    forall c, d | c in t.callers && d in t.callers && t.callers[c].Holding? && t.callers[d].Passed?
      ensures t.callers[d].tried < t.callers[c].locked
    {
      if a.Lock? && c == a.c { assert s.callers[d].tried < s.step; }
    }
    forall c | c in t.callers && t.callers[c].Holding? ensures t.writer == Some(c) {
      ExclusiveKept(s, a);
    }
  }

  lemma StepKeepsInv(s: State, a: Step)
    requires Inv(s) && Enabled(s, a)
    ensures Inv(Next(s, a))
    ensures Next(s, a).stamp >= s.stamp
  {
    ExclusiveKept(s, a);
    LogOrderKept(s, a);
    SpacingKept(s, a);
    TriesSawTheLogKept(s, a);
    TriesPrecedeLockKept(s, a);
  }

  /** Over every run of any number of callers: the write lock, and with it a forced recheck, belongs
      to at most one caller at a time; stamps never decrease; and two of them less than 500 ms apart
      occur only between callers the later of which passed `try_read` before the earlier took the lock. */
  lemma {:induction false} EveryRun(s: State, run: seq<Step>)
    requires Inv(s) && CanRun(s, run)
    ensures Inv(Run(s, run))
    ensures Run(s, run).stamp >= s.stamp
    decreases |run|
  {
    if run != [] {
      StepKeepsInv(s, run[0]);
      EveryRun(Next(s, run[0]), run[1..]);
    }
  }

  lemma RechecksExcludeEachOther(s: State, run: seq<Step>, c: Caller, d: Caller)
    requires Initial(s) && CanRun(s, run)
    requires var t := Run(s, run);
             c in t.callers && d in t.callers && t.callers[c].Rechecking? && HasLock(t.callers[d])
    ensures c == d
  {
    EveryRun(s, run);
  }

  /** The documented spacing, for callers that do not overlap in that window. */
  lemma RechecksSpaced(s: State, run: seq<Step>, i: nat, j: nat)
    requires Initial(s) && CanRun(s, run)
    requires i < j < |Run(s, run).log|
    requires Run(s, run).log[j].tried >= Run(s, run).log[i].locked
    ensures Run(s, run).log[j].stamp - Run(s, run).log[i].stamp >= 500_000_000
  {
    EveryRun(s, run);
  }

  // ---------- Nobody is locked out ----------

  /** A caller that finds the lock taken waits for it, however long, and then ends without a recheck. */
  lemma BusyOnlyWaits(s: State, c: Caller, a: Step)
    requires Inv(s) && Enabled(s, TryBusy(c))
    ensures Next(s, TryBusy(c)).callers == s.callers[c := Queued] && Next(s, TryBusy(c)).writer == s.writer
    ensures var t := Next(s, TryBusy(c));
            Enabled(t, a) && a != LockQueued(c) && a != Cancel(c) ==>
              && c in Next(t, a).callers && Next(t, a).callers[c] == Queued
              && (Next(t, a).log == t.log || a != Stamp(c))
    ensures Enabled(Next(s, TryBusy(c)), LockQueued(c)) <==> s.writer == None
  {}

  /** A caller that ends, by whatever way out, or is dropped at any await, is gone, and gives the lock
      back if it had it; all others are where they were. */
  lemma LeavingFrees(s: State, a: Step, c: Caller)
    requires Inv(s) && Enabled(s, a) && (a == Finish(c) || a == FoundReady(c) || a == LockQueued(c) || a == Cancel(c))
    ensures var t := Next(s, a);
            && t.callers.Keys == s.callers.Keys - {c}
            && (forall d :: d in t.callers ==> t.callers[d] == s.callers[d])
            && t.writer == (if HasLock(s.callers[c]) then None else s.writer)
            && t.stamp == s.stamp && t.log == s.log
  {}

  /** The steps that bring one caller to its end, once the lock is free or its own. */
  function Ending(p: Phase, c: Caller): seq<Step> {
    match p
    case Passed(_) => [Lock(c), Stamp(c), Finish(c)]
    case Queued => [LockQueued(c)]
    case Holding(_, _) => [Stamp(c), Finish(c)]
    case Rechecking => [Finish(c)]
  }

  lemma OneEnds(s: State, c: Caller) returns (t: State)
    requires Inv(s) && c in s.callers && (s.writer == None || s.writer == Some(c))
    ensures CanRun(s, Ending(s.callers[c], c)) && Run(s, Ending(s.callers[c], c)) == t
    ensures t.writer == None && t.callers.Keys == s.callers.Keys - {c}
  {
    var run := Ending(s.callers[c], c);
    match s.callers[c] {
      case Passed(_) =>
        var s1 := Next(s, Lock(c));
        var s2 := Next(s1, Stamp(c));
        t := Next(s2, Finish(c));
        OneStep(s2, Finish(c), [], t);
        OneStep(s1, Stamp(c), [Finish(c)], s2);
        OneStep(s, Lock(c), [Stamp(c), Finish(c)], s1);
      case Queued =>
        t := Next(s, LockQueued(c));
        OneStep(s, LockQueued(c), [], t);
      case Holding(_, _) =>
        var s1 := Next(s, Stamp(c));
        t := Next(s1, Finish(c));
        OneStep(s1, Finish(c), [], t);
        OneStep(s, Stamp(c), [Finish(c)], s1);
      case Rechecking =>
        t := Next(s, Finish(c));
        OneStep(s, Finish(c), [], t);
    }
  }

  lemma {:induction false} RunConcat(s: State, first: seq<Step>, rest: seq<Step>)
    requires CanRun(s, first) && CanRun(Run(s, first), rest)
    ensures CanRun(s, first + rest) && Run(s, first + rest) == Run(Run(s, first), rest)
    decreases |first|
  {
    if first == [] {
      assert first + rest == rest;
    } else {
      RunConcat(Next(s, first[0]), first[1..], rest);
      assert (first + rest)[1..] == first[1..] + rest;
    }
  }

  /** From every state callers can reach, all of them can come to their end without anybody being
      dropped: the holder of the lock first, then the others in any order. No caller is ever stuck. */
  lemma {:induction false} EveryoneCanEnd(s: State) returns (run: seq<Step>)
    requires Inv(s)
    ensures CanRun(s, run) && Run(s, run).callers == map[] && Run(s, run).writer == None
    ensures forall c :: Cancel(c) !in run
    decreases |s.callers.Keys|
  {
    if s.callers == map[] {
      run := [];
    } else {
      var c :| c in s.callers && (s.writer == None || s.writer == Some(c));
      var first := Ending(s.callers[c], c);
      var t := OneEnds(s, c);
      EveryRun(s, first);
      var rest := EveryoneCanEnd(t);
      RunConcat(s, first, rest);
      run := first + rest;
    }
  }

  // ---------- What is missing for the documented promise ----------

  predicate Spaced(log: seq<Record>) {
    forall i, j :: 0 <= i < j < |log| ==> log[j].stamp - log[i].stamp >= MIN_INTERVAL
  }

  /** If the step stamps, the stamp it finds under the write lock is at least 500 ms old. */
  predicate StampFindsOld(s: State, a: Step) {
    a.Stamp? ==> s.log == [] || s.clock - s.stamp >= MIN_INTERVAL
  }

  predicate EveryStampFindsOld(s: State, run: seq<Step>)
    requires CanRun(s, run)
    decreases |run|
  {
    run == [] || (StampFindsOld(s, run[0]) && EveryStampFindsOld(Next(s, run[0]), run[1..]))
  }

  /** One stamp keeps all rechecks 500 ms apart exactly when the comparison made under `try_read`
      still holds of the value found under the write lock. */
  lemma StampKeepsSpacingIff(s: State, c: Caller)
    requires Inv(s) && Enabled(s, Stamp(c))
    ensures Spaced(Next(s, Stamp(c)).log)
            <==> Spaced(s.log) && (s.log == [] || s.clock - s.stamp >= MIN_INTERVAL)
  {
    var n := |s.log|;
    var after := Next(s, Stamp(c)).log;
    assert forall i :: 0 <= i < n ==> after[i] == s.log[i];
    if Spaced(after) && n > 0 {
      assert after[n].stamp - after[n - 1].stamp >= MIN_INTERVAL;
    }
  }

  /** Over every run, all rechecks are 500 ms apart exactly when each stamp that is replaced was that
      old under the write lock, where the code does not read it again. */
  lemma {:induction false} SpacedRunIff(s: State, run: seq<Step>)
    requires Inv(s) && Spaced(s.log) && CanRun(s, run)
    ensures Spaced(Run(s, run).log) <==> EveryStampFindsOld(s, run)
    decreases |run|
  {
    if run != [] {
      var a, t := run[0], Next(s, run[0]);
      StepKeepsInv(s, a);
      if a.Stamp? { StampKeepsSpacingIff(s, a.c); }
      if Spaced(t.log) { SpacedRunIff(t, run[1..]); } else { LogGrows(t, run[1..]); }
    }
  }

  lemma {:induction false} LogGrows(s: State, run: seq<Step>)
    requires CanRun(s, run)
    ensures s.log <= Run(s, run).log
    ensures Spaced(Run(s, run).log) ==> Spaced(s.log)
    decreases |run|
  {
    if run != [] { LogGrows(Next(s, run[0]), run[1..]); }
  }

  /** Two callers that both pass `try_read` first: the second recheck starts with no delay at all. */
  lemma OverlapBreaksSpacing(clock: Instant)
    ensures var s := State(clock, clock - MIN_INTERVAL, None, map[], [], 0);
            var run := [TryPass(1), TryPass(2), Lock(1), Stamp(1), Finish(1), Lock(2), Stamp(2)];
            && Initial(s) && CanRun(s, run)
            && Run(s, run).log == [Record(1, 0, 2, clock), Record(2, 1, 5, clock)]
  {
    var past := clock - MIN_INTERVAL;
    var s0 := State(clock, past, None, map[], [], 0);
    var s1 := State(clock, past, None, map[1 := Passed(0)], [], 1);
    var s2 := State(clock, past, None, map[1 := Passed(0), 2 := Passed(1)], [], 2);
    OverlapFromBothPassed(clock, s2);
    OneStep(s1, TryPass(2), [Lock(1), Stamp(1), Finish(1), Lock(2), Stamp(2)], s2);
    OneStep(s0, TryPass(1), [TryPass(2), Lock(1), Stamp(1), Finish(1), Lock(2), Stamp(2)], s1);
  }

  lemma OverlapFromBothPassed(clock: Instant, s2: State)
    requires s2 == State(clock, clock - MIN_INTERVAL, None, map[1 := Passed(0), 2 := Passed(1)], [], 2)
    ensures var run := [Lock(1), Stamp(1), Finish(1), Lock(2), Stamp(2)];
            CanRun(s2, run) && Run(s2, run).log == [Record(1, 0, 2, clock), Record(2, 1, 5, clock)]
  {
    var first := Record(1, 0, 2, clock);
    var s3 := s2.(writer := Some(1), callers := map[1 := Holding(0, 2), 2 := Passed(1)], step := 3);
    var s4 := State(clock, clock, Some(1), map[1 := Rechecking, 2 := Passed(1)], [first], 4);
    var s5 := State(clock, clock, None, map[2 := Passed(1)], [first], 5);
    var s6 := State(clock, clock, Some(2), map[2 := Holding(1, 5)], [first], 6);
    var s7 := State(clock, clock, Some(2), map[2 := Rechecking], [first, Record(2, 1, 5, clock)], 7);
    OneStep(s6, Stamp(2), [], s7);
    OneStep(s5, Lock(2), [Stamp(2)], s6);
    OneStep(s4, Finish(1), [Lock(2), Stamp(2)], s5);
    OneStep(s3, Stamp(1), [Finish(1), Lock(2), Stamp(2)], s4);
    OneStep(s2, Lock(1), [Stamp(1), Finish(1), Lock(2), Stamp(2)], s3);
  }

  lemma OneStep(s: State, a: Step, rest: seq<Step>, t: State)
    requires Enabled(s, a) && Next(s, a) == t && CanRun(t, rest)
    ensures CanRun(s, [a] + rest) && Run(s, [a] + rest) == Run(t, rest)
  {
    assert ([a] + rest)[1..] == rest;
  }

  /** A caller on its own: too soon, it only gets None; otherwise it stamps whatever the clock reads
      once it has the lock. `ManagedChannelPool.GetChannel` has the same two outcomes. */
  lemma SoloCaller(s: State, c: Caller, d: nat)
    requires s.callers == map[] && s.writer == None
    ensures Enabled(s, TryPass(c)) <==> s.clock - s.stamp >= 500_000_000
    ensures Enabled(s, TryTooSoon(c)) <==> s.clock - s.stamp < 500_000_000
    ensures Enabled(s, TryTooSoon(c)) ==> Next(s, TryTooSoon(c)) == s.(step := s.step + 1)
    ensures var run := [TryPass(c), Advance(d), Lock(c), Stamp(c), Finish(c)];
            Enabled(s, TryPass(c)) ==>
              CanRun(s, run) && Run(s, run).stamp == s.clock + d && Run(s, run).callers == map[]
  {
    if Enabled(s, TryPass(c)) {
      var s1 := Next(s, TryPass(c));
      var s2 := Next(s1, Advance(d));
      var s3 := Next(s2, Lock(c));
      var s4 := Next(s3, Stamp(c));
      var s5 := Next(s4, Finish(c));
      OneStep(s4, Finish(c), [], s5);
      OneStep(s3, Stamp(c), [Finish(c)], s4);
      OneStep(s2, Lock(c), [Stamp(c), Finish(c)], s3);
      OneStep(s1, Advance(d), [Lock(c), Stamp(c), Finish(c)], s2);
      OneStep(s, TryPass(c), [Advance(d), Lock(c), Stamp(c), Finish(c)], s1);
      assert s5.callers == map[];
    }
  }
}
