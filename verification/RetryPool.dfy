/** The generated loop under the default policy against the pool, with the forced rechecks that
    `get_channel` makes on its own (macros.rs, retry.rs, pool.rs). */
module RetryPool {
  import opened Types
  import opened Backoff
  import opened Retry
  import Ready = ReadyList
  import Heap = BrokenHeap
  import Gate = RecheckGate
  import Pool

  /** What a caller's turn reads and changes: the pool's lists, its counter, the static stamp. */
  datatype View = View(lists: Pool.Lists, index: nat, stamp: Instant)

  function ViewOf(pool: Pool.ManagedChannelPool, gate: Gate.Gate): View
    reads pool.ready, pool.broken, gate
  {
    View(Pool.Lists(pool.ready.channels, pool.broken.addresses), pool.ready.index, gate.stamp)
  }

  /** What one turn of the loop meets: the lists and the stamp as other tasks, and callers of any pool,
      have left them since the last turn; what happens around `get_channel`; the server's answer; and
      the reading of a report. */
  datatype Round = Round(found: Pool.Lists, renewed: Instant, e: Pool.Meanwhile, reply: Reply, now: Instant)

  /** Since the last turn other tasks have only added to the ready list, though they may have done what
      they like to the heap; the stamp has not gone back. */
  predicate Lawful(v: View, r: Round) { v.lists.ready <= r.found.ready && v.stamp <= r.renewed }

  predicate Answered(r: Round) { Pool.Answered(r.e.first) }

  // ---------- One turn ----------

  /** `get_channel` waits for the lock. */
  predicate Waits(r: Round) { Pool.Waited(r.found, r.renewed, r.e) }

  /** `get_channel` forces a recheck. */
  predicate Asks(r: Round) { Pool.Asked(r.found, r.renewed, r.e) }

  /** The lists as `get_channel` leaves them. */
  function Left(r: Round): Pool.Lists
    requires Answered(r)
  {
    if Asks(r) then Pool.AfterFirst(r.e.first, r.e.raced) else if Waits(r) then r.e.locked else r.found
  }

  function TurnIn(v: View, r: Round): Turn
    requires Answered(r)
  {
    Turn(Pool.Any(Left(r).ready, v.index), r.reply)
  }

  /** The lists once the outcome of the k-th turn has been judged and, if it is dead, reported. */
  function Judge(turn: Turn, k: nat, now: Instant, p: Pool.Lists): Pool.Lists {
    if JudgedDead(DefaultPolicy, turn, k) then
      var ip := turn.channel.value.ip;
      Pool.Lists(Ready.Remove(p.ready, ip), Heap.Insert(p.broken, FirstFailure(now, ip)))
    else p
  }

  function AfterTurn(v: View, r: Round, k: nat): View
    requires Answered(r)
  {
    var turn := TurnIn(v, r);
    View(Judge(turn, k, r.now, Left(r)),
         if turn.channel.Some? then (v.index + 1) % USIZE_VALUES else v.index,
         if Asks(r) then r.e.stamped else r.renewed)
  }

  // ---------- A whole call ----------

  /** Where a call has come to: the turns it met, how many of them were retried, how many forced a
      recheck, how many entries those made ready, and how many other tasks added. */
  datatype Tally =
    Tally(view: View, outcome: Outcome, met: seq<Turn>, retries: nat, forced: nat, gained: nat, added: nat)

  function OneMore(t: Tally, r: Round): Tally
    requires Answered(r)
  {
    var v, k := t.view, |t.met|;
    var outcome := OutcomeOf(DefaultPolicy, TurnIn(v, r), k);
    Tally(AfterTurn(v, r, k), outcome, t.met + [TurnIn(v, r)],
          t.retries + (if outcome.Running? then 1 else 0),
          t.forced + (if Asks(r) then 1 else 0),
          t.gained + (if Asks(r) then |Left(r).ready| else 0),
          t.added + (if |r.found.ready| > |v.lists.ready| then |r.found.ready| - |v.lists.ready| else 0)
                  + (if Waits(r) && !Asks(r) then |r.e.locked.ready| else 0))
  }

  predicate AllAnswered(rounds: seq<Round>) { forall k :: 0 <= k < |rounds| ==> Answered(rounds[k]) }

  /** The call against these rounds, up to its end or until they run out. */
  function Calls(v: View, rounds: seq<Round>): Tally
    requires AllAnswered(rounds)
  {
    if rounds == [] then Tally(v, Running, [], 0, 0, 0, 0)
    else
      var n := |rounds| - 1;
      var t := Calls(v, rounds[..n]);
      if t.outcome.Running? then OneMore(t, rounds[n]) else t
  }

  /** Every round that is met is lawful where it is met. */
  predicate AllLawful(v: View, rounds: seq<Round>)
    requires AllAnswered(rounds)
  {
    rounds == [] ||
    var n := |rounds| - 1;
    && AllLawful(v, rounds[..n])
    && (Calls(v, rounds[..n]).outcome.Running? ==> Lawful(Calls(v, rounds[..n]).view, rounds[n]))
  }

  lemma {:induction false} LawfulAt(v: View, rounds: seq<Round>, n: nat)
    requires AllAnswered(rounds) && AllLawful(v, rounds) && n < |rounds|
    requires Calls(v, rounds[..n]).outcome.Running?
    ensures Lawful(Calls(v, rounds[..n]).view, rounds[n])
    decreases |rounds|
  {
    var m := |rounds| - 1;
    if n < m {
      assert rounds[..m][..n] == rounds[..n] && rounds[..m][n] == rounds[n];
      LawfulAt(v, rounds[..m], n);
    } else {
      assert rounds[..n] == rounds[..m];
    }
  }

  lemma {:induction false} CallsRunning(v: View, rounds: seq<Round>)
    requires AllAnswered(rounds)
    ensures Calls(v, rounds).outcome.Running? ==> |Calls(v, rounds).met| == |rounds|
    ensures |Calls(v, rounds).met| <= |rounds|
  {
    if rounds != [] { CallsRunning(v, rounds[..|rounds| - 1]); }
  }

  lemma CallsSnoc(v: View, rounds: seq<Round>, n: nat)
    requires AllAnswered(rounds) && n < |rounds| && Calls(v, rounds[..n]).outcome.Running?
    ensures Calls(v, rounds[..n + 1]) == OneMore(Calls(v, rounds[..n]), rounds[n])
    ensures |Calls(v, rounds[..n]).met| == n && |Calls(v, rounds[..n + 1]).met| == n + 1
  {
    CallsRunning(v, rounds[..n]);
    assert rounds[..n + 1][..n] == rounds[..n];
  }

  lemma {:induction false} EndedCall(v: View, rounds: seq<Round>, n: nat)
    requires AllAnswered(rounds) && n <= |rounds| && !Calls(v, rounds[..n]).outcome.Running?
    ensures Calls(v, rounds) == Calls(v, rounds[..n])
    decreases |rounds|
  {
    if n == |rounds| {
      assert rounds[..n] == rounds;
    } else {
      var m := |rounds| - 1;
      assert rounds[..m][..n] == rounds[..n];
      EndedCall(v, rounds[..m], n);
    }
  }

  /** One more round takes a running call from t to u. */
  ghost predicate Follows(t: Tally, r: Round, k: nat, u: Tally) {
    && Answered(r) && Lawful(t.view, r)
    && u.view == AfterTurn(t.view, r, k)
    && u.outcome == OutcomeOf(DefaultPolicy, TurnIn(t.view, r), k)
  }

  ghost predicate At(pool: Pool.ManagedChannelPool, gate: Gate.Gate, t: Tally, outcome: Outcome)
    reads pool.ready, pool.broken, gate
  {
    ViewOf(pool, gate) == t.view && outcome == t.outcome
  }

  /** The body of the loop, over the pool's own `get_channel` and `report_broken`. */
  method TakeTurn(pool: Pool.ManagedChannelPool, gate: Gate.Gate, r: Round, tries: U8,
                  ghost k: nat, ghost t: Tally, ghost u: Tally)
    returns (outcome: Outcome)
    requires pool.ready.Valid() && At(pool, gate, t, Running) && tries == Tries(k) && Follows(t, r, k, u)
    modifies gate, pool.ready, pool.broken
    ensures pool.ready.Valid() && At(pool, gate, u, outcome)
  {
    pool.ready.channels, pool.broken.addresses, gate.stamp := r.found.ready, r.found.broken, r.renewed;
    var channel := pool.GetChannel(gate, r.e);
    if channel.None? { return Unavailable; }
    if r.reply.Response? { return Done(r.reply); }
    var verdict := DefaultPolicy(r.reply.status, tries);
    if verdict.server.Dead? { pool.ReportBroken(channel.value.ip, r.now); }
    outcome := if verdict.time.DoNotRetry? then Done(r.reply) else Running;
  }

  /** The progress of a call, round by round, until it has ended. */
  ghost predicate Chain(ts: seq<Tally>, rounds: seq<Round>) {
    && |ts| == |rounds| + 1 && ts[0].outcome == Running
    && forall n :: 0 <= n < |rounds| && ts[n].outcome.Running? ==> Follows(ts[n], rounds[n], n, ts[n + 1])
  }

  lemma Progress(v: View, rounds: seq<Round>) returns (ts: seq<Tally>)
    requires AllAnswered(rounds) && AllLawful(v, rounds)
    ensures Chain(ts, rounds) && ts[0].view == v
    ensures forall n :: 0 <= n < |rounds| && ts[n].outcome.Running? && !ts[n + 1].outcome.Running? ==>
              ts[n + 1] == Calls(v, rounds) && |ts[n + 1].met| == n + 1
    ensures ts[|rounds|] == Calls(v, rounds)
    ensures ts[|rounds|].outcome.Running? ==> |ts[|rounds|].met| == |rounds|
  {
    ts := seq(|rounds| + 1, n requires 0 <= n <= |rounds| => Calls(v, rounds[..n]));
    forall n | 0 <= n < |rounds| && ts[n].outcome.Running?
      ensures Follows(ts[n], rounds[n], n, ts[n + 1])
      ensures !ts[n + 1].outcome.Running? ==> ts[n + 1] == Calls(v, rounds) && |ts[n + 1].met| == n + 1
    {
      CallsSnoc(v, rounds, n);
      LawfulAt(v, rounds, n);
      if !ts[n + 1].outcome.Running? { EndedCall(v, rounds, n + 1); }
    }
    assert rounds[..|rounds|] == rounds;
    CallsRunning(v, rounds);
  }

  lemma ChainLink(ts: seq<Tally>, rounds: seq<Round>, n: nat)
    requires Chain(ts, rounds) && n < |rounds| && ts[n].outcome.Running?
    ensures Follows(ts[n], rounds[n], n, ts[n + 1])
  {}

  /** The loop, along a progress that its specification allows. */
  method TakeTurns(pool: Pool.ManagedChannelPool, gate: Gate.Gate, rounds: seq<Round>, ghost ts: seq<Tally>)
    returns (outcome: Outcome, n: nat)
    requires pool.ready.Valid() && Chain(ts, rounds) && ViewOf(pool, gate) == ts[0].view
    modifies gate, pool.ready, pool.broken
    ensures pool.ready.Valid() && n <= |rounds|
    ensures At(pool, gate, ts[n], outcome)
    ensures if outcome.Running? then n == |rounds| else n > 0 && ts[n - 1].outcome.Running?
  {
    var tries: U8 := 0;
    outcome, n := Running, 0;
    while n < |rounds| && outcome.Running?
      invariant pool.ready.Valid() && n <= |rounds| && tries == if n == 0 then 0 else Tries(n - 1)
      invariant At(pool, gate, ts[n], outcome)
      invariant !outcome.Running? ==> n > 0 && ts[n - 1].outcome.Running?
    {
      ChainLink(ts, rounds, n);
      NextTries(n);
      tries := Bumped(tries);
      outcome := TakeTurn(pool, gate, rounds[n], tries, n, ts[n], ts[n + 1]);
      n := n + 1;
    }
  }

  /** A whole call over the pool ends as `Calls` says. */
  method CallDefault(pool: Pool.ManagedChannelPool, gate: Gate.Gate, rounds: seq<Round>)
    returns (outcome: Outcome, n: nat)
    requires pool.ready.Valid() && AllAnswered(rounds) && AllLawful(ViewOf(pool, gate), rounds)
    modifies gate, pool.ready, pool.broken
    ensures pool.ready.Valid()
    ensures var t := Calls(old(ViewOf(pool, gate)), rounds);
            ViewOf(pool, gate) == t.view && outcome == t.outcome && n == |t.met|
  {
    ghost var ts := Progress(ViewOf(pool, gate), rounds);
    outcome, n := TakeTurns(pool, gate, rounds, ts);
  }

  /** The turns met are turns of the loop that `CallWithRetry` runs, so its trace theorems apply. */
  lemma {:induction false} CallsTakeTheLoopsTurns(v: View, rounds: seq<Round>)
    requires AllAnswered(rounds)
    ensures var t := Calls(v, rounds); Took(DefaultPolicy, t.met, |t.met|, t.outcome)
  {
    if rounds != [] {
      var n := |rounds| - 1;
      var before, t := Calls(v, rounds[..n]), Calls(v, rounds);
      CallsTakeTheLoopsTurns(v, rounds[..n]);
      if before.outcome.Running? {
        var k := |before.met|;
        MoreTurns(DefaultPolicy, before.met, t.met[k]);
        TookOneMore(DefaultPolicy, t.met, k);
      }
    }
  }

  lemma MoreTurns(policy: Policy, met: seq<Turn>, turn: Turn)
    requires TookSoFar(policy, met, |met|, Running)
    ensures TookSoFar(policy, met + [turn], |met|, Running)
  {
    forall k | 0 <= k < |met| - 1 ensures RetriesAt(policy, met + [turn], k) { assert RetriesAt(policy, met, k); }
  }

  /** What a turn with a channel does, in terms of the reply alone. An answer of the server, be it a
      response or an error it sent, ends the call, reports nobody, and leaves the lists as `get_channel`
      left them; a failure with a source has the address reported, and the call goes on. */
  lemma TurnByReply(t: Tally, r: Round)
    requires Answered(r) && Left(r).ready != []
    ensures var u, q := OneMore(t, r), Left(r);
            var e := q.ready[t.view.index % |q.ready|];
            if r.reply.Response? || !r.reply.status.hasSource then
              u.outcome == Done(r.reply) && u.view.lists == q && u.retries == t.retries
            else
              && u.outcome == Running && u.retries == t.retries + 1
              && u.view.lists.ready == Ready.Remove(q.ready, e.ip)
              && multiset(u.view.lists.broken)[FirstFailure(r.now, e.ip)] == 1
              && forall x: Delayed :: x != FirstFailure(r.now, e.ip) ==>
                   multiset(u.view.lists.broken)[x] == if x.ip == e.ip then 0 else multiset(q.broken)[x]
  {
    var q := Left(r);
    Heap.InsertEffect(q.broken, FirstFailure(r.now, q.ready[t.view.index % |q.ready|].ip));
  }

  /** Of a whole call: it ends with the reply of a turn exactly when that turn had a channel and its
      reply has no source; until then every turn failed with a source; and the addresses it reported
      are those of its failures with a source, in order. */
  lemma CallByReplies(v: View, rounds: seq<Round>, request: Request)
    requires AllAnswered(rounds)
    ensures var t := Calls(v, rounds);
            var n := |t.met|;
            && (forall k :: 0 <= k < n - 1 ==>
                  t.met[k].channel.Some? && t.met[k].reply.Failed? && t.met[k].reply.status.hasSource)
            && (t.outcome.Done? <==>
                  && n > 0 && t.met[n - 1].channel.Some?
                  && !(t.met[n - 1].reply.Failed? && t.met[n - 1].reply.status.hasSource))
            && (t.outcome.Done? ==> t.outcome.reply == t.met[n - 1].reply)
            && Collect(ReportOf, Trace(DefaultPolicy, request, t.met)) == SourcedIps(t.met)
  {
    var t := Calls(v, rounds);
    CallsTakeTheLoopsTurns(v, rounds);
    CallTrace(DefaultPolicy, request, t.met, |t.met|, t.outcome);
    DefaultReportsSourced(request, t.met);
    assert t.met[..|t.met|] == t.met;
  }

  // ---------- The budget ----------

  lemma Drawn(ready: seq<Entry>, e: Entry)
    requires e in ready
    ensures |Ready.Remove(ready, e.ip)| == |ready| - 1
    ensures forall x :: x in ready ==> x.ip == e.ip || x in Ready.Remove(ready, e.ip)
  {
    Ready.RemoveTakesFirst(ready, e.ip);
    var i :| 0 <= i < |ready| && ready[i] == e;
    assert Ready.HasIp(ready, e.ip);
    forall x | x in ready && x.ip != e.ip ensures x in Ready.Remove(ready, e.ip) {
      assert x in multiset(ready) - multiset{ready[Ready.Position(ready, e.ip)]};
      assert x in multiset(Ready.Remove(ready, e.ip));
    }
  }

  /** A retry costs one ready entry, the one that was drawn; every other end of a turn costs none. */
  lemma TurnCosts(v: View, r: Round, k: nat)
    requires Answered(r)
    ensures |AfterTurn(v, r, k).lists.ready|
            == |Left(r).ready| - if OutcomeOf(DefaultPolicy, TurnIn(v, r), k).Running? then 1 else 0
  {
    var turn := TurnIn(v, r);
    if turn.channel.Some? { Drawn(Left(r).ready, turn.channel.value); }
  }

  /** Entries left and retries add up to the entries there were, those that forced rechecks made ready
      and those that other tasks added. */
  predicate Balanced(initial: nat, t: Tally) {
    && |t.view.lists.ready| + t.retries == initial + t.gained + t.added
    && (t.forced == 0 ==> t.gained == 0)
    && |t.met| == t.retries + (if t.outcome.Running? then 0 else 1)
    && (t.outcome.Unavailable? ==> t.view.lists.ready == [])
    && (t.outcome.Done? && t.outcome.reply.Failed? ==> !t.outcome.reply.status.hasSource)
  }

  lemma StaysBalanced(initial: nat, t: Tally, r: Round)
    requires Balanced(initial, t) && t.outcome.Running? && Answered(r) && Lawful(t.view, r)
    ensures Balanced(initial, OneMore(t, r))
  {
    TurnCosts(t.view, r, |t.met|);
  }

  lemma {:induction false} Budget(v: View, rounds: seq<Round>)
    requires AllAnswered(rounds) && AllLawful(v, rounds)
    ensures Balanced(|v.lists.ready|, Calls(v, rounds))
  {
    if rounds != [] {
      var n := |rounds| - 1;
      Budget(v, rounds[..n]);
      if Calls(v, rounds[..n]).outcome.Running? {
        StaysBalanced(|v.lists.ready|, Calls(v, rounds[..n]), rounds[n]);
      }
    }
  }

  /** If a recheck is forced, the resolver names at most `named` addresses in it and at most `broken`
      are broken when it starts; until the first future completes, entries come from its futures alone:
      one from each recheck, and from a DNS check the list it installs (`CallRuns.RaceGains`). */
  predicate Narrow(r: Round, named: nat, broken: nat) {
    && |r.e.locked.broken| <= broken
    && match r.e.first
       case RecheckFirst(_, _) => |r.e.raced.ready| < named + |r.e.locked.broken|
       case DnsFirst(None, _) => |r.e.raced.ready| <= |r.e.locked.broken|
       case DnsFirst(Some(ips), _) => |ips| <= named
  }

  predicate AllNarrow(rounds: seq<Round>, named: nat, broken: nat) {
    forall k :: 0 <= k < |rounds| ==> Narrow(rounds[k], named, broken)
  }

  lemma GainedInTurn(t: Tally, r: Round, named: nat, broken: nat)
    requires Answered(r) && Narrow(r, named, broken)
    ensures OneMore(t, r).gained <= t.gained + if Asks(r) then named + broken else 0
  {
    if r.e.first.DnsFirst? && r.e.first.resolved.Some? {
      var up, down := Pool.ScanInOrder(r.e.first.resolved.value, r.e.first.attempts, r.e.raced.ready, r.e.raced.broken);
    }
  }

  lemma Times(width: nat, n: nat)
    ensures width * (n + 1) == width * n + width
  {}

  lemma {:induction false} GainedByRechecks(v: View, rounds: seq<Round>, named: nat, broken: nat)
    requires AllAnswered(rounds) && AllNarrow(rounds, named, broken)
    ensures Calls(v, rounds).gained <= (named + broken) * Calls(v, rounds).forced
  {
    if rounds != [] {
      var n := |rounds| - 1;
      GainedByRechecks(v, rounds[..n], named, broken);
      if Calls(v, rounds[..n]).outcome.Running? {
        GainedSoFar(Calls(v, rounds[..n]), rounds[n], named, broken);
      }
    }
  }

  lemma GainedSoFar(t: Tally, r: Round, named: nat, broken: nat)
    requires Answered(r) && Narrow(r, named, broken) && t.gained <= (named + broken) * t.forced
    ensures OneMore(t, r).gained <= (named + broken) * OneMore(t, r).forced
  {
    GainedInTurn(t, r, named, broken);
    Times(named + broken, t.forced);
  }

  /** The readings of a call never go back, and a stamp was once a reading. */
  ghost predicate Clocked(rounds: seq<Round>) {
    && (forall k :: 0 <= k < |rounds| ==> rounds[k].renewed <= rounds[k].e.tried <= rounds[k].e.stamped)
    && (forall j, k :: 0 <= j < k < |rounds| ==> rounds[j].e.stamped <= rounds[k].e.tried)
  }

  /** The stamps of the call so far lie in the rounds it has met, 500 ms apart. */
  predicate StampsApart(t: Tally, rounds: seq<Round>) {
    t.forced > 0 ==>
      && 0 < |t.met| <= |rounds|
      && (t.forced - 1) * Gate.MIN_INTERVAL <= t.view.stamp - rounds[0].e.tried
      && t.view.stamp <= rounds[|t.met| - 1].e.stamped
  }

  lemma ClockedPrefix(rounds: seq<Round>, n: nat)
    requires Clocked(rounds) && n < |rounds|
    ensures Clocked(rounds[..n]) && rounds[0].e.tried <= rounds[n].e.tried <= rounds[n].e.stamped
    ensures n > 0 ==> rounds[n - 1].e.stamped <= rounds[n].e.tried
  {
    if n > 0 { assert rounds[0].e.tried <= rounds[0].e.stamped <= rounds[n].e.tried; }
  }

  lemma StampsStayApart(t: Tally, rounds: seq<Round>)
    requires rounds != [] && |t.met| == |rounds| - 1 && StampsApart(t, rounds[..|rounds| - 1])
    requires var r := rounds[|rounds| - 1];
             && Answered(r) && Lawful(t.view, r)
             && rounds[0].e.tried <= r.e.tried && r.renewed <= r.e.tried <= r.e.stamped
    requires |rounds| > 1 ==> rounds[|rounds| - 2].e.stamped <= rounds[|rounds| - 1].e.tried
    ensures StampsApart(OneMore(t, rounds[|rounds| - 1]), rounds)
  {}

  /** The forced rechecks of one call are 500 ms apart, so time bounds their number. */
  lemma {:induction false} RechecksTakeTime(v: View, rounds: seq<Round>)
    requires AllAnswered(rounds) && AllLawful(v, rounds) && Clocked(rounds)
    ensures StampsApart(Calls(v, rounds), rounds)
  {
    if rounds != [] {
      var n := |rounds| - 1;
      ClockedPrefix(rounds, n);
      CallsRunning(v, rounds[..n]);
      RechecksTakeTime(v, rounds[..n]);
      if Calls(v, rounds[..n]).outcome.Running? { StampsStayApart(Calls(v, rounds[..n]), rounds); }
    }
  }

  /** What forced rechecks can make ready in the time elapsed. */
  function Allowance(width: nat, elapsed: nat): nat { width * (1 + elapsed / Gate.MIN_INTERVAL) }

  lemma Scaled(width: nat, forced: nat, elapsed: nat)
    requires forced > 0 ==> (forced - 1) * Gate.MIN_INTERVAL <= elapsed
    ensures width * forced <= Allowance(width, elapsed)
  {
    var most := 1 + elapsed / Gate.MIN_INTERVAL;
    assert forced <= most;
    assert width * most == width * forced + width * (most - forced);
  }

  /** From its first reading to that of its last turn. */
  function Elapsed(v: View, rounds: seq<Round>): (elapsed: nat)
    requires AllAnswered(rounds) && Clocked(rounds)
  {
    var n := |Calls(v, rounds).met|;
    CallsRunning(v, rounds);
    if n == 0 then 0 else
      assert rounds[0].e.tried <= rounds[0].e.stamped <= rounds[n - 1].e.stamped;
      rounds[n - 1].e.stamped - rounds[0].e.tried
  }

  lemma GainedInTime(v: View, rounds: seq<Round>, named: nat, broken: nat)
    requires AllAnswered(rounds) && AllLawful(v, rounds) && Clocked(rounds) && AllNarrow(rounds, named, broken)
    ensures Calls(v, rounds).gained <= Allowance(named + broken, Elapsed(v, rounds))
  {
    GainedByRechecks(v, rounds, named, broken);
    RechecksTakeTime(v, rounds);
    Scaled(named + broken, Calls(v, rounds).forced, Elapsed(v, rounds));
  }

  /** The whole budget: a call retries at most once for each entry that was ready, each that another
      task added, and, for every 500 ms begun, each address that a forced recheck can make ready:
      those the resolver names and those that are broken. */
  lemma RetriesBounded(v: View, rounds: seq<Round>, named: nat, broken: nat)
    requires AllAnswered(rounds) && AllLawful(v, rounds) && Clocked(rounds) && AllNarrow(rounds, named, broken)
    ensures var t := Calls(v, rounds);
            t.retries <= |v.lists.ready| + t.added
                         + (named + broken) * (1 + Elapsed(v, rounds) / Gate.MIN_INTERVAL)
  {
    Budget(v, rounds);
    GainedInTime(v, rounds, named, broken);
  }

  // ---------- No bound without the clock ----------

  /** A turn 500 ms after the stamp: nobody has touched the lists, the recheck connects to a broken
      address, and the call over that channel then fails. */
  function Relapse(v: View): (r: Round)
    ensures Answered(r)
  {
    var at := v.stamp + Gate.MIN_INTERVAL;
    var first := if v.lists.broken == [] then Pool.DnsFirst(None, [])
                 else Pool.RecheckFirst(v.lists.broken[0], Pool.Connected(0));
    Round(v.lists, v.stamp, Pool.Meanwhile(false, at, v.lists, at, v.lists, first), Failed(Status(0, true)), at)
  }

  function Relapses(v: View, n: nat): (rounds: seq<Round>)
    ensures |rounds| == n && AllAnswered(rounds)
  {
    if n == 0 then []
    else
      var before := Relapses(v, n - 1);
      before + [Relapse(Calls(v, before).view)]
  }

  lemma RelapseTurn(t: Tally)
    requires t.outcome.Running? && t.view.lists.ready == [] && t.view.lists.broken != []
    ensures Lawful(t.view, Relapse(t.view))
    ensures var u := OneMore(t, Relapse(t.view));
            && u.outcome.Running? && u.retries == t.retries + 1 && u.forced == t.forced + 1 && u.added == t.added
            && u.view.lists.ready == [] && u.view.lists.broken != []
            && u.view.stamp == t.view.stamp + Gate.MIN_INTERVAL
  {
    TurnCosts(t.view, Relapse(t.view), |t.met|);
  }

  /** However many turns are asked for: from an empty ready list and with nobody adding entries, a call
      retries that often when each turn comes 500 ms after the last stamp, each forced recheck connects
      and each call fails. So no bound by the entries alone exists, and the default policy sets no limit
      of its own. */
  lemma {:induction false} NoBoundByEntries(v: View, n: nat)
    requires v.lists.ready == [] && v.lists.broken != []
    ensures var rounds := Relapses(v, n);
            && AllLawful(v, rounds)
            && (forall k :: 0 <= k < n ==>
                  rounds[k].e.tried == rounds[k].e.stamped == v.stamp + (k + 1) * Gate.MIN_INTERVAL)
    ensures var t := Calls(v, Relapses(v, n));
            && t.outcome.Running? && t.retries == t.forced == n && t.added == 0
            && t.view.lists.ready == [] && t.view.lists.broken != []
            && t.view.stamp == v.stamp + n * Gate.MIN_INTERVAL
  {
    if n > 0 {
      var before, rounds := Relapses(v, n - 1), Relapses(v, n);
      NoBoundByEntries(v, n - 1);
      assert rounds[..n - 1] == before;
      RelapseTurn(Calls(v, before));
    }
  }

  // ---------- How a call ends for want of a channel ----------

  /** The future that completes first, working on the lists p, leaves nothing ready. */
  predicate Fruitless(first: Pool.First, p: Pool.Lists)
    requires Pool.Answered(first)
  {
    match first
    case RecheckFirst(_, attempt) => p.ready == [] && attempt.Refused?
    case DnsFirst(None, _) => p.ready == []
    case DnsFirst(Some(ips), attempts) =>
      forall i :: 0 <= i < |ips| ==>
        !Ready.HasIp(p.ready, ips[i]) && (Heap.HasIp(p.broken, ips[i]) || attempts[i].Refused?)
  }

  lemma FruitlessIff(first: Pool.First, p: Pool.Lists)
    requires Pool.Answered(first)
    ensures Pool.AfterFirst(first, p).ready == [] <==> Fruitless(first, p)
  {
    Pool.ForcedAnswerIff(first, p, 0);
  }

  /** A turn ends the call as unavailable exactly when it finds nothing ready and then is too soon after
      the stamp for a recheck, or finds nothing once it has waited for another caller's, or finds
      nothing under the lock and its own recheck is fruitless. */
  lemma UnavailableIff(v: View, r: Round, k: nat)
    requires Answered(r)
    ensures OutcomeOf(DefaultPolicy, TurnIn(v, r), k).Unavailable? <==>
            && r.found.ready == []
            && if r.e.busy then r.e.locked.ready == []
               else || r.e.tried - r.renewed < Gate.MIN_INTERVAL
                    || (r.e.locked.ready == [] && Fruitless(r.e.first, r.e.raced))
  {
    FruitlessIff(r.e.first, r.e.raced);
  }

  /** The next turn, `later` after the stamp, with nothing else happening. */
  function Again(v: View, later: nat): (r: Round)
    ensures Answered(r)
  {
    var at := v.stamp + later;
    Round(v.lists, v.stamp, Pool.Meanwhile(false, at, v.lists, at, v.lists, Pool.DnsFirst(None, [])),
          Failed(Status(0, true)), at)
  }

  /** A call that fails sooner than that ends: the recheck connected, the call over the new channel
      failed, and `get_channel` then gives up although an address is left to recheck. */
  lemma FastFailureEnds(v: View, later: nat)
    requires v.lists.ready == [] && v.lists.broken != [] && later < Gate.MIN_INTERVAL
    ensures var first := Relapse(v);
            var w := Calls(v, [first]).view;
            var t := Calls(v, [first, Again(w, later)]);
            && AllLawful(v, [first, Again(w, later)])
            && t.outcome == Unavailable && t.retries == 1 && t.forced == 1
            && t.view.lists.broken != []
  {
    var none := Tally(v, Running, [], 0, 0, 0, 0);
    RelapseTurn(none);
    var t := OneMore(none, Relapse(v));
    TwoRounds(v, Relapse(v), Again(t.view, later));
    TooSoon(t, later);
  }

  lemma TwoRounds(v: View, a: Round, b: Round)
    requires Answered(a) && Answered(b) && Lawful(v, a)
    requires var t := OneMore(Tally(v, Running, [], 0, 0, 0, 0), a); t.outcome.Running? && Lawful(t.view, b)
    ensures var t := OneMore(Tally(v, Running, [], 0, 0, 0, 0), a);
            Calls(v, [a]) == t && Calls(v, [a, b]) == OneMore(t, b) && AllLawful(v, [a, b])
  {
    assert [a, b][..1] == [a] && [a][..0] == [];
    assert AllLawful(v, [a]);
  }

  lemma TooSoon(t: Tally, later: nat)
    requires t.view.lists.ready == [] && later < Gate.MIN_INTERVAL
    ensures var u := OneMore(t, Again(t.view, later));
            u.outcome == Unavailable && u.retries == t.retries && u.forced == t.forced && u.view.lists == t.view.lists
  {
    UnavailableIff(t.view, Again(t.view, later), |t.met|);
  }

  // ---------- Termination ----------

  /** No round that is met finds more ready entries than the last turn left, nor any under the lock, and
      every forced recheck fails. */
  predicate AllClosed(v: View, rounds: seq<Round>)
    requires AllAnswered(rounds) && AllLawful(v, rounds)
  {
    rounds == [] ||
    var n := |rounds| - 1;
    var t := Calls(v, rounds[..n]);
    && AllClosed(v, rounds[..n])
    && (t.outcome.Running? ==>
          && |rounds[n].found.ready| == |t.view.lists.ready|
          && (Waits(rounds[n]) ==> rounds[n].e.locked.ready == [])
          && (Asks(rounds[n]) ==> Fruitless(rounds[n].e.first, rounds[n].e.raced)))
  }

  lemma {:induction false} ClosedGainsNothing(v: View, rounds: seq<Round>)
    requires AllAnswered(rounds) && AllLawful(v, rounds) && AllClosed(v, rounds)
    ensures Calls(v, rounds).gained == 0 && Calls(v, rounds).added == 0
  {
    if rounds != [] {
      var n := |rounds| - 1;
      var t := Calls(v, rounds[..n]);
      ClosedGainsNothing(v, rounds[..n]);
      if t.outcome.Running? && Asks(rounds[n]) { FruitlessIff(rounds[n].e.first, rounds[n].e.raced); }
    }
  }

  /** With nobody adding entries and every forced recheck failing, a call ends within one turn more than
      there were ready entries. */
  lemma ClosedCallEnds(v: View, rounds: seq<Round>)
    requires AllAnswered(rounds) && AllLawful(v, rounds) && AllClosed(v, rounds)
    requires |rounds| > |v.lists.ready|
    ensures !Calls(v, rounds).outcome.Running?
    ensures |Calls(v, rounds).met| <= |v.lists.ready| + 1
  {
    ClosedGainsNothing(v, rounds);
    Budget(v, rounds);
    CallsRunning(v, rounds);
  }

  ghost predicate AllBroken(ready: seq<Entry>, left: seq<Entry>, broken: seq<Delayed>) {
    forall e :: e in ready ==> e in left || Heap.HasIp(broken, e.ip)
  }

  /** The entry is for an address that the recheck's DNS check did not find, and so forgot. */
  predicate Forgotten(e: Entry, last: Option<Pool.First>) {
    last.Some? && last.value.DnsFirst? && last.value.resolved.Some? && e.ip !in last.value.resolved.value
  }

  /** The loop itself, with nobody else about: if every forced recheck fails it ends, after at most one
      attempt more than there were entries. It makes at most one recheck, as its last act; every address
      that was ready is still ready, or is broken, or the DNS check of that recheck dropped it. */
  method CallClosed(pool: Pool.ManagedChannelPool, gate: Gate.Gate, first: (Pool.Lists, nat) -> Pool.First,
                    serve: (Entry, nat) -> Reply, clock: nat -> Instant)
    returns (outcome: Outcome, retries: nat, last: Option<Pool.First>)
    requires pool.ready.Valid()
    requires forall p: Pool.Lists, k: nat :: p.ready == [] ==>
               Pool.Answered(first(p, k)) && Fruitless(first(p, k), p)
    modifies gate, pool.ready, pool.broken
    ensures !outcome.Running?
    ensures |pool.ready.channels| + retries == old(|pool.ready.channels|)
    ensures last.Some? ==> outcome.Unavailable?
    ensures forall e :: e in old(pool.ready.channels) ==>
              e in pool.ready.channels || Heap.HasIp(pool.broken.addresses, e.ip) || Forgotten(e, last)
    ensures outcome.Unavailable? ==> pool.ready.channels == []
    ensures outcome.Done? ==> exists e :: e in pool.ready.channels && outcome.reply == serve(e, retries)
                                          && !(outcome.reply.Failed? && outcome.reply.status.hasSource)
  {
    retries, last := 0, None;
    while true
      invariant pool.ready.Valid()
      invariant |pool.ready.channels| + retries == old(|pool.ready.channels|)
      invariant AllBroken(old(pool.ready.channels), pool.ready.channels, pool.broken.addresses)
      decreases |pool.ready.channels|
    {
      var p := Pool.Lists(pool.ready.channels, pool.broken.addresses);
      var stamp := gate.stamp;
      var f := if p.ready == [] then first(p, retries) else Pool.DnsFirst(None, []);
      var channel := pool.GetChannel(gate, Pool.Meanwhile(false, clock(2 * retries), p, clock(2 * retries + 1), p, f));
      if channel.None? {
        if clock(2 * retries) - stamp >= Gate.MIN_INTERVAL {
          last := Some(f);
          FruitlessIff(f, p);
          StillKnown(old(pool.ready.channels), p, f);
        }
        return Unavailable, retries, last;
      }
      if p.ready == [] { FruitlessIff(f, p); }
      var reply := serve(channel.value, retries);
      if reply.Response? { return Done(reply), retries, last; }
      var verdict := DefaultPolicy(reply.status, Tries(retries));
      if verdict.server.Dead? {
        Drawn(p.ready, channel.value);
        pool.ReportBroken(channel.value.ip, clock(2 * retries + 1));
        StillBroken(old(pool.ready.channels), p.ready, p.broken, channel.value, clock(2 * retries + 1));
      }
      if verdict.time.DoNotRetry? { return Done(reply), retries, last; }
      retries := retries + 1;
    }
  }

  /** A failing recheck forgets no broken address, but for a DNS check those not resolved. */
  lemma StillKnown(all: seq<Entry>, p: Pool.Lists, first: Pool.First)
    requires Pool.Answered(first) && p.ready == [] && Fruitless(first, p) && AllBroken(all, [], p.broken)
    ensures forall e :: e in all ==>
              Heap.HasIp(Pool.AfterFirst(first, p).broken, e.ip) || Forgotten(e, Some(first))
  {
    var q := Pool.AfterFirst(first, p);
    match first
    case RecheckFirst(address, attempt) =>
      var d := NextFailure(attempt.at, address);
      forall e | e in all ensures Heap.HasIp(q.broken, e.ip) { Heap.InsertHas(p.broken, d, e.ip); }
    case DnsFirst(None, _) =>
    case DnsFirst(Some(ips), attempts) =>
      FruitlessIff(first, p);
      forall e | e in all && e.ip in ips ensures Heap.HasIp(q.broken, e.ip) {
        ScanPlaces(ips, attempts, p, e.ip);
      }
  }

  lemma ScanPlaces(ips: seq<Ip>, attempts: seq<Pool.Attempt>, p: Pool.Lists, ip: Ip)
    requires |attempts| == |ips| && ip in ips && Pool.Scan(ips, attempts, p.ready, p.broken).ready == []
    ensures Heap.HasIp(Pool.Scan(ips, attempts, p.ready, p.broken).broken, ip)
  {
    Pool.ScanConsistentIff(ips, attempts, p.ready, p.broken);
  }

  lemma StillBroken(all: seq<Entry>, ready: seq<Entry>, broken: seq<Delayed>, e: Entry, now: Instant)
    requires AllBroken(all, ready, broken) && e in ready
    ensures AllBroken(all, Ready.Remove(ready, e.ip), Heap.Insert(broken, FirstFailure(now, e.ip)))
  {
    Drawn(ready, e);
    var h := Heap.Insert(broken, FirstFailure(now, e.ip));
    forall x | x in all ensures x in Ready.Remove(ready, e.ip) || Heap.HasIp(h, x.ip) {
      Heap.InsertHas(broken, FirstFailure(now, e.ip), x.ip);
    }
  }
}
