/** The loop generated for every RPC (macros.rs, generator.rs) and the default policy (retry.rs). */
module Retry {
  import opened Types
  import opened Backoff

  /** A `tonic::Status`; `hasSource` is `Error::source(err).is_some()`. */
  datatype Status = Status(code: nat, hasSource: bool)

  datatype Reply = Response(body: nat) | Failed(status: Status)

  datatype ServerStatus = Alive | Dead

  datatype RetryTime = DoNotRetry | Immediately | After(delay: nat)

  datatype Verdict = Verdict(server: ServerStatus, time: RetryTime)

  type Policy = (Status, U8) -> Verdict

  function DefaultPolicy(status: Status, tries: U8): Verdict {
    if status.hasSource then Verdict(Dead, Immediately) else Verdict(Alive, DoNotRetry)
  }

  datatype Request = Request(metadata: nat, extensions: nat, message: nat)

  /** What one turn of the loop meets: the pool's answer and, if there is a channel, the server's. */
  datatype Turn = Turn(channel: Option<Entry>, reply: Reply)

  datatype Event =
    | Sent(to: Entry, request: Request)
    | Judged(status: Status, tries: U8)
    | Reported(ip: Ip)
    | Slept(delay: nat)

  datatype Outcome = Done(reply: Reply) | Unavailable | Running

  /** The `tries` of turn k (from 0): a `u8` counter, as a release build wraps it. */
  function Tries(k: nat): U8 { (k + 1) % 256 }

  predicate Retries(policy: Policy, turn: Turn, k: nat) {
    turn.channel.Some? && turn.reply.Failed? && policy(turn.reply.status, Tries(k)).time != DoNotRetry
  }

  predicate RetriesAt(policy: Policy, turns: seq<Turn>, k: nat) {
    k < |turns| && Retries(policy, turns[k], k)
  }

  function OutcomeOf(policy: Policy, turn: Turn, k: nat): Outcome {
    if turn.channel.None? then Unavailable
    else if Retries(policy, turn, k) then Running
    else Done(turn.reply)
  }

  function Events(policy: Policy, request: Request, turn: Turn, k: nat): seq<Event> {
    if turn.channel.None? then []
    else if turn.reply.Response? then [Sent(turn.channel.value, request)]
    else
      var verdict := policy(turn.reply.status, Tries(k));
      [Sent(turn.channel.value, request)] + [Judged(turn.reply.status, Tries(k))]
      + (if verdict.server.Dead? then [Reported(turn.channel.value.ip)] else [])
      + (if verdict.time.After? then [Slept(verdict.time.delay)] else [])
  }

  function Trace(policy: Policy, request: Request, turns: seq<Turn>): seq<Event> {
    if turns == [] then []
    else
      var n := |turns| - 1;
      Trace(policy, request, turns[..n]) + Events(policy, request, turns[n], n)
  }

  /** Turns [0, n) were taken: all but the last asked for another, and the last gave the outcome. */
  predicate TookSoFar(policy: Policy, turns: seq<Turn>, n: nat, outcome: Outcome) {
    && n <= |turns|
    && (forall k :: 0 <= k < n - 1 ==> RetriesAt(policy, turns, k))
    && outcome == (if n == 0 then Running else OutcomeOf(policy, turns[n - 1], n - 1))
  }

  predicate Took(policy: Policy, turns: seq<Turn>, n: nat, outcome: Outcome) {
    TookSoFar(policy, turns, n, outcome) && (outcome.Running? ==> n == |turns|)
  }

  lemma TookOneMore(policy: Policy, turns: seq<Turn>, n: nat)
    requires TookSoFar(policy, turns, n, Running) && n < |turns|
    ensures TookSoFar(policy, turns, n + 1, OutcomeOf(policy, turns[n], n))
  {
    assert n > 0 ==> RetriesAt(policy, turns, n - 1);
  }

  /** The loop against any sequence of turns; `Running` means they ran out first. */
  method CallWithRetry(policy: Policy, request: Request, turns: seq<Turn>)
    returns (outcome: Outcome, trace: seq<Event>, n: nat)
    ensures Took(policy, turns, n, outcome)
    ensures trace == Trace(policy, request, turns[..n])
  {
    var tries: U8 := 0;
    trace, n, outcome := [], 0, Running;
    while n < |turns|
      invariant TookSoFar(policy, turns, n, Running) && outcome == Running
      invariant tries == if n == 0 then 0 else Tries(n - 1)
      invariant trace == Trace(policy, request, turns[..n])
    {
      var turn := turns[n];
      TookOneMore(policy, turns, n);
      TraceSnoc(policy, request, turns, n);
      NextTries(n);
      tries := Bumped(tries);
      n := n + 1;
      if turn.channel.None? { return Unavailable, trace, n; }
      var events := [Sent(turn.channel.value, request)];
      if turn.reply.Response? { return Done(turn.reply), trace + events, n; }
      var verdict := policy(turn.reply.status, tries);
      events := events + [Judged(turn.reply.status, tries)];
      events := events + if verdict.server.Dead? then [Reported(turn.channel.value.ip)] else [];
      events := events + if verdict.time.After? then [Slept(verdict.time.delay)] else [];
      trace := trace + events;
      if verdict.time.DoNotRetry? { return Done(turn.reply), trace, n; }
    }
  }

  lemma NextTries(n: nat)
    ensures Bumped(if n == 0 then 0 else Tries(n - 1)) == Tries(n)
  {}

  lemma TraceSnoc(policy: Policy, request: Request, turns: seq<Turn>, n: nat)
    requires n < |turns|
    ensures Trace(policy, request, turns[..n + 1])
            == Trace(policy, request, turns[..n]) + Events(policy, request, turns[n], n)
  {
    assert turns[..n + 1][..n] == turns[..n];
  }

  // ---------- What the trace says ----------

  /** The taken turns and the outcome are determined by the turns offered. */
  lemma TookIsUnique(policy: Policy, turns: seq<Turn>, n: nat, a: Outcome, m: nat, b: Outcome)
    requires Took(policy, turns, n, a) && Took(policy, turns, m, b)
    ensures n == m && a == b
  {
    NotLater(policy, turns, n, a, m, b);
    NotLater(policy, turns, m, b, n, a);
  }

  lemma NotLater(policy: Policy, turns: seq<Turn>, n: nat, a: Outcome, m: nat, b: Outcome)
    requires Took(policy, turns, n, a) && Took(policy, turns, m, b)
    ensures m <= n
  {
    var last := n - 1;
    assert 0 <= last < m - 1 ==> RetriesAt(policy, turns, last) && a == Running;
  }

  /** The values f finds in the trace, in order. */
  function Collect<T>(f: Event -> Option<T>, trace: seq<Event>): seq<T> {
    if trace == [] then []
    else
      var n := |trace| - 1;
      Collect(f, trace[..n]) + match f(trace[n]) case Some(x) => [x] case None => []
  }

  function ReportOf(e: Event): Option<Ip> { if e.Reported? then Some(e.ip) else None }

  function SendOf(e: Event): Option<(Entry, Request)> { if e.Sent? then Some((e.to, e.request)) else None }

  function JudgementOf(e: Event): Option<(Status, U8)> { if e.Judged? then Some((e.status, e.tries)) else None }

  lemma {:induction false} CollectConcat<T>(f: Event -> Option<T>, a: seq<Event>, b: seq<Event>)
    ensures Collect(f, a + b) == Collect(f, a) + Collect(f, b)
    decreases |b|
  {
    if b == [] {
      assert a + b == a;
    } else {
      var n := |b| - 1;
      CollectConcat(f, a, b[..n]);
      assert (a + b)[..|a| + n] == a + b[..n];
    }
  }

  lemma CollectOne<T>(f: Event -> Option<T>, e: Event)
    ensures Collect(f, [e]) == match f(e) case Some(x) => [x] case None => []
  {
    assert [e][..0] == [];
  }

  /** The addresses of the turns judged dead, in order, whatever the verdict on retrying. */
  function DeadIps(policy: Policy, turns: seq<Turn>): seq<Ip> {
    if turns == [] then []
    else
      var n := |turns| - 1;
      DeadIps(policy, turns[..n]) + if JudgedDead(policy, turns[n], n) then [turns[n].channel.value.ip] else []
  }

  predicate JudgedDead(policy: Policy, turn: Turn, k: nat) {
    turn.channel.Some? && turn.reply.Failed? && policy(turn.reply.status, Tries(k)).server.Dead?
  }

  /** What f finds in the events of one turn is what it finds in each of the at most four. */
  lemma CollectEvents<T>(f: Event -> Option<T>, policy: Policy, request: Request, turn: Turn, k: nat)
    requires turn.channel.Some? && turn.reply.Failed?
    ensures var verdict := policy(turn.reply.status, Tries(k));
            Collect(f, Events(policy, request, turn, k))
            == Collect(f, [Sent(turn.channel.value, request)]) + Collect(f, [Judged(turn.reply.status, Tries(k))])
               + Collect(f, if verdict.server.Dead? then [Reported(turn.channel.value.ip)] else [])
               + Collect(f, if verdict.time.After? then [Slept(verdict.time.delay)] else [])
  {
    var verdict := policy(turn.reply.status, Tries(k));
    var sent, judged := [Sent(turn.channel.value, request)], [Judged(turn.reply.status, Tries(k))];
    var dead := if verdict.server.Dead? then [Reported(turn.channel.value.ip)] else [];
    var slept := if verdict.time.After? then [Slept(verdict.time.delay)] else [];
    CollectConcat(f, sent, judged);
    CollectConcat(f, sent + judged, dead);
    CollectConcat(f, sent + judged + dead, slept);
    assert Events(policy, request, turn, k) == sent + judged + dead + slept;
  }

  lemma ReportsOfTurn(policy: Policy, request: Request, turn: Turn, k: nat)
    ensures Collect(ReportOf, Events(policy, request, turn, k))
            == if JudgedDead(policy, turn, k) then [turn.channel.value.ip] else []
  {
    if turn.channel.Some? {
      CollectOne(ReportOf, Sent(turn.channel.value, request));
      if turn.reply.Failed? {
        CollectEvents(ReportOf, policy, request, turn, k);
        CollectOne(ReportOf, Judged(turn.reply.status, Tries(k)));
        CollectOne(ReportOf, Reported(turn.channel.value.ip));
        var verdict := policy(turn.reply.status, Tries(k));
        if verdict.time.After? { CollectOne(ReportOf, Slept(verdict.time.delay)); }
      }
    }
  }

  lemma SendsOfTurn(policy: Policy, request: Request, turn: Turn, k: nat)
    ensures Collect(SendOf, Events(policy, request, turn, k))
            == if turn.channel.Some? then [(turn.channel.value, request)] else []
  {
    if turn.channel.Some? {
      CollectOne(SendOf, Sent(turn.channel.value, request));
      if turn.reply.Failed? {
        CollectEvents(SendOf, policy, request, turn, k);
        CollectOne(SendOf, Judged(turn.reply.status, Tries(k)));
        CollectOne(SendOf, Reported(turn.channel.value.ip));
        var verdict := policy(turn.reply.status, Tries(k));
        if verdict.time.After? { CollectOne(SendOf, Slept(verdict.time.delay)); }
      }
    }
  }

  lemma JudgementsOfTurn(policy: Policy, request: Request, turn: Turn, k: nat)
    ensures Collect(JudgementOf, Events(policy, request, turn, k))
            == if turn.channel.Some? && turn.reply.Failed? then [(turn.reply.status, Tries(k))] else []
  {
    if turn.channel.Some? {
      CollectOne(JudgementOf, Sent(turn.channel.value, request));
      if turn.reply.Failed? {
        CollectEvents(JudgementOf, policy, request, turn, k);
        CollectOne(JudgementOf, Judged(turn.reply.status, Tries(k)));
        CollectOne(JudgementOf, Reported(turn.channel.value.ip));
        var verdict := policy(turn.reply.status, Tries(k));
        if verdict.time.After? { CollectOne(JudgementOf, Slept(verdict.time.delay)); }
      }
    }
  }

  /** `report_broken` is called exactly for the turns judged dead, in order, each for its own
      address. */
  lemma {:induction false} ReportsAreTheDead(policy: Policy, request: Request, turns: seq<Turn>)
    ensures Collect(ReportOf, Trace(policy, request, turns)) == DeadIps(policy, turns)
  {
    if turns != [] {
      var n := |turns| - 1;
      ReportsAreTheDead(policy, request, turns[..n]);
      CollectConcat(ReportOf, Trace(policy, request, turns[..n]), Events(policy, request, turns[n], n));
      ReportsOfTurn(policy, request, turns[n], n);
    }
  }

  /** One send per channel obtained, always of the same request. */
  function AttemptSends(request: Request, turns: seq<Turn>): seq<(Entry, Request)> {
    if turns == [] then []
    else
      var n := |turns| - 1;
      AttemptSends(request, turns[..n]) + if turns[n].channel.Some? then [(turns[n].channel.value, request)] else []
  }

  /** One judgement per failure, numbered from 1 modulo 256. */
  function FailureJudgements(turns: seq<Turn>): seq<(Status, U8)> {
    if turns == [] then []
    else
      var n := |turns| - 1;
      FailureJudgements(turns[..n]) +
      if turns[n].channel.Some? && turns[n].reply.Failed? then [(turns[n].reply.status, |turns| % 256)] else []
  }

  lemma {:induction false} SendsAreTheAttempts(policy: Policy, request: Request, turns: seq<Turn>)
    ensures Collect(SendOf, Trace(policy, request, turns)) == AttemptSends(request, turns)
  {
    if turns != [] {
      var n := |turns| - 1;
      SendsAreTheAttempts(policy, request, turns[..n]);
      CollectConcat(SendOf, Trace(policy, request, turns[..n]), Events(policy, request, turns[n], n));
      SendsOfTurn(policy, request, turns[n], n);
    }
  }

  lemma {:induction false} JudgementsAreTheFailures(policy: Policy, request: Request, turns: seq<Turn>)
    ensures Collect(JudgementOf, Trace(policy, request, turns)) == FailureJudgements(turns)
  {
    if turns != [] {
      var n := |turns| - 1;
      JudgementsAreTheFailures(policy, request, turns[..n]);
      CollectConcat(JudgementOf, Trace(policy, request, turns[..n]), Events(policy, request, turns[n], n));
      JudgementsOfTurn(policy, request, turns[n], n);
    }
  }

  /** The delays the policy asked for, in order: a turn that is to be retried after a delay sleeps it. */
  function AskedDelays(policy: Policy, turns: seq<Turn>): seq<nat> {
    if turns == [] then []
    else
      var n := |turns| - 1;
      AskedDelays(policy, turns[..n]) +
      if turns[n].channel.Some? && turns[n].reply.Failed?
         && policy(turns[n].reply.status, |turns| % 256).time.After?
      then [policy(turns[n].reply.status, |turns| % 256).time.delay] else []
  }

  function SleepOf(e: Event): Option<nat> { if e.Slept? then Some(e.delay) else None }

  lemma SleepsOfTurn(policy: Policy, request: Request, turn: Turn, k: nat)
    ensures Collect(SleepOf, Events(policy, request, turn, k))
            == if turn.channel.Some? && turn.reply.Failed? && policy(turn.reply.status, Tries(k)).time.After?
               then [policy(turn.reply.status, Tries(k)).time.delay] else []
  {
    if turn.channel.Some? {
      CollectOne(SleepOf, Sent(turn.channel.value, request));
      if turn.reply.Failed? {
        CollectEvents(SleepOf, policy, request, turn, k);
        CollectOne(SleepOf, Judged(turn.reply.status, Tries(k)));
        CollectOne(SleepOf, Reported(turn.channel.value.ip));
        var verdict := policy(turn.reply.status, Tries(k));
        if verdict.time.After? { CollectOne(SleepOf, Slept(verdict.time.delay)); }
      }
    }
  }

  lemma {:induction false} SleepsAreTheDelays(policy: Policy, request: Request, turns: seq<Turn>)
    ensures Collect(SleepOf, Trace(policy, request, turns)) == AskedDelays(policy, turns)
  {
    if turns != [] {
      var n := |turns| - 1;
      SleepsAreTheDelays(policy, request, turns[..n]);
      CollectConcat(SleepOf, Trace(policy, request, turns[..n]), Events(policy, request, turns[n], n));
      SleepsOfTurn(policy, request, turns[n], n);
    }
  }

  /** Within a turn: the request goes out first, then the failure is judged, then the address reported,
      and only then comes the delay. */
  lemma EventsInOrder(policy: Policy, request: Request, turn: Turn, k: nat, i: nat, j: nat)
    requires i < j < |Events(policy, request, turn, k)|
    ensures var es := Events(policy, request, turn, k);
            && !es[j].Sent? && !es[i].Slept?
            && (es[j].Judged? ==> es[i].Sent?) && (es[i].Reported? ==> es[j].Slept?)
  {}

  /** When a turn ends the call: with a response, or with a failure the policy will not retry. */
  lemma TurnEndsIff(policy: Policy, turn: Turn, k: nat)
    ensures OutcomeOf(policy, turn, k).Unavailable? <==> turn.channel.None?
    ensures OutcomeOf(policy, turn, k) == Done(turn.reply) <==>
            turn.channel.Some? && (turn.reply.Response? || policy(turn.reply.status, (k + 1) % 256).time.DoNotRetry?)
    ensures OutcomeOf(policy, turn, k).Running? <==>
            && turn.channel.Some? && turn.reply.Failed?
            && (policy(turn.reply.status, (k + 1) % 256).time.Immediately?
                || policy(turn.reply.status, (k + 1) % 256).time.After?)
  {}

  /** The addresses of the failures that have a source, in order. */
  function SourcedIps(turns: seq<Turn>): seq<Ip> {
    if turns == [] then []
    else
      var n := |turns| - 1;
      SourcedIps(turns[..n]) +
      if turns[n].channel.Some? && turns[n].reply.Failed? && turns[n].reply.status.hasSource
      then [turns[n].channel.value.ip] else []
  }

  /** Under the default policy a call reports exactly the addresses of its failures with a source, and
      sleeps never. */
  lemma {:induction false} DefaultReportsSourced(request: Request, turns: seq<Turn>)
    ensures Collect(ReportOf, Trace(DefaultPolicy, request, turns)) == SourcedIps(turns)
    ensures Collect(SleepOf, Trace(DefaultPolicy, request, turns)) == []
  {
    ReportsAreTheDead(DefaultPolicy, request, turns);
    SleepsAreTheDelays(DefaultPolicy, request, turns);
    DeadAreSourced(turns);
    NoDelays(turns);
  }

  lemma {:induction false} DeadAreSourced(turns: seq<Turn>)
    ensures DeadIps(DefaultPolicy, turns) == SourcedIps(turns)
  {
    if turns != [] { DeadAreSourced(turns[..|turns| - 1]); }
  }

  lemma {:induction false} NoDelays(turns: seq<Turn>)
    ensures AskedDelays(DefaultPolicy, turns) == []
  {
    if turns != [] { NoDelays(turns[..|turns| - 1]); }
  }

  /** A whole call, for every policy and every pool: what it sends, judges and reports, in order. It
      ends as unavailable exactly when the pool yields no channel; the status that led there is then
      not returned, although the comment on `RetryPolicy` says it would be. */
  lemma CallTrace(policy: Policy, request: Request, turns: seq<Turn>, n: nat, outcome: Outcome)
    requires Took(policy, turns, n, outcome)
    ensures var trace := Trace(policy, request, turns[..n]);
            && Collect(SendOf, trace) == AttemptSends(request, turns[..n])
            && Collect(JudgementOf, trace) == FailureJudgements(turns[..n])
            && Collect(ReportOf, trace) == DeadIps(policy, turns[..n])
            && Collect(SleepOf, trace) == AskedDelays(policy, turns[..n])
    ensures forall k :: 0 <= k < n - 1 ==>
              && turns[k].channel.Some? && turns[k].reply.Failed?
              && !policy(turns[k].reply.status, (k + 1) % 256).time.DoNotRetry?
    ensures outcome.Unavailable? <==> n > 0 && turns[n - 1].channel.None?
    ensures outcome.Done? <==>
            && n > 0 && turns[n - 1].channel.Some?
            && (turns[n - 1].reply.Response? || policy(turns[n - 1].reply.status, n % 256).time.DoNotRetry?)
    ensures outcome.Done? ==> outcome.reply == turns[n - 1].reply
  {
    SleepsAreTheDelays(policy, request, turns[..n]);
    SendsAreTheAttempts(policy, request, turns[..n]);
    JudgementsAreTheFailures(policy, request, turns[..n]);
    ReportsAreTheDead(policy, request, turns[..n]);
    forall k | 0 <= k < n - 1
      ensures turns[k].channel.Some? && turns[k].reply.Failed?
      ensures !policy(turns[k].reply.status, (k + 1) % 256).time.DoNotRetry?
    {
      assert RetriesAt(policy, turns, k);
    }
    if n > 0 { TurnEndsIff(policy, turns[n - 1], n - 1); }
  }
}
