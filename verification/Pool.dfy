/** The pool's operations run one at a time (pool.rs). */
module Pool {
  import opened Types
  import opened Backoff
  import opened Seqs
  import Ready = ReadyList
  import Heap = BrokenHeap
  import Gate = RecheckGate
  import RoundRobin

  /** What `endpoint.build(ip).connect()` comes to: a channel, or an error noticed at a reading. */
  datatype Attempt = Connected(id: nat) | Refused(at: Instant)

  /** What `check_dns` decides for one resolved address. */
  datatype Placement = Up(entry: Entry) | Down(delayed: Delayed)

  function Place(ip: Ip, attempt: Attempt, ready: seq<Entry>, broken: seq<Delayed>): Placement {
    match Ready.Find(ready, ip)
    case Some(channel) => Up(Entry(ip, channel))
    case None =>
      match Heap.Lookup(broken, ip)
      case Some(delayed) => Down(delayed)
      case None =>
        match attempt
        case Connected(id) => Up(Entry(ip, Channel(ip, id)))
        case Refused(at) => Down(FirstFailure(at, ip))
  }

  datatype Lists = Lists(ready: seq<Entry>, broken: seq<Delayed>)

  function Put(acc: Lists, p: Placement): Lists {
    match p
    case Up(entry) => acc.(ready := acc.ready + [entry])
    case Down(delayed) => acc.(broken := acc.broken + [delayed])
  }

  /** The two lists `check_dns` builds from a snapshot. The i-th attempt is made only if the i-th
      address is in neither list. */
  function Scan(ips: seq<Ip>, attempts: seq<Attempt>, ready: seq<Entry>, broken: seq<Delayed>): Lists
    requires |attempts| == |ips|
  {
    if ips == [] then Lists([], [])
    else
      var n := |ips| - 1;
      Put(Scan(ips[..n], attempts[..n], ready, broken), Place(ips[n], attempts[n], ready, broken))
  }

  lemma ScanSnoc(ips: seq<Ip>, attempts: seq<Attempt>, ready: seq<Entry>, broken: seq<Delayed>, i: nat)
    requires i < |ips| == |attempts|
    ensures Scan(ips[..i + 1], attempts[..i + 1], ready, broken)
            == Put(Scan(ips[..i], attempts[..i], ready, broken), Place(ips[i], attempts[i], ready, broken))
  {
    assert ips[..i + 1][..i] == ips[..i] && attempts[..i + 1][..i] == attempts[..i];
  }

  /** Which future of a forced recheck completes first, and with what results. */
  datatype First =
    | DnsFirst(resolved: Option<seq<Ip>>, attempts: seq<Attempt>)
    | RecheckFirst(address: Delayed, attempt: Attempt)  // one of the broken addresses

  /** One connect result for each resolved address. */
  predicate Answered(f: First) {
    f.DnsFirst? && f.resolved.Some? ==> |f.attempts| == |f.resolved.value|
  }

  /** The lists once that future is done, run at a stretch from the lists p. */
  function AfterFirst(f: First, p: Lists): Lists
    requires Answered(f)
  {
    match f
    case DnsFirst(None, _) => p
    case DnsFirst(Some(ips), attempts) => Scan(ips, attempts, p.ready, p.broken)
    case RecheckFirst(address, Connected(id)) =>
      p.(ready := p.ready + [Entry(address.ip, Channel(address.ip, id))])
    case RecheckFirst(address, Refused(at)) => p.(broken := Heap.Insert(p.broken, NextFailure(at, address)))
  }

  /** What `get_any` returns from a list, at a counter value. */
  function Any(ready: seq<Entry>, index: nat): Option<Entry> {
    if ready == [] then None else Some(ready[index % |ready|])
  }

  /** What happens around a `get_channel`, apart from its own steps: whether another caller, of any
      pool, is at the lock; the readings compared with the stamp and stored in it; the lists as other
      tasks have left them when the lock is free for this caller; the lists as the other futures of its
      recheck, and other tasks, have left them when the one that completes first does its work; and
      which one that is. */
  datatype Meanwhile = Meanwhile(busy: bool, tried: Instant, locked: Lists, stamped: Instant,
                                 raced: Lists, first: First)

  /** The caller waits for the lock. */
  predicate Waited(p: Lists, stamp: Instant, e: Meanwhile) {
    p.ready == [] && (e.busy || e.tried - stamp >= Gate.MIN_INTERVAL)
  }

  /** The caller forces a recheck. */
  predicate Asked(p: Lists, stamp: Instant, e: Meanwhile) {
    Waited(p, stamp, e) && !e.busy && e.locked.ready == []
  }

  class ManagedChannelPool {
    const ready: Ready.ReadyChannels
    const broken: Heap.BrokenEndpoints

    constructor ()
      ensures fresh(ready) && fresh(broken) && ready.Valid()
      ensures ready.channels == [] && broken.addresses == [] && !broken.permit
    {
      ready := new Ready.ReadyChannels();
      broken := new Heap.BrokenEndpoints();
    }

    /** `check_dns`, with nothing else running. `resolved` is None on a resolver error. */
    method CheckDns(resolved: Option<seq<Ip>>, attempts: seq<Attempt>)
      requires resolved.Some? ==> |attempts| == |resolved.value|
      modifies ready`channels, broken
      ensures resolved.None? ==> ready.channels == old(ready.channels)
      ensures resolved.None? ==> broken.addresses == old(broken.addresses) && broken.permit == old(broken.permit)
      ensures resolved.Some? ==>
                var r := Scan(resolved.value, attempts, old(ready.channels), old(broken.addresses));
                && ready.channels == r.ready
                && broken.addresses == r.broken
                && broken.permit == (old(broken.permit) || r.broken != [])
    {
      if resolved.None? { return; }
      var ips := resolved.value;
      var up: seq<Entry>, down: seq<Delayed> := [], [];
      var i := 0;
      while i < |ips|
        invariant 0 <= i <= |ips|
        invariant ready.channels == old(ready.channels)
        invariant broken.addresses == old(broken.addresses) && broken.permit == old(broken.permit)
        invariant Lists(up, down) == Scan(ips[..i], attempts[..i], ready.channels, broken.addresses)
      {
        ScanSnoc(ips, attempts, ready.channels, broken.addresses, i);
        var channel := ready.FindChannel(ips[i]);
        if channel.Some? {
          up := up + [Entry(ips[i], channel.value)];
        } else {
          var entry := broken.GetAddress(ips[i]);
          if entry.Some? {
            down := down + [entry.value];
          } else {
            match attempts[i] {
              case Connected(id) => up := up + [Entry(ips[i], Channel(ips[i], id))];
              case Refused(at) => down := down + [FirstFailure(at, ips[i])];
            }
          }
        }
        i := i + 1;
      }
      assert ips[..i] == ips && attempts[..i] == attempts;
      ready.ReplaceWith(up);
      broken.ReplaceWith(down);
    }

    /** `recheck_broken_endpoint` */
    method Recheck(address: Delayed, attempt: Attempt)
      modifies ready`channels, broken
      ensures match attempt
              case Connected(id) =>
                && ready.channels == old(ready.channels) + [Entry(address.ip, Channel(address.ip, id))]
                && broken.addresses == old(broken.addresses) && broken.permit == old(broken.permit)
              case Refused(at) =>
                && ready.channels == old(ready.channels)
                && broken.addresses == Heap.Insert(old(broken.addresses), NextFailure(at, address))
                && broken.permit
    {
      match attempt {
        case Connected(id) => ready.Add(address.ip, Channel(address.ip, id));
        case Refused(at) => broken.ReAddAddress(address, at);
      }
    }

    /** `get_channel`. A ready channel is returned at once. If another caller is at the lock, this one
        waits and looks once more; within 500 ms of the stamp it gives up; else it takes the lock, looks
        once more, renews the stamp, and returns what it finds when the first future has completed. */
    method GetChannel(gate: Gate.Gate, e: Meanwhile) returns (r: Option<Entry>)
      requires ready.Valid() && Answered(e.first)
      modifies gate, ready, broken
      ensures ready.Valid()
      ensures var before := Lists(old(ready.channels), old(broken.addresses));
              var asked := Asked(before, old(gate.stamp), e);
              && gate.stamp == (if asked then e.stamped else old(gate.stamp))
              && Lists(ready.channels, broken.addresses)
                 == (if asked then AfterFirst(e.first, e.raced)
                     else if Waited(before, old(gate.stamp), e) then e.locked else before)
              && r == Any(ready.channels, old(ready.index))
              && ready.index == (if r.None? then old(ready.index) else (old(ready.index) + 1) % USIZE_VALUES)
      ensures old(ready.channels) != [] ==> gate.stamp == old(gate.stamp)
      ensures e.tried - old(gate.stamp) < 500_000_000 ==> gate.stamp == old(gate.stamp)
      ensures r.None? <==> ready.channels == []
      ensures r.Some? ==> r.value == ready.channels[old(ready.index) % |ready.channels|]
    {
      r := ready.GetAny();
      if r.Some? { return; }
      if e.busy {
        ready.channels, broken.addresses := e.locked.ready, e.locked.broken;
        r := ready.GetAny();
        return;
      }
      if e.tried - gate.stamp < Gate.MIN_INTERVAL { return None; }
      ready.channels, broken.addresses := e.locked.ready, e.locked.broken;
      r := ready.GetAny();
      if r.Some? { return; }
      gate.stamp := e.stamped;
      ready.channels, broken.addresses := e.raced.ready, e.raced.broken;
      match e.first {
        case DnsFirst(resolved, attempts) => CheckDns(resolved, attempts);
        case RecheckFirst(address, attempt) => Recheck(address, attempt);
      }
      r := ready.GetAny();
    }

    method ReportBroken(ip: Ip, now: Instant)
      modifies ready`channels, broken
      ensures ready.channels == Ready.Remove(old(ready.channels), ip)
      ensures broken.addresses == Heap.Insert(old(broken.addresses), FirstFailure(now, ip))
      ensures broken.permit
    {
      ready.RemoveIp(ip);
      broken.AddAddress(ip, now);
    }
  }

  /** Calls of `get_channel` in a row, while channels are ready and nobody changes the list: they go
      round it as `RoundRobin` counts, and touch neither lists nor stamp. */
  method DrawChannels(p: ManagedChannelPool, gate: Gate.Gate, es: seq<Meanwhile>) returns (drawn: seq<Entry>)
    requires p.ready.Valid() && p.ready.channels != [] && forall j :: 0 <= j < |es| ==> Answered(es[j].first)
    modifies gate, p.ready, p.broken
    ensures p.ready.Valid() && |drawn| == |es|
    ensures p.ready.channels == old(p.ready.channels) && p.broken.addresses == old(p.broken.addresses)
    ensures gate.stamp == old(gate.stamp) && p.ready.index == (old(p.ready.index) + |es|) % USIZE_VALUES
    ensures forall j :: 0 <= j < |es| ==>
              drawn[j] == p.ready.channels[RoundRobin.Pick(old(p.ready.index), j, |p.ready.channels|)]
  {
    drawn := [];
    while |drawn| < |es|
      invariant p.ready.Valid() && |drawn| <= |es|
      invariant p.ready.channels == old(p.ready.channels) && p.broken.addresses == old(p.broken.addresses)
      invariant gate.stamp == old(gate.stamp) && p.ready.index == (old(p.ready.index) + |drawn|) % USIZE_VALUES
      invariant forall j :: 0 <= j < |drawn| ==>
                  drawn[j] == p.ready.channels[RoundRobin.Pick(old(p.ready.index), j, |p.ready.channels|)]
    {
      RoundRobin.Next(old(p.ready.index) + |drawn|);
      var e := p.GetChannel(gate, es[|drawn|]);
      drawn := drawn + [e.value];
    }
  }

  // ---------- check_dns brings the pool into step with the resolver ----------

  function BrokenIps(h: seq<Delayed>): seq<Ip> { seq(|h|, i requires 0 <= i < |h| => h[i].ip) }

  /** No address is listed twice, in one list or across the two. */
  predicate Consistent(p: Lists) {
    && Ready.UniqueIps(p.ready)
    && Heap.UniqueIps(p.broken)
    && forall i, j :: 0 <= i < |p.ready| && 0 <= j < |p.broken| ==> p.ready[i].ip != p.broken[j].ip
  }

  function AllIps(p: Lists): seq<Ip> { Ready.Ips(p.ready) + BrokenIps(p.broken) }

  /** Every resolved address is placed exactly as often as it was resolved, and nothing else is. */
  lemma {:induction false} ScanConserves(ips: seq<Ip>, attempts: seq<Attempt>, ready: seq<Entry>, broken: seq<Delayed>)
    requires |attempts| == |ips|
    ensures multiset(AllIps(Scan(ips, attempts, ready, broken))) == multiset(ips)
  {
    if ips != [] {
      var n := |ips| - 1;
      ScanConserves(ips[..n], attempts[..n], ready, broken);
      PutContents(Scan(ips[..n], attempts[..n], ready, broken), Place(ips[n], attempts[n], ready, broken));
      assert ips == ips[..n] + [ips[n]];
    }
  }

  function PlacedIp(p: Placement): Ip { if p.Up? then p.entry.ip else p.delayed.ip }

  lemma PutContents(acc: Lists, p: Placement)
    ensures multiset(AllIps(Put(acc, p))) == multiset(AllIps(acc)) + multiset{PlacedIp(p)}
  {
    var r := Put(acc, p);
    assert AllIps(acc) == Ready.Ips(acc.ready) + BrokenIps(acc.broken);
    if p.Up? {
      assert Ready.Ips(r.ready) == Ready.Ips(acc.ready) + [p.entry.ip];
    } else {
      assert BrokenIps(r.broken) == BrokenIps(acc.broken) + [p.delayed.ip];
    }
  }

  lemma ConsistentIsDistinct(p: Lists)
    ensures Consistent(p) <==> Distinct(AllIps(p))
  {
    var a, n := AllIps(p), |p.ready|;
    assert forall i :: 0 <= i < n ==> a[i] == p.ready[i].ip;
    assert forall j :: 0 <= j < |p.broken| ==> a[n + j] == p.broken[j].ip;
    if Distinct(a) {
      forall i, j | 0 <= i < j < |p.broken| ensures p.broken[i].ip != p.broken[j].ip {
        assert a[n + i] != a[n + j];
      }
      forall i, j | 0 <= i < n && 0 <= j < |p.broken| ensures p.ready[i].ip != p.broken[j].ip {
        assert a[i] != a[n + j];
      }
    }
    if Consistent(p) {
      forall i, j | 0 <= i < j < |a| ensures a[i] != a[j] {
        if i >= n { assert a[i] == p.broken[i - n].ip && a[j] == p.broken[j - n].ip; }
        else if j >= n { assert a[j] == p.broken[j - n].ip; }
      }
    }
  }

  /** From any lists whatever, one undisturbed `check_dns` leaves them consistent exactly when the
      resolver named each address once. */
  lemma ScanConsistentIff(ips: seq<Ip>, attempts: seq<Attempt>, ready: seq<Entry>, broken: seq<Delayed>)
    requires |attempts| == |ips|
    ensures Consistent(Scan(ips, attempts, ready, broken)) <==> Distinct(ips)
    ensures forall ip :: ip in ips <==> (Ready.HasIp(Scan(ips, attempts, ready, broken).ready, ip)
                                         || Heap.HasIp(Scan(ips, attempts, ready, broken).broken, ip))
  {
    var r := Scan(ips, attempts, ready, broken);
    ScanConserves(ips, attempts, ready, broken);
    ConsistentIsDistinct(r);
    DistinctByCount(ips);
    DistinctByCount(AllIps(r));
    assert forall ip :: ip in ips <==> ip in multiset(ips);
    assert forall ip :: ip in AllIps(r) <==> ip in multiset(AllIps(r));
    forall ip ensures ip in AllIps(r) <==> Ready.HasIp(r.ready, ip) || Heap.HasIp(r.broken, ip) {
      InAllIps(r, ip);
    }
  }

  lemma InAllIps(p: Lists, ip: Ip)
    ensures ip in AllIps(p) <==> Ready.HasIp(p.ready, ip) || Heap.HasIp(p.broken, ip)
  {
    var a, n := AllIps(p), |p.ready|;
    if i :| 0 <= i < n && p.ready[i].ip == ip { assert a[i] == ip; }
    if j :| 0 <= j < |p.broken| && p.broken[j].ip == ip { assert a[n + j] == ip; }
    if ip in a {
      var k :| 0 <= k < |a| && a[k] == ip;
      if k < n { assert p.ready[k].ip == ip; } else { assert p.broken[k - n].ip == ip; }
    }
  }

  /** Where each entry of the new lists comes from: a ready address keeps its first channel even if
      it was also broken, a broken one keeps its backoff, and only an unknown one is connected to. */
  lemma {:induction false} ScanOrigin(ips: seq<Ip>, attempts: seq<Attempt>, ready: seq<Entry>, broken: seq<Delayed>)
    requires |attempts| == |ips|
    ensures forall e :: e in Scan(ips, attempts, ready, broken).ready
              ==> UpOrigin(e, ips, attempts, ready, broken)
    ensures forall d :: d in Scan(ips, attempts, ready, broken).broken
              ==> DownOrigin(d, ips, attempts, ready, broken)
  {
    if ips != [] {
      var n := |ips| - 1;
      ScanOrigin(ips[..n], attempts[..n], ready, broken);
    }
  }

  ghost predicate Increasing(idx: seq<nat>, n: nat) {
    && (forall j :: 0 <= j < |idx| ==> idx[j] < n)
    && (forall i, j :: 0 <= i < j < |idx| ==> idx[i] < idx[j])
  }

  /** `up` and `down` are the positions, in order, whose addresses went to either list. */
  ghost predicate Splits(up: seq<nat>, down: seq<nat>, ips: seq<Ip>, attempts: seq<Attempt>,
                         ready: seq<Entry>, broken: seq<Delayed>)
    requires |attempts| == |ips|
  {
    var r := Scan(ips, attempts, ready, broken);
    && |up| + |down| == |ips| && Increasing(up, |ips|) && Increasing(down, |ips|)
    && |r.ready| == |up| && |r.broken| == |down|
    && (forall j :: 0 <= j < |up| ==> Place(ips[up[j]], attempts[up[j]], ready, broken) == Up(r.ready[j]))
    && (forall j :: 0 <= j < |down| ==> Place(ips[down[j]], attempts[down[j]], ready, broken) == Down(r.broken[j]))
  }

  /** Both lists are in the order of the resolver's answer: `up` and `down` split its positions. */
  lemma {:induction false} ScanInOrder(ips: seq<Ip>, attempts: seq<Attempt>, ready: seq<Entry>, broken: seq<Delayed>)
    returns (up: seq<nat>, down: seq<nat>)
    requires |attempts| == |ips|
    ensures Splits(up, down, ips, attempts, ready, broken)
  {
    if ips == [] {
      up, down := [], [];
    } else {
      var n := |ips| - 1;
      up, down := ScanInOrder(ips[..n], attempts[..n], ready, broken);
      if Place(ips[n], attempts[n], ready, broken).Up? {
        SplitsUp(up, down, ips, attempts, ready, broken);
        up := up + [n];
      } else {
        SplitsDown(up, down, ips, attempts, ready, broken);
        down := down + [n];
      }
    }
  }

  lemma SplitsUp(up: seq<nat>, down: seq<nat>, ips: seq<Ip>, attempts: seq<Attempt>,
                 ready: seq<Entry>, broken: seq<Delayed>)
    requires |attempts| == |ips| > 0
    requires var n := |ips| - 1;
             Splits(up, down, ips[..n], attempts[..n], ready, broken) && Place(ips[n], attempts[n], ready, broken).Up?
    ensures Splits(up + [|ips| - 1], down, ips, attempts, ready, broken)
  {}

  lemma SplitsDown(up: seq<nat>, down: seq<nat>, ips: seq<Ip>, attempts: seq<Attempt>,
                   ready: seq<Entry>, broken: seq<Delayed>)
    requires |attempts| == |ips| > 0
    requires var n := |ips| - 1;
             Splits(up, down, ips[..n], attempts[..n], ready, broken) && Place(ips[n], attempts[n], ready, broken).Down?
    ensures Splits(up, down + [|ips| - 1], ips, attempts, ready, broken)
  {}

  ghost predicate UpOrigin(e: Entry, ips: seq<Ip>, attempts: seq<Attempt>, ready: seq<Entry>, broken: seq<Delayed>)
    requires |attempts| == |ips|
  {
    || Ready.Find(ready, e.ip) == Some(e.channel)
    || (!Ready.HasIp(ready, e.ip) && !Heap.HasIp(broken, e.ip)
        && e.channel.peer == e.ip
        && exists i :: 0 <= i < |ips| && ips[i] == e.ip && attempts[i] == Connected(e.channel.id))
  }

  ghost predicate DownOrigin(d: Delayed, ips: seq<Ip>, attempts: seq<Attempt>, ready: seq<Entry>, broken: seq<Delayed>)
    requires |attempts| == |ips|
  {
    && !Ready.HasIp(ready, d.ip)
    && (|| Heap.Lookup(broken, d.ip) == Some(d)
        || (!Heap.HasIp(broken, d.ip)
            && exists i :: 0 <= i < |ips| && ips[i] == d.ip && attempts[i].Refused?
                           && d == FirstFailure(attempts[i].at, d.ip)))
  }

  lemma FindUnique(s: seq<Entry>, i: nat)
    requires i < |s| && Ready.UniqueIps(s)
    ensures Ready.Find(s, s[i].ip) == Some(s[i].channel)
  {}

  lemma {:induction false} LookupUnique(h: seq<Delayed>, i: nat)
    requires i < |h| && Heap.UniqueIps(h)
    ensures Heap.Lookup(h, h[i].ip) == Some(h[i])
  {
    if i > 0 {
      assert h[1..][i - 1] == h[i];
      LookupUnique(h[1..], i - 1);
    }
  }

  /** Once in step with the resolver the lists are a fixpoint: checking the same addresses again
      connects to nothing and changes nothing, whatever the network would now answer. */
  lemma ScanFixpoint(ips: seq<Ip>, attempts: seq<Attempt>, later: seq<Attempt>, ready: seq<Entry>, broken: seq<Delayed>)
    requires |attempts| == |later| == |ips| && Distinct(ips)
    ensures var r := Scan(ips, attempts, ready, broken);
            Scan(ips, later, r.ready, r.broken) == r
  {
    var r := Scan(ips, attempts, ready, broken);
    ScanConsistentIff(ips, attempts, ready, broken);
    ScanAgain(ips, attempts, later, ready, broken, |ips|);
    assert ips[..|ips|] == ips && attempts[..|ips|] == attempts && later[..|ips|] == later;
  }

  lemma {:induction false} ScanAgain(ips: seq<Ip>, attempts: seq<Attempt>, later: seq<Attempt>,
                                     ready: seq<Entry>, broken: seq<Delayed>, n: nat)
    requires |attempts| == |later| == |ips| && n <= |ips|
    requires Consistent(Scan(ips, attempts, ready, broken))
    ensures var r := Scan(ips, attempts, ready, broken);
            Scan(ips[..n], later[..n], r.ready, r.broken) == Scan(ips[..n], attempts[..n], ready, broken)
    decreases n
  {
    if n > 0 {
      var r := Scan(ips, attempts, ready, broken);
      ScanAgain(ips, attempts, later, ready, broken, n - 1);
      ScanSnoc(ips, attempts, ready, broken, n - 1);
      ScanSnoc(ips, later, r.ready, r.broken, n - 1);
      ScanPrefix(ips, attempts, ready, broken, n);
      PlacedAgain(r, Place(ips[n - 1], attempts[n - 1], ready, broken), later[n - 1]);
    }
  }

  /** What the n-th address was given stays in the final lists. */
  lemma {:induction false} ScanPrefix(ips: seq<Ip>, attempts: seq<Attempt>,
                                      ready: seq<Entry>, broken: seq<Delayed>, n: nat)
    requires |attempts| == |ips| && 0 < n <= |ips|
    ensures Placed(Scan(ips, attempts, ready, broken), Place(ips[n - 1], attempts[n - 1], ready, broken))
    decreases |ips|
  {
    var m := |ips| - 1;
    if n <= m {
      ScanPrefix(ips[..m], attempts[..m], ready, broken, n);
    }
  }

  predicate Placed(r: Lists, p: Placement) {
    match p
    case Up(entry) => entry in r.ready
    case Down(delayed) => delayed in r.broken
  }

  lemma PlacedAgain(r: Lists, p: Placement, attempt: Attempt)
    requires Consistent(r) && Placed(r, p)
    ensures Place(PlacedIp(p), attempt, r.ready, r.broken) == p
  {
    match p
    case Up(entry) =>
      var i :| 0 <= i < |r.ready| && r.ready[i] == entry;
      FindUnique(r.ready, i);
    case Down(delayed) =>
      var j :| 0 <= j < |r.broken| && r.broken[j] == delayed;
      LookupUnique(r.broken, j);
      assert !Ready.HasIp(r.ready, delayed.ip);
  }

  /** The answer of a forced recheck is the answer of the future that completes first, although the
      comment on `get_channel` speaks of rechecking all dead servers. Whatever lists p the other
      futures and tasks have made by then: a connect that fails first yields only what they made
      ready, and a DNS check yields a channel only by keeping a ready address or by connecting to one
      that is not broken. */
  lemma ForcedAnswerIff(first: First, p: Lists, index: nat)
    requires Answered(first)
    ensures Any(AfterFirst(first, p).ready, index).Some? <==>
            match first
            case RecheckFirst(_, attempt) => p.ready != [] || attempt.Connected?
            case DnsFirst(None, _) => p.ready != []
            case DnsFirst(Some(ips), attempts) =>
              exists i :: 0 <= i < |ips| && (Ready.HasIp(p.ready, ips[i])
                                             || (!Heap.HasIp(p.broken, ips[i]) && attempts[i].Connected?))
  {
    if first.DnsFirst? && first.resolved.Some? {
      var ips, attempts := first.resolved.value, first.attempts;
      var up := Scan(ips, attempts, p.ready, p.broken).ready;
      if up != [] { PlacedUp(ips, attempts, p); }
      if i :| 0 <= i < |ips| && (Ready.HasIp(p.ready, ips[i])
                                 || (!Heap.HasIp(p.broken, ips[i]) && attempts[i].Connected?)) {
        ScanPrefix(ips, attempts, p.ready, p.broken, i + 1);
        assert Place(ips[i], attempts[i], p.ready, p.broken).Up?;
      }
    }
  }

  /** A DNS check that completes first leaves the lists alone on a resolver error, and else splits its
      answer between them. */
  lemma DnsFirstEffect(resolved: Option<seq<Ip>>, attempts: seq<Attempt>, p: Lists)
    requires Answered(DnsFirst(resolved, attempts))
    ensures var q := AfterFirst(DnsFirst(resolved, attempts), p);
            if resolved.None? then q == p
            else
              && multiset(AllIps(q)) == multiset(resolved.value)
              && (forall e :: e in q.ready ==> UpOrigin(e, resolved.value, attempts, p.ready, p.broken))
              && (forall d :: d in q.broken ==> DownOrigin(d, resolved.value, attempts, p.ready, p.broken))
  {
    if resolved.Some? {
      ScanConserves(resolved.value, attempts, p.ready, p.broken);
      ScanOrigin(resolved.value, attempts, p.ready, p.broken);
    }
  }

  /** What the recheck that completes first does to the lists it finds. */
  lemma RecheckFirstEffect(address: Delayed, attempt: Attempt, p: Lists)
    ensures var q := AfterFirst(RecheckFirst(address, attempt), p);
            match attempt
            case Connected(id) =>
              q.broken == p.broken && q.ready == p.ready + [Entry(address.ip, Channel(address.ip, id))]
            case Refused(at) => q.ready == p.ready && Heap.Renewed(p.broken, q.broken, address, at)
  {
    if attempt.Refused? {
      Heap.NextFailureIsOneMore(address, attempt.at);
      Heap.InsertRenews(p.broken, NextFailure(attempt.at, address), address, attempt.at);
    }
  }

  lemma PlacedUp(ips: seq<Ip>, attempts: seq<Attempt>, p: Lists)
    requires |attempts| == |ips| && Scan(ips, attempts, p.ready, p.broken).ready != []
    ensures exists i :: 0 <= i < |ips| && (Ready.HasIp(p.ready, ips[i])
                                           || (!Heap.HasIp(p.broken, ips[i]) && attempts[i].Connected?))
  {
    var up, down := ScanInOrder(ips, attempts, p.ready, p.broken);
    var i := up[0];
    assert Place(ips[i], attempts[i], p.ready, p.broken).Up?;
  }

  // ---------- report_broken ----------

  /** After `report_broken` the address has exactly one broken entry, counting one failure whatever
      its backoff was, and other addresses keep theirs; it is out of the ready list exactly when it
      was listed there at most once. */
  lemma ReportBrokenEffect(ready: seq<Entry>, broken: seq<Delayed>, ip: Ip, now: Instant)
    ensures var h := Heap.Insert(broken, FirstFailure(now, ip));
            && (forall d :: d in h && d.ip == ip ==> d == FirstFailure(now, ip))
            && multiset(h)[FirstFailure(now, ip)] == 1
            && FailedTimes(FirstFailure(now, ip)) == 1
            && (forall d: Delayed :: d.ip != ip ==> (d in h <==> d in broken))
    ensures Ready.HasIp(Ready.Remove(ready, ip), ip) <==> Ready.Copies(ready, ip) >= 2
    ensures forall e :: e in Ready.Remove(ready, ip) ==> e in ready
  {
    Heap.InsertEffect(broken, FirstFailure(now, ip));
    NextTestBounds(now, 1);
    Ready.RemoveIsCompleteIff(ready, ip);
    Ready.RemoveTakesFirst(ready, ip);
    forall e | e in Ready.Remove(ready, ip) ensures e in ready {
      assert e in multiset(Ready.Remove(ready, ip));
      assert e in multiset(ready);
    }
  }
}
