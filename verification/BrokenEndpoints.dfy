/** The heap of broken addresses and its notifier (broken_endpoints.rs). */
module BrokenHeap {
  import opened Types
  import opened Backoff
  import Seqs

  // A heap is the sequence of its elements in an order that means nothing; `BinaryHeap` promises
  // only that `peek` and `pop` give a maximum.

  predicate IsMax(h: seq<Delayed>, i: nat) {
    i < |h| && forall j :: 0 <= j < |h| ==> Leq(h[j], h[i])
  }

  predicate HasIp(h: seq<Delayed>, ip: Ip) { exists i :: 0 <= i < |h| && h[i].ip == ip }

  predicate UniqueIps(h: seq<Delayed>) {
    forall i, j :: 0 <= i < j < |h| ==> h[i].ip != h[j].ip
  }

  /** `retain` of the entries for other addresses. */
  function Without(h: seq<Delayed>, ip: Ip): (r: seq<Delayed>)
    ensures forall e :: e in r <==> e in h && e.ip != ip
  {
    if h == [] then []
    else if h[0].ip == ip then Without(h[1..], ip) else [h[0]] + Without(h[1..], ip)
  }

  /** `add_address_with_current_fail_count`, once the new entry has been stamped. */
  function Insert(h: seq<Delayed>, e: Delayed): seq<Delayed> { Without(h, e.ip) + [e] }

  /** `get_address`: the first entry for `ip` in iteration order. */
  function Lookup(h: seq<Delayed>, ip: Ip): (r: Option<Delayed>)
    ensures r.Some? <==> HasIp(h, ip)
    ensures r.Some? ==> r.value in h && r.value.ip == ip
  {
    if h == [] then None
    else if h[0].ip == ip then Some(h[0])
    else
      assert HasIp(h, ip) ==> HasIp(h[1..], ip) by {
        if i :| 0 <= i < |h| && h[i].ip == ip { assert h[1..][i - 1].ip == ip; }
      }
      assert HasIp(h[1..], ip) ==> HasIp(h, ip) by {
        if i :| 0 <= i < |h[1..]| && h[1..][i].ip == ip { assert h[i + 1].ip == ip; }
      }
      Lookup(h[1..], ip)
  }

  lemma {:induction false} WithoutKeepsUnique(h: seq<Delayed>, ip: Ip)
    requires UniqueIps(h)
    ensures UniqueIps(Without(h, ip))
  {
    if h != [] {
      var rest := Without(h[1..], ip);
      WithoutKeepsUnique(h[1..], ip);
      if h[0].ip != ip {
        forall j | 0 <= j < |rest| ensures rest[j].ip != h[0].ip {
          assert rest[j] in h[1..];
        }
      }
    }
  }

  lemma {:induction false} WithoutKeepsCopies(h: seq<Delayed>, ip: Ip, x: Delayed)
    ensures multiset(Without(h, ip))[x] == if x.ip == ip then 0 else multiset(h)[x]
  {
    if h != [] {
      WithoutKeepsCopies(h[1..], ip, x);
      assert h == [h[0]] + h[1..];
    }
  }

  /** Recording a failure leaves exactly one entry for that address, the new one, and every entry
      for other addresses, as often as it was there. */
  lemma InsertEffect(h: seq<Delayed>, e: Delayed)
    ensures forall x :: x in Insert(h, e) <==> x == e || (x in h && x.ip != e.ip)
    ensures UniqueIps(h) ==> UniqueIps(Insert(h, e))
    ensures forall x: Delayed :: multiset(Insert(h, e))[x]
                        == if x.ip != e.ip then multiset(h)[x] else if x == e then 1 else 0
  {
    var w := Without(h, e.ip);
    forall x: Delayed ensures multiset(w)[x] == if x.ip == e.ip then 0 else multiset(h)[x] {
      WithoutKeepsCopies(h, e.ip, x);
    }
    assert multiset(Insert(h, e)) == multiset(w) + multiset{e};
    if UniqueIps(h) { WithoutKeepsUnique(h, e.ip); }
  }

  lemma InsertHas(h: seq<Delayed>, e: Delayed, ip: Ip)
    ensures HasIp(Insert(h, e), ip) <==> ip == e.ip || HasIp(h, ip)
  {
    var g := Insert(h, e);
    InsertEffect(h, e);
    assert g[|g| - 1] == e;
    if ip != e.ip && HasIp(h, ip) {
      var i :| 0 <= i < |h| && h[i].ip == ip;
      assert h[i] in g;
    }
    if j :| 0 <= j < |g| && g[j].ip == ip && ip != e.ip { assert g[j] in h; }
  }

  /** From h to g, one more failure for e's address has been recorded at `now`: it has one entry, which
      counts one failure more than e, as a `u8`, and falls due that count's backoff later; every other
      entry is there as often as before. */
  ghost predicate Renewed(h: seq<Delayed>, g: seq<Delayed>, e: Delayed, now: Instant) {
    exists d: Delayed ::
      && OneMoreFailure(d, e, now)
      && multiset(g)[d] == 1
      && forall x: Delayed :: x != d ==> multiset(g)[x] == if x.ip == e.ip then 0 else multiset(h)[x]
  }

  predicate OneMoreFailure(d: Delayed, e: Delayed, now: Instant) {
    && d.ip == e.ip
    && FailedTimes(d) == (FailedTimes(e) + 1) % 256
    && -255 <= d.time - (now + BackoffSecs(FailedTimes(d)) * NANOS_PER_SEC) <= 255
  }

  lemma NextFailureIsOneMore(e: Delayed, now: Instant)
    ensures OneMoreFailure(NextFailure(now, e), e, now)
  {
    NextTestBounds(now, Bumped(FailedTimes(e)));
  }

  lemma InsertRenews(h: seq<Delayed>, d: Delayed, e: Delayed, now: Instant)
    requires OneMoreFailure(d, e, now)
    ensures Renewed(h, Insert(h, d), e, now)
  {
    InsertEffect(h, d);
  }

  /** Uniqueness of addresses, as a property of the contents alone. */
  ghost predicate KeyedByIp(m: multiset<Delayed>) {
    && (forall x, y :: x in m && y in m && x.ip == y.ip ==> x == y)
    && (forall x :: x in m ==> m[x] == 1)
  }

  lemma KeyedIffUnique(h: seq<Delayed>)
    ensures KeyedByIp(multiset(h)) <==> UniqueIps(h)
  {
    if UniqueIps(h) {
      forall x | x in h ensures multiset(h)[x] == 1 { CountOnce(h, x); }
    }
    if KeyedByIp(multiset(h)) {
      forall i, j | 0 <= i < j < |h| ensures h[i].ip != h[j].ip {
        if h[i] == h[j] { Seqs.Repeated(h, i, j); }
      }
    }
  }

  lemma CountOnce(h: seq<Delayed>, x: Delayed)
    requires UniqueIps(h) && x in h
    ensures multiset(h)[x] == 1
  {
    var i :| 0 <= i < |h| && h[i] == x;
    Seqs.OnlyAt(h[..i], x, h[i + 1..]);
    assert h == h[..i] + [x] + h[i + 1..];
  }

  lemma UniqueIsOrderFree(h: seq<Delayed>, g: seq<Delayed>)
    requires multiset(h) == multiset(g) && UniqueIps(h)
    ensures UniqueIps(g)
  {
    KeyedIffUnique(h);
    KeyedIffUnique(g);
  }

  lemma RemoveAtContents(h: seq<Delayed>, i: nat)
    requires i < |h|
    ensures multiset(Seqs.RemoveAt(h, i)) == multiset(h) - multiset{h[i]}
  {
    assert h == h[..i] + [h[i]] + h[i + 1..];
  }

  lemma RemoveAtMembers(h: seq<Delayed>, i: nat)
    requires i < |h|
    ensures forall x :: x in Seqs.RemoveAt(h, i) ==> x in h
    ensures forall x :: x in h && x != h[i] ==> x in Seqs.RemoveAt(h, i)
    ensures UniqueIps(h) ==> UniqueIps(Seqs.RemoveAt(h, i)) && !HasIp(Seqs.RemoveAt(h, i), h[i].ip)
  {
    var r := Seqs.RemoveAt(h, i);
    forall x | x in h && x != h[i] ensures x in r {
      var j :| 0 <= j < |h| && h[j] == x;
      if j < i { assert r[j] == x; } else { assert r[j - 1] == x; }
    }
  }

  /** What `peek` returns is the latest entry, of those the one with the greatest address. It is also
      the earliest, as the comment on `next_broken_ip_address` suggests, exactly when all entries fall
      due at the same time. */
  lemma PeekIsEarliestIff(h: seq<Delayed>, i: nat)
    requires IsMax(h, i)
    ensures (forall x :: x in h ==> h[i].time <= x.time)
            <==> (forall x, y :: x in h && y in h ==> x.time == y.time)
    ensures forall x :: x in h ==> x.time <= h[i].time && (x.time == h[i].time ==> x.ip <= h[i].ip)
  {
    assert forall x :: x in h ==> Leq(x, h[i]);
    assert h[i] in h;
  }

  /** `e` is a maximum of h, and the n-th reading is the first that has reached its deadline. */
  ghost predicate HandedOut(h: seq<Delayed>, readings: seq<Instant>, n: nat, e: Delayed) {
    && e in h
    && (forall x :: x in h ==> Leq(x, e))
    && 0 < n <= |readings|
    && e.time <= readings[n - 1]
    && forall k :: 0 <= k < n - 1 ==> readings[k] < e.time
  }

  /** The heap is empty, or its latest entry lies beyond every reading. */
  ghost predicate NothingDue(h: seq<Delayed>, readings: seq<Instant>) {
    h != [] ==> forall k :: 0 <= k < |readings| ==> readings[k] < Max(h).time
  }

  /** The readings decide which entry is handed out, and at which of them. */
  lemma HandOutDetermined(h: seq<Delayed>, readings: seq<Instant>, n: nat, e: Delayed, m: nat, f: Delayed)
    requires HandedOut(h, readings, n, e)
    ensures HandedOut(h, readings, m, f) ==> n == m && e == f
    ensures !NothingDue(h, readings)
  {
    assert Leq(Max(h), e) && Leq(e, Max(h));
    if HandedOut(h, readings, m, f) {
      assert Leq(e, f) && Leq(f, e);
      var mine, other := readings[n - 1], readings[m - 1];
    }
  }

  class BrokenEndpoints {
    var addresses: seq<Delayed>
    var permit: bool  // the single stored permit of `Notify`

    constructor ()
      ensures addresses == [] && !permit
    {
      addresses, permit := [], false;
    }

    method ReplaceWith(heap: seq<Delayed>)
      modifies this
      ensures addresses == heap
      ensures permit == (old(permit) || heap != [])
    {
      addresses := heap;
      if |addresses| != 0 { permit := true; }
    }

    method GetAddress(ip: Ip) returns (r: Option<Delayed>)
      ensures r == Lookup(addresses, ip)
    {
      var i := 0;
      while i < |addresses|
        invariant 0 <= i <= |addresses|
        invariant Lookup(addresses[i..], ip) == Lookup(addresses, ip)
      {
        if addresses[i].ip == ip { return Some(addresses[i]); }
        i := i + 1;
      }
      return None;
    }

    method AddAddress(ip: Ip, now: Instant)
      modifies this
      ensures addresses == Insert(old(addresses), FirstFailure(now, ip)) && permit
    {
      AddWithCount(ip, 1, now);
    }

    method ReAddAddress(e: Delayed, now: Instant)
      modifies this
      ensures addresses == Insert(old(addresses), NextFailure(now, e)) && permit
    {
      AddWithCount(e.ip, Bumped(FailedTimes(e)), now);
    }

    method AddWithCount(ip: Ip, count: U8, now: Instant)
      modifies this
      ensures addresses == Insert(old(addresses), Delayed(NextTest(now, count), ip)) && permit
    {
      var nextTestTime := NextTest(now, count);
      var kept: seq<Delayed> := [];
      var i := 0;
      while i < |addresses|
        invariant 0 <= i <= |addresses| && addresses == old(addresses)
        invariant kept + Without(addresses[i..], ip) == Without(addresses, ip)
      {
        assert addresses[i..][1..] == addresses[i + 1..];
        if addresses[i].ip != ip { kept := kept + [addresses[i]]; }
        i := i + 1;
      }
      addresses := kept + [Delayed(nextTestTime, ip)];
      permit := true;
    }

    method Peek() returns (i: nat)
      requires addresses != []
      ensures IsMax(addresses, i)
    {
      i := 0;
      var j := 1;
      while j < |addresses|
        invariant 1 <= j <= |addresses| && i < j
        invariant forall k :: 0 <= k < j ==> Leq(addresses[k], addresses[i])
      {
        if Leq(addresses[i], addresses[j]) { i := j; }
        j := j + 1;
      }
    }

    /** The waiting loop while no other task interferes: each reading is taken on a wake-up. The
        first reading at or after the latest deadline hands that entry out; with none, or with an
        empty heap, the task stays parked and nothing changes. */
    method NextBrokenIpAddress(readings: seq<Instant>) returns (r: Option<Delayed>, n: nat)
      modifies this`addresses
      ensures r.Some? ==> HandedOut(old(addresses), readings, n, r.value)
      ensures r.Some? ==> multiset(addresses) == multiset(old(addresses)) - multiset{r.value}
      ensures r.None? ==> addresses == old(addresses) && NothingDue(addresses, readings)
    {
      n := 0;
      if |addresses| == 0 { return None, 0; }
      ghost var h := addresses;
      ghost var top := Max(h);
      while n < |readings|
        invariant n <= |readings| && addresses == h
        invariant forall k :: 0 <= k < n ==> readings[k] < top.time
      {
        var now := readings[n];
        n := n + 1;
        var i := Peek();
        MaxIsUnique(h, i);
        if now >= addresses[i].time {
          r := Some(addresses[i]);
          assert HandedOut(h, readings, n, top);
          RemoveAtContents(h, i);
          addresses := Seqs.RemoveAt(addresses, i);
          return;
        }
      }
      return None, n;
    }
  }

  ghost function Max(h: seq<Delayed>): (m: Delayed)
    requires h != []
    ensures m in h && forall x :: x in h ==> Leq(x, m)
  {
    if |h| == 1 then h[0]
    else
      var rest := Max(h[1..]);
      assert forall x :: x in h ==> x == h[0] || x in h[1..];
      if Leq(rest, h[0]) then h[0] else rest
  }

  lemma MaxIsUnique(h: seq<Delayed>, i: nat)
    requires IsMax(h, i)
    ensures Max(h) == h[i]
  {
    assert Leq(h[i], Max(h)) && Leq(Max(h), h[i]);
  }
}
