/** The list of connected channels with its round-robin counter (ready_channels.rs). */
module ReadyList {
  import opened Types
  import Seqs

  /** The index of the first entry for `ip`, or |s| if there is none: `position`. */
  function Position(s: seq<Entry>, ip: Ip): (i: nat)
    ensures i <= |s|
    ensures i < |s| ==> s[i].ip == ip
    ensures forall j :: 0 <= j < i ==> s[j].ip != ip
  {
    if s == [] || s[0].ip == ip then 0 else 1 + Position(s[1..], ip)
  }

  predicate HasIp(s: seq<Entry>, ip: Ip) { exists i :: 0 <= i < |s| && s[i].ip == ip }

  /** The channel of the first entry for `ip`: `find`. */
  function Find(s: seq<Entry>, ip: Ip): (r: Option<Channel>)
    ensures r.Some? <==> HasIp(s, ip)
    ensures r.Some? ==> exists i :: 0 <= i < |s| && s[i] == Entry(ip, r.value) && !HasIp(s[..i], ip)
  {
    var i := Position(s, ip);
    if i < |s| then
      assert s[i] == Entry(ip, s[i].channel) && !HasIp(s[..i], ip);
      Some(s[i].channel)
    else None
  }

  /** `Vec::swap_remove`: the last element takes the place of the removed one. */
  function SwapRemove<T>(s: seq<T>, i: nat): seq<T>
    requires i < |s|
  {
    s[i := s[|s| - 1]][..|s| - 1]
  }

  function Remove(s: seq<Entry>, ip: Ip): seq<Entry> {
    var i := Position(s, ip);
    if i < |s| then SwapRemove(s, i) else s
  }

  function Ips(s: seq<Entry>): seq<Ip> { seq(|s|, i requires 0 <= i < |s| => s[i].ip) }

  /** How many entries there are for `ip`. */
  function Copies(s: seq<Entry>, ip: Ip): nat { multiset(Ips(s))[ip] }

  predicate UniqueIps(s: seq<Entry>) {
    forall i, j :: 0 <= i < j < |s| ==> s[i].ip != s[j].ip
  }

  lemma SwapRemoveContents<T>(s: seq<T>, i: nat)
    requires i < |s|
    ensures multiset(SwapRemove(s, i)) == multiset(s) - multiset{s[i]}
  {
    var n := |s| - 1;
    if i == n {
      assert s == s[..n] + [s[n]];
      assert SwapRemove(s, i) == s[..n];
    } else {
      SwapRemoveShape(s, i);
      TailToMiddle(s[..i], s[i], s[i + 1..n], s[n]);
    }
  }

  lemma SwapRemoveShape<T>(s: seq<T>, i: nat)
    requires i < |s| - 1
    ensures s == s[..i] + [s[i]] + s[i + 1..|s| - 1] + [s[|s| - 1]]
    ensures SwapRemove(s, i) == s[..i] + [s[|s| - 1]] + s[i + 1..|s| - 1]
  {}

  lemma TailToMiddle<T>(a: seq<T>, x: T, b: seq<T>, y: T)
    ensures multiset(a + [y] + b) == multiset(a + [x] + b + [y]) - multiset{x}
  {
    assert multiset(a + [y] + b) == multiset(a) + multiset{y} + multiset(b);
    assert multiset(a + [x] + b + [y]) == multiset(a) + multiset{x} + multiset(b) + multiset{y};
  }

  lemma CopiesPositive(s: seq<Entry>, ip: Ip)
    ensures Copies(s, ip) > 0 <==> HasIp(s, ip)
  {
    var ips := Ips(s);
    if i :| 0 <= i < |s| && s[i].ip == ip { assert ips[i] == ip; }
    if ip in ips {
      var i :| 0 <= i < |ips| && ips[i] == ip;
      assert s[i].ip == ip;
    }
  }

  lemma CopiesCount(s: seq<Entry>, ip: Ip)
    ensures Copies(s, ip) > 0 <==> HasIp(s, ip)
    ensures UniqueIps(s) ==> Copies(s, ip) <= 1
  {
    CopiesPositive(s, ip);
    if UniqueIps(s) && HasIp(s, ip) {
      var i :| 0 <= i < |s| && s[i].ip == ip;
      ListedOnce(s, i);
    }
  }

  lemma ListedOnce(s: seq<Entry>, i: nat)
    requires UniqueIps(s) && i < |s|
    ensures Copies(s, s[i].ip) == 1
  {
    var ips := Ips(s);
    Seqs.DistinctByCount(ips);
    assert ips[i] == s[i].ip;
  }

  /** `remove` takes out exactly one entry, the first for `ip`, and keeps the others as a multiset. */
  lemma RemoveTakesFirst(s: seq<Entry>, ip: Ip)
    ensures HasIp(s, ip) ==> multiset(Remove(s, ip)) == multiset(s) - multiset{s[Position(s, ip)]}
    ensures |Remove(s, ip)| == |s| - (if HasIp(s, ip) then 1 else 0)
    ensures Copies(Remove(s, ip), ip) == if HasIp(s, ip) then Copies(s, ip) - 1 else 0
    ensures forall other :: other != ip ==> Copies(Remove(s, ip), other) == Copies(s, other)
  {
    var i := Position(s, ip);
    CopiesCount(s, ip);
    assert HasIp(s, ip) <==> i < |s|;
    if i < |s| {
      SwapRemoveContents(s, i);
      IpsOfSwapRemove(s, i);
    }
  }

  lemma IpsOfSwapRemove(s: seq<Entry>, i: nat)
    requires i < |s|
    ensures multiset(Ips(SwapRemove(s, i))) == multiset(Ips(s)) - multiset{s[i].ip}
    ensures Copies(s, s[i].ip) > 0
  {
    SwapRemoveContents(Ips(s), i);
    assert Ips(SwapRemove(s, i)) == SwapRemove(Ips(s), i);
    assert Ips(s)[i] == s[i].ip;
  }

  /** Where the other entries end up: all keep their place but the last, which fills the gap. */
  lemma RemoveMovesOnlyTheLast(s: seq<Entry>, ip: Ip, j: nat)
    requires j < |Remove(s, ip)|
    ensures s[j].ip != ip || HasIp(s[..j], ip) ==> Remove(s, ip)[j] == s[j]
    ensures s[j].ip == ip && !HasIp(s[..j], ip) ==> Remove(s, ip)[j] == s[|s| - 1]
  {
    var i := Position(s, ip);
    if i < j { assert s[..j][i].ip == ip; }
    if HasIp(s[..j], ip) {
      var k :| 0 <= k < j && s[..j][k].ip == ip;
      assert s[k].ip == ip;
    }
  }

  /** After a `remove`, the address is gone exactly when it was listed at most once. */
  lemma RemoveIsCompleteIff(s: seq<Entry>, ip: Ip)
    ensures !HasIp(Remove(s, ip), ip) <==> Copies(s, ip) <= 1
    ensures UniqueIps(s) ==> !HasIp(Remove(s, ip), ip) && UniqueIps(Remove(s, ip))
  {
    RemoveTakesFirst(s, ip);
    CopiesCount(s, ip);
    CopiesCount(Remove(s, ip), ip);
  }

  class ReadyChannels {
    var channels: seq<Entry>
    var index: nat  // an AtomicUsize

    predicate Valid() reads this { index < USIZE_VALUES }

    constructor ()
      ensures Valid() && channels == [] && index == 0
    {
      channels, index := [], 0;
    }

    method FindChannel(ip: Ip) returns (r: Option<Channel>)
      ensures r == Find(channels, ip)
    {
      var i := 0;
      while i < |channels|
        invariant 0 <= i <= |channels|
        invariant forall j :: 0 <= j < i ==> channels[j].ip != ip
      {
        if channels[i].ip == ip {
          assert Position(channels, ip) == i;
          return Some(channels[i].channel);
        }
        i := i + 1;
      }
      return None;
    }

    /** `get_any`: the counter is read and incremented (wrapping) only when there is a channel. */
    method GetAny() returns (r: Option<Entry>)
      requires Valid()
      modifies this`index
      ensures Valid()
      ensures channels == [] ==> r == None && index == old(index)
      ensures channels != [] ==> r == Some(channels[old(index) % |channels|])
      ensures channels != [] ==> index == (old(index) + 1) % 0x1_0000_0000_0000_0000
    {
      if |channels| == 0 { return None; }
      var i := index;
      index := (index + 1) % USIZE_VALUES;
      return Some(channels[i % |channels|]);
    }

    method Add(ip: Ip, channel: Channel)
      modifies this`channels
      ensures channels == old(channels) + [Entry(ip, channel)]
    {
      channels := channels + [Entry(ip, channel)];
    }

    method RemoveIp(ip: Ip)
      modifies this`channels
      ensures channels == Remove(old(channels), ip)
    {
      var i := 0;
      while i < |channels| && channels[i].ip != ip
        invariant 0 <= i <= |channels| && channels == old(channels)
        invariant forall j :: 0 <= j < i ==> channels[j].ip != ip
      {
        i := i + 1;
      }
      assert Position(channels, ip) == i;
      if i < |channels| {
        channels := channels[i := channels[|channels| - 1]][..|channels| - 1];
      }
    }

    method ReplaceWith(list: seq<Entry>)
      modifies this`channels
      ensures channels == list
    {
      channels := list;
    }
  }
}

/** Fairness of `get_any` over a list that does not change. */
module RoundRobin {
  import opened Types
  import opened ReadyList

  /** The position the k-th of consecutive calls returns, from a counter value `start`. */
  function Pick(start: nat, k: nat, n: nat): nat
    requires n > 0
  {
    (start + k) % USIZE_VALUES % n
  }

  /** How often `calls` consecutive calls return position p. */
  function Picks(start: nat, calls: nat, n: nat, p: nat): nat
    requires n > 0
  {
    if calls == 0 then 0
    else Picks(start, calls - 1, n, p) + if Pick(start, calls - 1, n) == p then 1 else 0
  }

  /** `Picks` counts what `GetAny` returns: k calls in a row, on an unchanged list. */
  method Draw(r: ReadyChannels, calls: nat) returns (drawn: seq<Entry>)
    requires r.Valid() && r.channels != []
    modifies r`index
    ensures r.Valid() && |drawn| == calls
    ensures r.index == (old(r.index) + calls) % USIZE_VALUES
    ensures forall k :: 0 <= k < calls ==> drawn[k] == r.channels[Pick(old(r.index), k, |r.channels|)]
  {
    drawn := [];
    while |drawn| < calls
      invariant r.Valid() && |drawn| <= calls
      invariant r.index == (old(r.index) + |drawn|) % USIZE_VALUES
      invariant forall k :: 0 <= k < |drawn| ==> drawn[k] == r.channels[Pick(old(r.index), k, |r.channels|)]
    {
      Next(old(r.index) + |drawn|);
      var e := r.GetAny();
      drawn := drawn + [e.value];
    }
  }

  lemma Next(i: nat)
    ensures (i % USIZE_VALUES + 1) % USIZE_VALUES == (i + 1) % USIZE_VALUES
  {}

  /** The counter after k calls. */
  function Counter(start: nat, k: nat): nat { (start + k) % USIZE_VALUES }

  lemma CounterSteps(start: nat, k: nat)
    ensures start < USIZE_VALUES ==> Counter(start, 0) == start
    ensures k > 0 ==> Counter((start + 1) % USIZE_VALUES, k - 1) == Counter(start, k)
  {}

  /** Multiples of n shifted by p that lie below x. */
  function Below(x: nat, n: nat, p: nat): nat
    requires p < n
  {
    (x + n - 1 - p) / n
  }

  lemma BelowStep(x: nat, n: nat, p: nat)
    requires p < n
    ensures Below(x + 1, n, p) == Below(x, n, p) + if x % n == p then 1 else 0
  {
    var y := x + n - 1 - p;
    var q, r := x / n, x % n;
    assert x == n * q + r;
    if r == p {
      DivIs(y, n, q, n - 1);
      DivIs(y + 1, n, q + 1, 0);
    } else if r < p {
      DivIs(y, n, q, r + n - 1 - p);
      DivIs(y + 1, n, q, r + n - p);
    } else {
      DivIs(y, n, q + 1, r - 1 - p);
      DivIs(y + 1, n, q + 1, r - p);
    }
  }

  lemma DivIs(a: int, d: int, q: int, r: int)
    requires d > 0 && 0 <= r < d && a == d * q + r
    ensures a / d == q
  {
    var k := a / d - q;
    assert d * k == r - a % d;
    StrictMultiple(d, k);
  }

  lemma StrictMultiple(d: int, k: int)
    requires d > 0
    ensures k >= 1 ==> d * k >= d
    ensures k <= -1 ==> d * k <= -d
  {}

  lemma PickBeforeWrap(start: nat, k: nat, n: nat)
    requires n > 0
    ensures start + k < USIZE_VALUES ==> Pick(start, k, n) == (start + k) % n
    ensures USIZE_VALUES <= start + k < 2 * USIZE_VALUES
            ==> Pick(start, k, n) == (start + k - USIZE_VALUES) % n
  {
    var c := (start + k) % USIZE_VALUES;
    assert start + k < USIZE_VALUES ==> c == start + k;
    assert USIZE_VALUES <= start + k < 2 * USIZE_VALUES ==> c == start + k - USIZE_VALUES;
  }

  lemma {:induction false} PicksWithoutWrap(start: nat, calls: nat, n: nat, p: nat)
    requires p < n
    requires start + calls <= USIZE_VALUES
    ensures Picks(start, calls, n, p) == Below(start + calls, n, p) - Below(start, n, p)
    decreases calls
  {
    if calls > 0 {
      PicksWithoutWrap(start, calls - 1, n, p);
      PickBeforeWrap(start, calls - 1, n);
      BelowStep(start + calls - 1, n, p);
    }
  }

  lemma {:induction false} PicksSplit(start: nat, first: nat, rest: nat, n: nat, p: nat)
    requires n > 0 && start + first == USIZE_VALUES && rest <= USIZE_VALUES
    ensures Picks(start, first + rest, n, p) == Picks(start, first, n, p) + Picks(0, rest, n, p)
    decreases rest
  {
    if rest > 0 {
      PicksSplit(start, first, rest - 1, n, p);
      PickBeforeWrap(start, first + rest - 1, n);
      PickBeforeWrap(0, rest - 1, n);
    }
  }

  /** Number of multiples in a window of `calls`: between the two roundings of calls / n. */
  lemma Window(start: nat, calls: nat, n: nat, p: nat)
    requires p < n
    ensures calls / n <= Below(start + calls, n, p) - Below(start, n, p) <= (calls + n - 1) / n
  {
    var y := start + n - 1 - p;
    DivAdd(y, calls, n);
  }

  lemma DivAdd(a: nat, b: nat, n: nat)
    requires n > 0
    ensures b / n <= (a + b) / n - a / n <= (b + n - 1) / n
  {
    var qa, ra := a / n, a % n;
    var qb, rb := b / n, b % n;
    assert a == n * qa + ra && b == n * qb + rb;
    assert n * (qa + qb) == n * qa + n * qb;
    if ra + rb < n {
      DivIs(a + b, n, qa + qb, ra + rb);
    } else {
      assert n * (qa + qb + 1) == n * (qa + qb) + n;
      DivIs(a + b, n, qa + qb + 1, ra + rb - n);
    }
    if rb == 0 {
      DivIs(b + n - 1, n, qb, n - 1);
    } else {
      assert n * (qb + 1) == n * qb + n;
      DivIs(b + n - 1, n, qb + 1, rb - 1);
    }
  }

  /** While the counter does not wrap, every position is returned floor(k/n) or ceil(k/n) times. */
  lemma Fair(start: nat, calls: nat, n: nat, p: nat)
    requires p < n
    requires start + calls <= USIZE_VALUES
    ensures calls / n <= Picks(start, calls, n, p) <= (calls + n - 1) / n
  {
    PicksWithoutWrap(start, calls, n, p);
    Window(start, calls, n, p);
  }

  lemma CeilFloor(k: nat, n: nat)
    requires n > 0
    ensures (k + n - 1) / n <= k / n + 1
  {
    DivAdd(0, k, n);
    var q, r := k / n, k % n;
    assert k == n * q + r;
    if r == 0 { DivIs(k + n - 1, n, q, n - 1); } else {
      assert n * (q + 1) == n * q + n;
      DivIs(k + n - 1, n, q + 1, r - 1);
    }
  }

  /** Across one wrap of the counter two positions differ by at most 2; by at most 1 when the list
      length divides 2^64. */
  lemma FairAcrossWrap(start: nat, calls: nat, n: nat, p: nat, q: nat)
    requires p < n && q < n
    requires start < USIZE_VALUES < start + calls <= 2 * USIZE_VALUES
    ensures Picks(start, calls, n, p) - Picks(start, calls, n, q) <= 2
    ensures USIZE_VALUES % n == 0
            ==> Picks(start, calls, n, p) - Picks(start, calls, n, q) <= 1
  {
    var first := USIZE_VALUES - start;
    var rest := calls - first;
    forall x | x == p || x == q
      ensures Picks(start, calls, n, x) == Picks(start, first, n, x) + Picks(0, rest, n, x)
    {
      PicksSplit(start, first, rest, n, x);
    }
    Fair(start, first, n, p); Fair(start, first, n, q);
    Fair(0, rest, n, p); Fair(0, rest, n, q);
    CeilFloor(first, n); CeilFloor(rest, n);
    if USIZE_VALUES % n == 0 {
      SmoothWrap(start, calls, n, p);
      SmoothWrap(start, calls, n, q);
      CeilFloor(calls, n);
    }
  }

  /** When n divides 2^64 the wrap is invisible. */
  lemma SmoothWrap(start: nat, calls: nat, n: nat, p: nat)
    requires p < n && USIZE_VALUES % n == 0
    requires start < USIZE_VALUES < start + calls <= 2 * USIZE_VALUES
    ensures calls / n <= Picks(start, calls, n, p) <= (calls + n - 1) / n
  {
    var first := USIZE_VALUES - start;
    var rest := calls - first;
    PicksSplit(start, first, rest, n, p);
    PicksWithoutWrap(start, first, n, p);
    PicksWithoutWrap(0, rest, n, p);
    BelowWrapped(rest, n, p);
    Window(start, calls, n, p);
  }

  lemma BelowWrapped(rest: nat, n: nat, p: nat)
    requires p < n && USIZE_VALUES % n == 0
    ensures Below(USIZE_VALUES + rest, n, p) - Below(USIZE_VALUES, n, p)
            == Below(rest, n, p) - Below(0, n, p)
  {
    var u: int := USIZE_VALUES;
    var m := u / n;
    assert u == n * m;
    BelowMultiple(m, rest, n, p);
    BelowMultiple(m, 0, n, p);
  }

  lemma BelowMultiple(m: nat, x: nat, n: nat, p: nat)
    requires p < n
    ensures n * m + x >= 0 && Below(n * m + x, n, p) == m + Below(x, n, p)
  {
    var y := x + n - 1 - p;
    var q, r := y / n, y % n;
    assert n * m >= 0;
    assert n * (m + q) == n * m + n * q;
    DivIs(n * m + y, n, m + q, r);
  }

  /** The bound 2 is reached: with three channels and a wrap, one position is drawn twice in a row. */
  lemma WrapUnfair()
    ensures Picks(USIZE_VALUES - 1, 2, 3, 0) == 2 && Picks(USIZE_VALUES - 1, 2, 3, 1) == 0
  {
    assert Pick(USIZE_VALUES - 1, 0, 3) == 0;
    assert Pick(USIZE_VALUES - 1, 1, 3) == 0;
    assert Picks(USIZE_VALUES - 1, 1, 3, 0) == 1;
    assert Picks(USIZE_VALUES - 1, 1, 3, 1) == 0;
  }
}
