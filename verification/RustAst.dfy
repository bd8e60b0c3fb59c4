/** As much of a Rust syntax tree as the client parser looks at and the generator writes. */
module RustAst {
  import opened Types

  /** An identifier as printed; a raw one starts with "r#". */
  type Ident = string

  datatype Segment = Segment(ident: Ident, args: Args)

  datatype Args = NoArgs | Angle(list: seq<GenericArg>) | Parenthesized

  datatype GenericArg = TypeArg(ty: Type) | OtherArg  // a lifetime, a constant, a binding

  datatype Type =
    | PathType(path: seq<Segment>)
    | ImplTrait(bounds: seq<Bound>)
    | OtherType(text: string)

  datatype Bound = TraitBound(path: seq<Segment>) | OtherBound  // a lifetime

  datatype FnArg = Receiver | Typed(ty: Type)

  datatype ReturnType = Default | Returns(ty: Type)

  datatype Attr = Attr(leadingColon: bool, path: seq<Segment>)

  /** A body is opaque to the parser; the generator writes these three. */
  datatype Body =
    | Source(text: string)
    | Constructor
    | DefaultRetry(callee: Ident)                // self.<callee>::<DefaultRetryPolicy>(request)
    | RetryLoop(client: Ident, callee: Ident)    // the loop around <client>::new(channel).<callee>(request)

  datatype Method = Method(attrs: seq<Attr>, name: Ident, inputs: seq<FnArg>, output: ReturnType, body: Body)

  datatype ImplItem = Fn(decl: Method) | OtherImplItem

  datatype Item =
    | Mod(name: Ident, content: Option<seq<Item>>)
    | Impl(selfTy: Type, items: seq<ImplItem>)
    | Struct(ident: Ident)
    | Use(idents: seq<Ident>)   // a glob import
    | OtherItem

  datatype File = File(items: seq<Item>)

  datatype Error = UnexpectedStructure | MissingConfiguration | IoError | SynError | GrpcClientNotFound | Panicked

  datatype Result<+T> = Ok(value: T) | Err(error: Error)

  predicate EndsWith(s: string, suffix: string) {
    |s| >= |suffix| && s[|s| - |suffix|..] == suffix
  }

  predicate IsRaw(s: Ident) { "r#" <= s }

  // ---------- Iterators ----------

  function Filter<T(!new)>(p: T -> bool, xs: seq<T>): seq<T> {
    if xs == [] then []
    else Filter(p, xs[..|xs| - 1]) + if p(xs[|xs| - 1]) then [xs[|xs| - 1]] else []
  }

  /** `map(f).collect::<Result<Vec<_>, _>>()`: the first error stops it. */
  function Collect<T(!new), U>(f: T -> Result<U>, xs: seq<T>): Result<seq<U>> {
    if xs == [] then Ok([])
    else
      var n := |xs| - 1;
      match Collect(f, xs[..n])
      case Err(e) => Err(e)
      case Ok(us) =>
        match f(xs[n])
        case Err(e) => Err(e)
        case Ok(u) => Ok(us + [u])
  }

  function FlatMap<T(!new), U>(f: T -> seq<U>, xs: seq<T>): seq<U> {
    if xs == [] then [] else FlatMap(f, xs[..|xs| - 1]) + f(xs[|xs| - 1])
  }

  /** `idx` lists, in order, exactly the positions of xs at which p holds. */
  ghost predicate Selects<T(!new)>(p: T -> bool, xs: seq<T>, idx: seq<nat>) {
    && (forall j :: 0 <= j < |idx| ==> idx[j] < |xs| && p(xs[idx[j]]))
    && (forall i, j :: 0 <= i < j < |idx| ==> idx[i] < idx[j])
    && (forall k :: 0 <= k < |xs| && p(xs[k]) ==> k in idx)
  }

  /** Filtering keeps order and multiplicity. */
  lemma {:induction false} FilterSelects<T(!new)>(p: T -> bool, xs: seq<T>) returns (idx: seq<nat>)
    ensures Selects(p, xs, idx)
    ensures |Filter(p, xs)| == |idx|
    ensures forall j :: 0 <= j < |idx| ==> Filter(p, xs)[j] == xs[idx[j]]
  {
    if xs == [] {
      idx := [];
    } else {
      var n := |xs| - 1;
      var before := FilterSelects(p, xs[..n]);
      idx := before + if p(xs[n]) then [n] else [];
      SelectsMore(p, xs, before);
    }
  }

  lemma SelectsMore<T(!new)>(p: T -> bool, xs: seq<T>, before: seq<nat>)
    requires xs != [] && Selects(p, xs[..|xs| - 1], before)
    ensures Selects(p, xs, before + if p(xs[|xs| - 1]) then [|xs| - 1] else [])
  {
    var n := |xs| - 1;
    var idx := before + if p(xs[n]) then [n] else [];
    forall k | 0 <= k < |xs| && p(xs[k]) ensures k in idx {
      if k < n { assert xs[..n][k] == xs[k]; }
    }
  }

  lemma FilterMembers<T(!new)>(p: T -> bool, xs: seq<T>)
    ensures forall x :: x in Filter(p, xs) <==> x in xs && p(x)
  {
    var idx := FilterSelects(p, xs);
    forall x | x in xs && p(x) ensures x in Filter(p, xs) {
      var k :| 0 <= k < |xs| && xs[k] == x;
      var j :| 0 <= j < |idx| && idx[j] == k;
      assert Filter(p, xs)[j] == x;
    }
  }

  /** Collecting succeeds exactly when every element does, and then keeps their order. */
  lemma {:induction false} CollectExact<T(!new), U>(f: T -> Result<U>, xs: seq<T>)
    ensures Collect(f, xs).Ok? <==> forall x :: x in xs ==> f(x).Ok?
    ensures Collect(f, xs).Ok? ==>
              && |Collect(f, xs).value| == |xs|
              && forall k :: 0 <= k < |xs| ==> f(xs[k]) == Ok(Collect(f, xs).value[k])
  {
    if xs != [] {
      var n := |xs| - 1;
      CollectExact(f, xs[..n]);
      assert xs == xs[..n] + [xs[n]];
      assert forall x :: x in xs <==> x in xs[..n] || x == xs[n];
    }
  }

  lemma {:induction false} CollectError<T(!new), U>(f: T -> Result<U>, xs: seq<T>, error: Error)
    requires forall x :: x in xs && f(x).Err? ==> f(x) == Err(error)
    ensures Collect(f, xs).Err? ==> Collect(f, xs) == Err(error)
  {
    if xs != [] {
      var n := |xs| - 1;
      assert forall x :: x in xs[..n] ==> x in xs;
      CollectError(f, xs[..n], error);
    }
  }

  lemma CollectSnoc<T(!new), U>(f: T -> Result<U>, xs: seq<T>, x: T)
    requires Collect(f, xs).Ok? && f(x).Ok?
    ensures Collect(f, xs + [x]) == Ok(Collect(f, xs).value + [f(x).value])
  {
    var all := xs + [x];
    assert all[..|all| - 1] == xs && all[|all| - 1] == x;
  }

  lemma {:induction false} FilterConcat<T(!new)>(p: T -> bool, xs: seq<T>, ys: seq<T>)
    ensures Filter(p, xs + ys) == Filter(p, xs) + Filter(p, ys)
    decreases |ys|
  {
    if ys == [] {
      assert xs + ys == xs;
    } else {
      var n := |ys| - 1;
      FilterConcat(p, xs, ys[..n]);
      var all := xs + ys;
      assert all[..|all| - 1] == xs + ys[..n] && all[|all| - 1] == ys[n];
      var last := if p(ys[n]) then [ys[n]] else [];
      assert Filter(p, xs) + (Filter(p, ys[..n]) + last) == Filter(p, xs) + Filter(p, ys[..n]) + last;
    }
  }

  lemma {:induction false} CollectConcat<T(!new), U>(f: T -> Result<U>, xs: seq<T>, ys: seq<T>)
    requires Collect(f, xs).Ok? && Collect(f, ys).Ok?
    ensures Collect(f, xs + ys) == Ok(Collect(f, xs).value + Collect(f, ys).value)
    decreases |ys|
  {
    if ys == [] {
      assert xs + ys == xs;
      assert Collect(f, xs).value + [] == Collect(f, xs).value;
    } else {
      var n := |ys| - 1;
      CollectConcat(f, xs, ys[..n]);
      var all := xs + ys;
      assert all[..|all| - 1] == xs + ys[..n] && all[|all| - 1] == ys[n];
      var a, b, u := Collect(f, xs).value, Collect(f, ys[..n]).value, f(ys[n]).value;
      assert a + (b + [u]) == a + b + [u];
    }
  }

  lemma {:induction false} FilterNone<T(!new)>(p: T -> bool, xs: seq<T>)
    requires forall x :: x in xs ==> !p(x)
    ensures Filter(p, xs) == []
  {
    if xs != [] {
      var n := |xs| - 1;
      assert forall x :: x in xs[..n] ==> x in xs;
      FilterNone(p, xs[..n]);
    }
  }
}
