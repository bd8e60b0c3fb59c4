/** The pooled client written for a parsed client file (generator.rs), and what the parser makes of it. */
module Generator {
  import opened Types
  import opened Seqs
  import opened RustAst
  import opened Parser

  function Plain(ident: Ident): Segment { Segment(ident, NoArgs) }

  /** `impl tonic::IntoRequest<t>` */
  function RequestParam(t: Type): FnArg {
    Typed(ImplTrait([TraitBound([Plain("tonic"), Segment("IntoRequest", Angle([TypeArg(t)]))])]))
  }

  /** `std::result::Result<tonic::Response<t>, tonic::Status>` */
  function ResultType(t: Type): ReturnType {
    var response := PathType([Plain("tonic"), Segment("Response", Angle([TypeArg(t)]))]);
    var status := PathType([Plain("tonic"), Plain("Status")]);
    Returns(PathType([Plain("std"), Plain("result"), Segment("Result", Angle([TypeArg(response), TypeArg(status)]))]))
  }

  function WithRetry(name: Ident): Ident { name + "_with_retry" }

  function Attrs(m: ClientMethod): seq<Attr> {
    if m.deprecated then [Attr(false, [Plain("deprecated")])] else []
  }

  /** The method and its retrying twin. */
  function GenMethod(client: Ident, m: ClientMethod): seq<ImplItem> {
    var inputs := [Receiver, RequestParam(m.requestType)];
    [Fn(Method(Attrs(m), m.name, inputs, ResultType(m.responseType), DefaultRetry(WithRetry(m.name)))),
     Fn(Method(Attrs(m), WithRetry(m.name), inputs, ResultType(m.responseType), RetryLoop(client, m.name)))]
  }

  function GenMethods(client: Ident, ms: seq<ClientMethod>): seq<ImplItem> {
    if ms == [] then [] else GenMethods(client, ms[..|ms| - 1]) + GenMethod(client, ms[|ms| - 1])
  }

  /** `new(pool: impl soda_pool::ChannelPool + Send + Sync + 'static)` and
      `new_from_endpoint(endpoint: soda_pool::EndpointTemplate)` */
  function Constructors(): seq<ImplItem> {
    var pool := ImplTrait([TraitBound([Plain("soda_pool"), Plain("ChannelPool")]), TraitBound([Plain("Send")]),
                           TraitBound([Plain("Sync")]), OtherBound]);
    var endpoint := PathType([Plain("soda_pool"), Plain("EndpointTemplate")]);
    var self := Returns(PathType([Plain("Self")]));
    [Fn(Method([], "new", [Typed(pool)], self, Constructor)),
     Fn(Method([], "new_from_endpoint", [Typed(endpoint)], self, Constructor))]
  }

  function PoolName(client: Ident): Ident { client + "Pool" }

  function PoolType(client: Ident): Type { PathType([Plain(PoolName(client))]) }

  function GenClient(c: ClientImpl): seq<Item> {
    [Struct(PoolName(c.name)),
     Impl(PoolType(c.name), Constructors()),
     Impl(PoolType(c.name), GenMethods(c.name, c.methods))]
  }

  function GenModule(fileModule: Ident, m: ClientModule): Item {
    Mod(m.name, Some([Use(["super", "super", fileModule, m.name])] + FlatMap(GenClient, m.clients)))
  }

  function GenModules(fileModule: Ident, ms: seq<ClientModule>): seq<Item> {
    if ms == [] then [] else GenModules(fileModule, ms[..|ms| - 1]) + [GenModule(fileModule, ms[|ms| - 1])]
  }

  function GenFile(f: ClientFile): File {
    File([Use(["super", f.fileModule])] + GenModules(f.fileModule, f.modules))
  }

  /** `Ident::new` panics on a name with the raw prefix, to which "Pool" or "_with_retry" has merely
      been appended. */
  predicate NoRawNames(f: ClientFile) {
    forall m :: m in f.modules ==> forall c :: c in m.clients ==>
      !IsRaw(PoolName(c.name)) && forall d :: d in c.methods ==> !IsRaw(WithRetry(d.name))
  }

  function Generate(f: ClientFile): Result<File> {
    if NoRawNames(f) then Ok(GenFile(f)) else Err(Panicked)
  }

  /** Generation goes through exactly when no client and no method has a raw name. */
  lemma GeneratesIff(f: ClientFile)
    ensures Generate(f).Ok? <==>
            forall m, c :: m in f.modules && c in m.clients ==>
              !IsRaw(c.name) && forall d :: d in c.methods ==> !IsRaw(d.name)
  {
    forall m, c | m in f.modules && c in m.clients
      ensures IsRaw(PoolName(c.name)) <==> IsRaw(c.name)
      ensures forall d :: d in c.methods ==> (IsRaw(WithRetry(d.name)) <==> IsRaw(d.name))
    {
      RawPrefix(c.name, "Pool");
      forall d | d in c.methods ensures IsRaw(WithRetry(d.name)) <==> IsRaw(d.name) {
        RawPrefix(d.name, "_with_retry");
      }
    }
  }

  lemma RawPrefix(name: Ident, suffix: string)
    requires |suffix| >= 2 && suffix[0] != 'r' && suffix[0] != '#'
    ensures IsRaw(name + suffix) <==> IsRaw(name)
  {
    var s := name + suffix;
    assert IsRaw(s) <==> s[0] == 'r' && s[1] == '#';
    if |name| >= 2 { assert s[0] == name[0] && s[1] == name[1]; }
    if |name| == 1 { assert s[1] == suffix[0]; }
    if |name| == 0 { assert s[0] == suffix[0]; }
  }

  // ---------- What stands in the generated file ----------

  /** Where a `use` path leads from a module given by its own path. */
  function Resolve(at: seq<Ident>, path: seq<Ident>): seq<Ident> {
    if path == [] then at
    else if path[0] == "super" then Resolve(if at == [] then [] else at[..|at| - 1], path[1..])
    else at + path
  }

  lemma {:induction false} Climbs(at: seq<Ident>, names: seq<Ident>, path: seq<Ident>)
    requires path != [] && path[0] != "super"
    ensures Resolve(at + names, seq(|names|, _ => "super") + path) == at + path
    decreases |names|
  {
    var ups := seq(|names|, _ => "super");
    if names == [] {
      assert at + names == at && ups + path == path;
    } else {
      var n := |names| - 1;
      assert (ups + path)[1..] == seq(n, _ => "super") + path;
      assert (at + names)[..|at + names| - 1] == at + names[..n];
      Climbs(at, names[..n], path);
    }
  }

  /** The output is the file of a module beside the source's, with one module for each of the source's
      client modules, of the same name and in the same order. What the output and each of its modules
      import is the source file's module and, in it, the module of that name. */
  lemma ImportsReachTheSource(f: ClientFile, parent: seq<Ident>, self: Ident, i: nat)
    requires i < |f.modules| && f.fileModule != "super"
    ensures var items := GenFile(f).items;
            && |items| == 1 + |f.modules|
            && items[0].Use? && Resolve(parent + [self], items[0].idents) == parent + [f.fileModule]
            && items[1 + i].Mod? && items[1 + i].name == f.modules[i].name
            && items[1 + i].content.Some? && items[1 + i].content.value != []
            && var first := items[1 + i].content.value[0];
               && first.Use?
               && Resolve(parent + [self, f.modules[i].name], first.idents)
                  == parent + [f.fileModule, f.modules[i].name]
  {
    var name := f.modules[i].name;
    ModuleAt(f.fileModule, f.modules, i);
    Climbs(parent, [self], [f.fileModule]);
    Climbs(parent, [self, name], [f.fileModule, name]);
    assert seq(1, _ => "super") + [f.fileModule] == ["super", f.fileModule];
    assert seq(2, _ => "super") + [f.fileModule, name] == ["super", "super", f.fileModule, name];
  }

  lemma {:induction false} ModuleAt(fileModule: Ident, ms: seq<ClientModule>, i: nat)
    requires i < |ms|
    ensures |GenModules(fileModule, ms)| == |ms| && GenModules(fileModule, ms)[i] == GenModule(fileModule, ms[i])
  {
    var n := |ms| - 1;
    if n > 0 { ModuleAt(fileModule, ms[..n], if i < n then i else 0); }
  }

  /** After its import, a generated module holds for each client, in order, a struct named after it plus
      "Pool" and two impls of exactly that struct. */
  lemma ClientInModule(fileModule: Ident, m: ClientModule, i: nat)
    requires i < |m.clients|
    ensures var items := Contents(GenModule(fileModule, m));
            var own := PathType([Segment(m.clients[i].name + "Pool", NoArgs)]);
            && |items| == 1 + 3 * |m.clients|
            && items[1 + 3 * i] == Struct(m.clients[i].name + "Pool")
            && items[2 + 3 * i].Impl? && items[2 + 3 * i].selfTy == own
            && items[3 + 3 * i].Impl? && items[3 + 3 * i].selfTy == own
            && items[2 + 3 * i].items == Constructors()
            && items[3 + 3 * i].items == GenMethods(m.clients[i].name, m.clients[i].methods)
  {
    var all := FlatMap(GenClient, m.clients);
    var items := Contents(GenModule(fileModule, m));
    ClientAt(m.clients, i);
    assert items == [Use(["super", "super", fileModule, m.name])] + all;
    forall k | 0 <= k < 3 ensures items[1 + 3 * i + k] == GenClient(m.clients[i])[k] {
      assert all[3 * i..3 * i + 3][k] == all[3 * i + k];
    }
    assert items[1 + 3 * i + 0] == GenClient(m.clients[i])[0];
    assert items[1 + 3 * i + 1] == GenClient(m.clients[i])[1];
    assert items[1 + 3 * i + 2] == GenClient(m.clients[i])[2];
  }

  lemma {:induction false} ClientAt(cs: seq<ClientImpl>, i: nat)
    requires i < |cs|
    ensures |FlatMap(GenClient, cs)| == 3 * |cs|
    ensures FlatMap(GenClient, cs)[3 * i..3 * i + 3] == GenClient(cs[i])
  {
    var n := |cs| - 1;
    if n > 0 { ClientAt(cs[..n], if i < n then i else 0); }
  }

  /** A generated client is made from any channel pool, or from an endpoint template. */
  lemma ConstructorsTake(i: nat)
    requires i < |Constructors()|
    ensures Constructors()[i].Fn? && var m := Constructors()[i].decl;
            && |m.inputs| == 1 && m.inputs[0].Typed?
            && m.output == Returns(PathType([Plain("Self")]))
            && if i == 0
               then m.name == "new" && m.inputs[0].ty.ImplTrait?
                    && TraitBound([Plain("soda_pool"), Plain("ChannelPool")]) in m.inputs[0].ty.bounds
               else m.name == "new_from_endpoint"
                    && m.inputs[0].ty == PathType([Plain("soda_pool"), Plain("EndpointTemplate")])
    ensures |Constructors()| == 2
  {}

  // ---------- Parsing what was generated ----------

  function Twin(m: ClientMethod): ClientMethod { m.(name := WithRetry(m.name)) }

  /** Each method followed by its twin. */
  function Doubled(ms: seq<ClientMethod>): seq<ClientMethod> {
    if ms == [] then [] else Doubled(ms[..|ms| - 1]) + [ms[|ms| - 1], Twin(ms[|ms| - 1])]
  }

  lemma GeneratedMethodParses(m: ClientMethod, name: Ident, body: Body)
    ensures var g := Method(Attrs(m), name, [Receiver, RequestParam(m.requestType)], ResultType(m.responseType), body);
            IsGrpcMethod(g) && ParseMethod(g) == Ok(m.(name := name))
  {
    var g := Method(Attrs(m), name, [Receiver, RequestParam(m.requestType)], ResultType(m.responseType), body);
    var path := [Plain("tonic"), Segment("IntoRequest", Angle([TypeArg(m.requestType)]))];
    assert FirstTrait([TraitBound(path)]) == Some(path);
    assert IntoRequestType(g.inputs[1].ty) == Ok(m.requestType);
    assert TonicResponseType(ResultSuccessType(g.output).value) == Ok(m.responseType);
    if m.deprecated { assert IsDeprecated(g.attrs[0]); }
  }

  lemma PairParses(client: Ident, m: ClientMethod)
    ensures Filter(IsGrpcItem, GenMethod(client, m)) == GenMethod(client, m)
    ensures Collect(ParseItem, GenMethod(client, m)) == Ok([m, Twin(m)])
  {
    var items := GenMethod(client, m);
    GeneratedMethodParses(m, m.name, DefaultRetry(WithRetry(m.name)));
    GeneratedMethodParses(m, WithRetry(m.name), RetryLoop(client, m.name));
    var one := [] + [items[0]];
    assert items == one + [items[1]] && one == items[..1];
    CollectSnoc(ParseItem, [], items[0]);
    CollectSnoc(ParseItem, one, items[1]);
    assert ParseItem(items[0]) == Ok(m) && ParseItem(items[1]) == Ok(Twin(m));
    assert Collect(ParseItem, one) == Ok([] + [m]);
    assert [] + [m] + [Twin(m)] == [m, Twin(m)];
    assert items[..1][..0] == [];
    assert Filter(IsGrpcItem, items[..1]) == [items[0]];
  }

  /** Parsing the generated impl gives back every source method, followed by its twin, with the same
      request type, response type and deprecation, in the same order. */
  lemma {:induction false} RoundTrip(client: Ident, ms: seq<ClientMethod>)
    ensures ParseMethods(GenMethods(client, ms)) == Ok(Doubled(ms))
    ensures Filter(IsGrpcItem, GenMethods(client, ms)) == GenMethods(client, ms)
  {
    if ms != [] {
      var before, m := ms[..|ms| - 1], ms[|ms| - 1];
      RoundTrip(client, before);
      PairParses(client, m);
      FilterConcat(IsGrpcItem, GenMethods(client, before), GenMethod(client, m));
      CollectConcat(ParseItem, GenMethods(client, before), GenMethod(client, m));
    }
  }

  /** So the impl that carries the generated methods parses to the pool client with all of them. */
  lemma GeneratedImplParses(c: ClientImpl)
    ensures ParseImpl(GenClient(c)[2]) == Ok(ClientImpl(PoolName(c.name), Doubled(c.methods)))
    ensures ParseImpl(GenClient(c)[1]) == Ok(ClientImpl(PoolName(c.name), []))
  {
    RoundTrip(c.name, c.methods);
    ConstructorsContributeNothing();
  }

  /** Each plain method delegates to the twin that follows it, and that twin's loop calls the client
      method of the plain name. */
  lemma {:induction false} DelegationReachesItsLoop(client: Ident, ms: seq<ClientMethod>, i: nat)
    requires i < |ms|
    ensures |GenMethods(client, ms)| == 2 * |ms|
    ensures var plain, twin := GenMethods(client, ms)[2 * i], GenMethods(client, ms)[2 * i + 1];
            && plain.Fn? && twin.Fn?
            && plain.decl.body == DefaultRetry(twin.decl.name)
            && twin.decl.body == RetryLoop(client, plain.decl.name)
            && plain.decl.name == ms[i].name
  {
    var n := |ms| - 1;
    if i < n { DelegationReachesItsLoop(client, ms[..n], i); }
    else if n > 0 { DelegationReachesItsLoop(client, ms[..n], 0); }
  }

  /** The generated constructors are no gRPC methods. */
  lemma ConstructorsContributeNothing()
    ensures ParseMethods(Constructors()) == Ok([])
  {
    FilterNone(IsGrpcItem, Constructors());
  }

  lemma PoolIsNoClient(client: Ident)
    ensures !EndsWith(PoolName(client), "Client")
  {
    var s := PoolName(client);
    assert s[|s| - 1] == 'l';
    if |s| >= 6 { assert s[|s| - 6..][5] == 'l'; }
  }

  lemma {:induction false} GeneratedImplsIgnored(cs: seq<ClientImpl>, item: Item)
    requires item in FlatMap(GenClient, cs)
    ensures !IsClientImpl(item)
  {
    var n := |cs| - 1;
    PoolIsNoClient(cs[n].name);
    if item in FlatMap(GenClient, cs[..n]) { GeneratedImplsIgnored(cs[..n], item); }
  }

  /** A generated module parses to a module without clients. */
  lemma GeneratedModuleHasNoClients(fileModule: Ident, m: ClientModule)
    ensures ParseModule(GenModule(fileModule, m)) == Ok(ClientModule(m.name, []))
  {
    var items := Contents(GenModule(fileModule, m));
    forall item | item in items ensures !IsClientImpl(item) {
      if item in FlatMap(GenClient, m.clients) { GeneratedImplsIgnored(m.clients, item); }
    }
    FilterNone(IsClientImpl, items);
  }

  function Emptied(ms: seq<ClientModule>): seq<ClientModule> {
    if ms == [] then [] else Emptied(ms[..|ms| - 1]) + [ClientModule(ms[|ms| - 1].name, [])]
  }

  lemma {:induction false} GeneratedModulesSelected(fileModule: Ident, ms: seq<ClientModule>)
    requires forall m :: m in ms ==> EndsWith(m.name, "_client")
    ensures Filter(IsClientModule, GenModules(fileModule, ms)) == GenModules(fileModule, ms)
  {
    if ms != [] {
      var before, m := ms[..|ms| - 1], ms[|ms| - 1];
      GeneratedModulesSelected(fileModule, before);
      var g, last := GenModules(fileModule, before), GenModule(fileModule, m);
      FilterConcat(IsClientModule, g, [last]);
      assert [last][..0] == [];
      assert Filter(IsClientModule, [last]) == [last];
    }
  }

  lemma {:induction false} GeneratedModulesParse(fileModule: Ident, ms: seq<ClientModule>)
    ensures Collect(ParseModule, GenModules(fileModule, ms)) == Ok(Emptied(ms))
  {
    if ms != [] {
      var before, m := ms[..|ms| - 1], ms[|ms| - 1];
      GeneratedModulesParse(fileModule, before);
      GeneratedModuleHasNoClients(fileModule, m);
      CollectSnoc(ParseModule, GenModules(fileModule, before), GenModule(fileModule, m));
    }
  }

  /** The output for a parsed file parses again, to the same modules with no clients in them. */
  lemma GeneratedFileParses(f: ClientFile)
    requires forall m :: m in f.modules ==> EndsWith(m.name, "_client")
    ensures ParseModules(GenFile(f)) == Ok(Emptied(f.modules))
  {
    GeneratedModulesParse(f.fileModule, f.modules);
    GeneratedModulesSelected(f.fileModule, f.modules);
    FilterConcat(IsClientModule, [Use(["super", f.fileModule])], GenModules(f.fileModule, f.modules));
    FilterNone(IsClientModule, [Use(["super", f.fileModule])]);
    assert [] + GenModules(f.fileModule, f.modules) == GenModules(f.fileModule, f.modules);
  }

  lemma ParsedModuleNames(file: File)
    requires ParseModules(file).Ok?
    ensures forall m :: m in ParseModules(file).value ==> EndsWith(m.name, "_client")
  {
    var idx := FileStructure(file);
    forall m | m in ParseModules(file).value ensures EndsWith(m.name, "_client") {
      var j :| 0 <= j < |idx| && ParseModules(file).value[j] == m;
      assert ClientsOf(file.items[idx[j]], m);
    }
  }

  // ---------- Name clashes ----------

  function Names(ms: seq<ClientMethod>): seq<Ident> { seq(|ms|, i requires 0 <= i < |ms| => ms[i].name) }

  lemma {:induction false} DoubledNames(ms: seq<ClientMethod>, i: nat)
    requires i < |ms|
    ensures |Doubled(ms)| == 2 * |ms|
    ensures Doubled(ms)[2 * i].name == ms[i].name
    ensures Doubled(ms)[2 * i + 1].name == WithRetry(ms[i].name)
  {
    var n := |ms| - 1;
    if i < n { DoubledNames(ms[..n], i); } else if n > 0 { DoubledNames(ms[..n], 0); }
  }

  lemma RetryInjective(a: Ident, b: Ident)
    ensures WithRetry(a) == WithRetry(b) <==> a == b
    ensures a != WithRetry(a)
  {
    if WithRetry(a) == WithRetry(b) {
      assert |a| == |b|;
      assert WithRetry(a)[..|a|] == a && WithRetry(b)[..|b|] == b;
    }
    assert |WithRetry(a)| == |a| + 11;
  }

  predicate RetryFree(ms: seq<ClientMethod>) {
    forall i, j :: 0 <= i < |ms| && 0 <= j < |ms| ==> ms[i].name != WithRetry(ms[j].name)
  }

  lemma DoubledAt(ms: seq<ClientMethod>, x: nat)
    requires x < |Doubled(ms)|
    ensures |Doubled(ms)| == 2 * |ms|
    ensures Doubled(ms)[x].name == if x % 2 == 0 then ms[x / 2].name else WithRetry(ms[x / 2].name)
  {
    if ms != [] { DoubledNames(ms, 0); }
    DoubledNames(ms, x / 2);
  }

  lemma NamesDiffer(ms: seq<ClientMethod>, i: nat, j: nat)
    requires Distinct(Names(ms)) && RetryFree(ms) && i < |ms| && j < |ms|
    ensures i != j ==> ms[i].name != ms[j].name && WithRetry(ms[i].name) != WithRetry(ms[j].name)
    ensures ms[i].name != WithRetry(ms[j].name) && WithRetry(ms[i].name) != ms[j].name
  {
    RetryInjective(ms[i].name, ms[j].name);
    if i < j { assert Names(ms)[i] != Names(ms)[j]; }
    if j < i { assert Names(ms)[j] != Names(ms)[i]; }
  }

  lemma TwoNamesDiffer(ms: seq<ClientMethod>, x: nat, y: nat)
    requires Distinct(Names(ms)) && RetryFree(ms) && x < y < |Doubled(ms)|
    ensures Doubled(ms)[x].name != Doubled(ms)[y].name
  {
    DoubledAt(ms, x);
    DoubledAt(ms, y);
    NamesDiffer(ms, x / 2, y / 2);
  }

  /** The generated names are distinct exactly when the source names are and none of them is another
      with "_with_retry" appended. */
  lemma NamesDistinctIff(ms: seq<ClientMethod>)
    ensures Distinct(Names(Doubled(ms))) <==> Distinct(Names(ms)) && RetryFree(ms)
  {
    var d := Names(Doubled(ms));
    if Distinct(d) {
      forall i, j | 0 <= i < |ms| && 0 <= j < |ms|
        ensures i < j ==> ms[i].name != ms[j].name
        ensures ms[i].name != WithRetry(ms[j].name)
      {
        DoubledNames(ms, i);
        DoubledNames(ms, j);
        assert i < j ==> d[2 * i] != d[2 * j];
        assert d[2 * i] != d[2 * j + 1];
      }
    }
    if Distinct(Names(ms)) && RetryFree(ms) {
      forall x, y | 0 <= x < y < |d| ensures d[x] != d[y] { TwoNamesDiffer(ms, x, y); }
    }
  }
}
