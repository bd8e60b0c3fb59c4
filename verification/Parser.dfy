/** What `parse_grpc_client_file` finds in a syntax tree (parser.rs). */
module Parser {
  import opened Types
  import opened RustAst

  datatype ClientMethod = ClientMethod(name: Ident, deprecated: bool, requestType: Type, responseType: Type)

  datatype ClientImpl = ClientImpl(name: Ident, methods: seq<ClientMethod>)

  datatype ClientModule = ClientModule(name: Ident, clients: seq<ClientImpl>)

  datatype ClientFile = ClientFile(fileModule: Ident, modules: seq<ClientModule>)

  // ---------- Selection ----------

  predicate IsClientModule(item: Item) { item.Mod? && EndsWith(item.name, "_client") }

  predicate IsNew(item: ImplItem) { item.Fn? && item.decl.name == "new" }

  predicate IsClientImpl(item: Item) {
    && item.Impl?
    && item.selfTy.PathType?
    && item.selfTy.path != []
    && EndsWith(item.selfTy.path[|item.selfTy.path| - 1].ident, "Client")
    && exists i :: 0 <= i < |item.items| && IsNew(item.items[i])
  }

  function FirstTrait(bounds: seq<Bound>): Option<seq<Segment>> {
    if bounds == [] then None
    else if bounds[0].TraitBound? then Some(bounds[0].path)
    else FirstTrait(bounds[1..])
  }

  predicate IsGrpcMethod(m: Method) {
    && |m.inputs| >= 2
    && m.inputs[0].Receiver?
    && m.inputs[1].Typed?
    && m.inputs[1].ty.ImplTrait?
    && match FirstTrait(m.inputs[1].ty.bounds)
       case None => false
       case Some(path) => |path| >= 2 && path[0].ident == "tonic" && path[1].ident == "IntoRequest"
  }

  predicate IsGrpcItem(item: ImplItem) { item.Fn? && IsGrpcMethod(item.decl) }

  // ---------- Extraction ----------

  /** The first generic argument of the last segment, if that segment is `ident` and the argument a
      type. */
  function LastArg(path: seq<Segment>, ident: Ident): Result<Type> {
    if path == [] then Err(UnexpectedStructure)
    else
      var last := path[|path| - 1];
      if last.ident == ident && last.args.Angle? && last.args.list != [] && last.args.list[0].TypeArg?
      then Ok(last.args.list[0].ty)
      else Err(UnexpectedStructure)
  }

  function IntoRequestType(ty: Type): Result<Type> {
    match ty
    case PathType(path) => LastArg(path, "IntoRequest")
    case ImplTrait(bounds) =>
      if bounds != [] && bounds[0].TraitBound? then LastArg(bounds[0].path, "IntoRequest")
      else Err(UnexpectedStructure)
    case OtherType(_) => Err(UnexpectedStructure)
  }

  function ResultSuccessType(output: ReturnType): Result<Type> {
    if output.Returns? && output.ty.PathType? then LastArg(output.ty.path, "Result")
    else Err(UnexpectedStructure)
  }

  function TonicResponseType(ty: Type): Result<Type> {
    if ty.PathType? then LastArg(ty.path, "Response") else Err(UnexpectedStructure)
  }

  /** `attr.path().get_ident() == "deprecated"` */
  predicate IsDeprecated(a: Attr) {
    !a.leadingColon && |a.path| == 1 && a.path[0] == Segment("deprecated", NoArgs)
  }

  function ParseMethod(m: Method): Result<ClientMethod> {
    if |m.inputs| < 2 || !m.inputs[1].Typed? then Err(UnexpectedStructure)
    else
      match IntoRequestType(m.inputs[1].ty)
      case Err(e) => Err(e)
      case Ok(request) =>
        match ResultSuccessType(m.output)
        case Err(e) => Err(e)
        case Ok(success) =>
          match TonicResponseType(success)
          case Err(e) => Err(e)
          case Ok(response) =>
            Ok(ClientMethod(m.name, exists i :: 0 <= i < |m.attrs| && IsDeprecated(m.attrs[i]), request, response))
  }

  function ParseItem(item: ImplItem): Result<ClientMethod> {
    if item.Fn? then ParseMethod(item.decl) else Err(UnexpectedStructure)
  }

  function ParseMethods(items: seq<ImplItem>): Result<seq<ClientMethod>> {
    Collect(ParseItem, Filter(IsGrpcItem, items))
  }

  function ParseImpl(item: Item): Result<ClientImpl> {
    if !(item.Impl? && item.selfTy.PathType? && item.selfTy.path != []) then Err(UnexpectedStructure)
    else
      match ParseMethods(item.items)
      case Err(e) => Err(e)
      case Ok(methods) => Ok(ClientImpl(item.selfTy.path[|item.selfTy.path| - 1].ident, methods))
  }

  function Contents(item: Item): seq<Item> {
    if item.Mod? && item.content.Some? then item.content.value else []
  }

  function ParseModule(item: Item): Result<ClientModule> {
    match Collect(ParseImpl, Filter(IsClientImpl, Contents(item)))
    case Err(e) => Err(e)
    case Ok(clients) => Ok(ClientModule(if item.Mod? then item.name else "", clients))
  }

  function ParseModules(file: File): Result<seq<ClientModule>> {
    Collect(ParseModule, Filter(IsClientModule, file.items))
  }

  // ---------- What is accepted, and what then fails ----------

  /** The path's last segment is `ident<t, ..>`. */
  ghost predicate EndsIn(path: seq<Segment>, ident: Ident, t: Type) {
    exists init: seq<Segment>, more: seq<GenericArg> :: path == init + [Segment(ident, Angle([TypeArg(t)] + more))]
  }

  /** The type extracted from a path is t exactly when the path reads `..ident<t, ..>`. */
  lemma LastArgIff(path: seq<Segment>, ident: Ident, t: Type)
    ensures LastArg(path, ident) == Ok(t) <==> EndsIn(path, ident, t)
  {
    if LastArg(path, ident) == Ok(t) {
      var n := |path| - 1;
      var list := path[n].args.list;
      assert list == [TypeArg(t)] + list[1..];
      assert path == path[..n] + [Segment(ident, Angle([TypeArg(t)] + list[1..]))];
    }
    if EndsIn(path, ident, t) {
      var init: seq<Segment>, more: seq<GenericArg> :|
        path == init + [Segment(ident, Angle([TypeArg(t)] + more))];
      assert path[|path| - 1] == Segment(ident, Angle([TypeArg(t)] + more));
    }
  }

  /** `k` is the first of the bounds that is a trait; its path begins `tonic::<ident>`. */
  ghost predicate AskedBy(bounds: seq<Bound>, k: nat, ident: Ident) {
    && k < |bounds| && bounds[k].TraitBound?
    && (forall j :: 0 <= j < k ==> bounds[j].OtherBound?)
    && |bounds[k].path| >= 2
    && bounds[k].path[0].ident == "tonic" && bounds[k].path[1].ident == ident
  }

  /** The first parameter after the receiver is an `impl` whose first trait begins `tonic::<ident>`. */
  ghost predicate Asks(m: Method, ident: Ident) {
    && |m.inputs| >= 2 && m.inputs[1].Typed? && m.inputs[1].ty.ImplTrait?
    && exists k :: AskedBy(m.inputs[1].ty.bounds, k, ident)
  }

  lemma {:induction false} FirstTraitAt(bounds: seq<Bound>, k: nat)
    requires k < |bounds| && bounds[k].TraitBound?
    requires forall j :: 0 <= j < k ==> bounds[j].OtherBound?
    ensures FirstTrait(bounds) == Some(bounds[k].path)
  {
    if k > 0 { FirstTraitAt(bounds[1..], k - 1); }
  }

  lemma {:induction false} FirstTraitFound(bounds: seq<Bound>) returns (k: nat)
    requires FirstTrait(bounds).Some?
    ensures k < |bounds| && bounds[k].TraitBound? && forall j :: 0 <= j < k ==> bounds[j].OtherBound?
  {
    if bounds[0].TraitBound? {
      k := 0;
    } else {
      k := FirstTraitFound(bounds[1..]);
      k := k + 1;
    }
  }

  /** A function is a gRPC method exactly when it has a receiver and then an `impl` parameter whose
      first trait, after any lifetimes, begins `tonic::IntoRequest`. */
  lemma AcceptedIff(m: Method)
    ensures IsGrpcMethod(m) <==> Asks(m, "IntoRequest") && m.inputs[0].Receiver?
  {
    if |m.inputs| >= 2 && m.inputs[1].Typed? && m.inputs[1].ty.ImplTrait? {
      var bounds := m.inputs[1].ty.bounds;
      if k :| AskedBy(bounds, k, "IntoRequest") { FirstTraitAt(bounds, k); }
      if FirstTrait(bounds).Some? {
        var k := FirstTraitFound(bounds);
        FirstTraitAt(bounds, k);
        assert IsGrpcMethod(m) ==> AskedBy(bounds, k, "IntoRequest");
      }
    }
  }

  /** Streaming requests are left aside: wherever such a function stands in an impl, the impl parses,
      or fails to, as if it were not there. */
  lemma StreamingIsSkipped(before: seq<ImplItem>, m: Method, after: seq<ImplItem>)
    requires Asks(m, "IntoStreamingRequest")
    ensures ParseMethods(before + [Fn(m)] + after) == ParseMethods(before + after)
  {
    var bounds := m.inputs[1].ty.bounds;
    var k :| AskedBy(bounds, k, "IntoStreamingRequest");
    FirstTraitAt(bounds, k);
    FilterNone(IsGrpcItem, [Fn(m)]);
    FilterConcat(IsGrpcItem, before, [Fn(m)]);
    FilterConcat(IsGrpcItem, before + [Fn(m)], after);
    FilterConcat(IsGrpcItem, before, after);
    assert Filter(IsGrpcItem, before) + [] == Filter(IsGrpcItem, before);
  }

  /** The request is declared `impl ..IntoRequest<request, ..> + ..`. */
  ghost predicate RequestShape(m: Method, request: Type) {
    && |m.inputs| >= 2 && m.inputs[1].Typed? && m.inputs[1].ty.ImplTrait?
    && m.inputs[1].ty.bounds != [] && m.inputs[1].ty.bounds[0].TraitBound?
    && EndsIn(m.inputs[1].ty.bounds[0].path, "IntoRequest", request)
  }

  /** The result is declared `..Result<..Response<response, ..>, ..>`. */
  ghost predicate ResponseShape(output: ReturnType, response: Type) {
    && output.Returns? && output.ty.PathType?
    && exists path :: EndsIn(output.ty.path, "Result", PathType(path)) && EndsIn(path, "Response", response)
  }

  ghost predicate MarkedDeprecated(m: Method) { Attr(false, [Segment("deprecated", NoArgs)]) in m.attrs }

  lemma ResponseIff(output: ReturnType, response: Type)
    ensures ResponseShape(output, response) <==>
            ResultSuccessType(output).Ok? && TonicResponseType(ResultSuccessType(output).value) == Ok(response)
  {
    if output.Returns? && output.ty.PathType? {
      var path := output.ty.path;
      if LastArg(path, "Result").Ok? {
        var success := LastArg(path, "Result").value;
        LastArgIff(path, "Result", success);
        if success.PathType? { LastArgIff(success.path, "Response", response); }
      }
      if ResponseShape(output, response) {
        var inner :| EndsIn(path, "Result", PathType(inner)) && EndsIn(inner, "Response", response);
        LastArgIff(path, "Result", PathType(inner));
        LastArgIff(inner, "Response", response);
      }
    }
  }

  /** What an accepted method parses to: its own name, the type its FIRST bound asks for (acceptance
      looks at the first bound that is a trait, and at the front of that path, not at its end), the
      type its result responds with, and whether it is marked deprecated. */
  lemma ParsesTo(m: Method, parsed: ClientMethod)
    requires IsGrpcMethod(m)
    ensures ParseMethod(m) == Ok(parsed) <==>
            && parsed.name == m.name
            && RequestShape(m, parsed.requestType)
            && ResponseShape(m.output, parsed.responseType)
            && (parsed.deprecated <==> MarkedDeprecated(m))
  {
    var bounds := m.inputs[1].ty.bounds;
    if bounds[0].TraitBound? { LastArgIff(bounds[0].path, "IntoRequest", parsed.requestType); }
    ResponseIff(m.output, parsed.responseType);
    if MarkedDeprecated(m) {
      var i :| 0 <= i < |m.attrs| && m.attrs[i] == Attr(false, [Segment("deprecated", NoArgs)]);
      assert IsDeprecated(m.attrs[i]);
    }
    if i :| 0 <= i < |m.attrs| && IsDeprecated(m.attrs[i]) {
      assert m.attrs[i] == Attr(false, [Segment("deprecated", NoArgs)]);
    }
  }

  /** The method's request and result are both declared in a shape types can be extracted from. */
  ghost predicate Extractable(m: Method) {
    (exists request :: RequestShape(m, request)) && (exists response :: ResponseShape(m.output, response))
  }

  /** An accepted method fails to parse, with the one error there is, exactly when its declaration has
      not that shape. */
  lemma ParsesIff(m: Method)
    requires IsGrpcMethod(m)
    ensures ParseMethod(m).Ok? <==> Extractable(m)
    ensures !Extractable(m) ==> ParseMethod(m) == Err(UnexpectedStructure)
  {
    if ParseMethod(m).Ok? { ParsesTo(m, ParseMethod(m).value); }
    if Extractable(m) {
      var request :| RequestShape(m, request);
      var response :| ResponseShape(m.output, response);
      ParsesTo(m, ClientMethod(m.name, MarkedDeprecated(m), request, response));
    }
  }

  /** A request declared as exactly `impl tonic::IntoRequest<T>` (further bounds may follow) is
      accepted and never the cause of a failure: the method's request type is T. */
  lemma PlainRequestYieldsItsType(m: Method, t: Type, more: seq<GenericArg>)
    requires |m.inputs| >= 2 && m.inputs[0].Receiver? && m.inputs[1].Typed? && m.inputs[1].ty.ImplTrait?
    requires m.inputs[1].ty.bounds != []
    requires m.inputs[1].ty.bounds[0]
             == TraitBound([Segment("tonic", NoArgs), Segment("IntoRequest", Angle([TypeArg(t)] + more))])
    ensures IsGrpcMethod(m)
    ensures ParseMethod(m).Ok? ==> ParseMethod(m).value.requestType == t
    ensures ParseMethod(m).Ok? <==> exists response :: ResponseShape(m.output, response)
  {
    var path := m.inputs[1].ty.bounds[0].path;
    assert ([TypeArg(t)] + more)[0] == TypeArg(t);
    LastArgIff(path, "IntoRequest", t);
    ParsesIff(m);
  }

  /** A method accepted for a later bound, behind a lifetime, is never parsed, whatever else it says. */
  lemma LifetimeFirstFails(m: Method)
    requires Asks(m, "IntoRequest") && m.inputs[0].Receiver? && m.inputs[1].ty.bounds[0].OtherBound?
    ensures IsGrpcMethod(m) && ParseMethod(m) == Err(UnexpectedStructure)
  {
    AcceptedIff(m);
    ParsesIff(m);
  }

  /** A parsed impl lists, in source order and each once, exactly the functions `is_grpc_method`
      accepts; it fails exactly when one of those cannot be parsed. */
  lemma MethodsExact(items: seq<ImplItem>) returns (idx: seq<nat>)
    ensures Selects(IsGrpcItem, items, idx)
    ensures ParseMethods(items).Ok? <==> forall j :: 0 <= j < |idx| ==> ParseMethod(items[idx[j]].decl).Ok?
    ensures ParseMethods(items).Ok? ==>
              && |ParseMethods(items).value| == |idx|
              && forall j :: 0 <= j < |idx| ==> ParseMethod(items[idx[j]].decl) == Ok(ParseMethods(items).value[j])
  {
    var found := Filter(IsGrpcItem, items);
    idx := FilterSelects(IsGrpcItem, items);
    CollectExact(ParseItem, found);
    if ParseMethods(items).Ok? {
      forall j | 0 <= j < |idx| ensures ParseMethod(items[idx[j]].decl).Ok? { assert found[j] in found; }
    } else {
      var x :| x in found && !ParseItem(x).Ok?;
      var j :| 0 <= j < |found| && found[j] == x;
      assert !ParseMethod(items[idx[j]].decl).Ok?;
    }
  }

  // ---------- Which modules and impls are taken ----------

  lemma EndsWithIff(s: string, suffix: string)
    ensures EndsWith(s, suffix) <==> exists stem: string :: s == stem + suffix
  {
    if EndsWith(s, suffix) { assert s == s[..|s| - |suffix|] + suffix; }
    if stem: string :| s == stem + suffix { assert s[|s| - |suffix|..] == suffix; }
  }

  /** A module is searched for clients exactly when it is named `.._client`. */
  lemma ClientModuleIff(item: Item)
    ensures IsClientModule(item) <==> item.Mod? && exists stem: string :: item.name == stem + "_client"
  {
    if item.Mod? { EndsWithIff(item.name, "_client"); }
  }

  /** The impl is of a type whose path ends in an identifier `..Client`. */
  ghost predicate ForClient(item: Item) {
    && item.Impl? && item.selfTy.PathType?
    && exists init: seq<Segment>, stem: string, args: Args ::
         item.selfTy.path == init + [Segment(stem + "Client", args)]
  }

  ghost predicate HasNew(item: Item) {
    item.Impl? && exists m: Method :: Fn(m) in item.items && m.name == "new"
  }

  /** An impl contributes a client exactly when its type is a path, the last identifier of that path
      ends in "Client", and one of its functions is named "new". */
  lemma ClientImplIff(item: Item)
    ensures IsClientImpl(item) <==> ForClient(item) && HasNew(item)
  {
    if item.Impl? {
      if m: Method :| Fn(m) in item.items && m.name == "new" {
        var i :| 0 <= i < |item.items| && item.items[i] == Fn(m);
        assert IsNew(item.items[i]);
      }
      if i :| 0 <= i < |item.items| && IsNew(item.items[i]) { assert Fn(item.items[i].decl) in item.items; }
      if item.selfTy.PathType? && item.selfTy.path != [] { LastIdent(item.selfTy.path); }
      assert ForClient(item) ==> item.selfTy.path != [];
    }
  }

  lemma LastIdent(path: seq<Segment>)
    requires path != []
    ensures EndsWith(path[|path| - 1].ident, "Client") <==>
            exists init: seq<Segment>, stem: string, args: Args :: path == init + [Segment(stem + "Client", args)]
  {
    var n := |path| - 1;
    var last := path[n];
    EndsWithIff(last.ident, "Client");
    if stem: string :| last.ident == stem + "Client" {
      assert path == path[..n] + [Segment(stem + "Client", last.args)];
    }
    if init: seq<Segment>, stem: string, args: Args :| path == init + [Segment(stem + "Client", args)] {
      assert last == Segment(stem + "Client", args);
    }
  }

  /** An impl without a function named "new", as the one that only connects, changes nothing, wherever it
      stands in the module; nor does one of another type, or anything that is no impl. */
  lemma OtherItemSkipped(name: Ident, before: seq<Item>, item: Item, after: seq<Item>)
    requires !HasNew(item) || !ForClient(item)
    ensures ParseModule(Mod(name, Some(before + [item] + after))) == ParseModule(Mod(name, Some(before + after)))
  {
    ClientImplIff(item);
    FilterNone(IsClientImpl, [item]);
    FilterConcat(IsClientImpl, before, [item]);
    FilterConcat(IsClientImpl, before + [item], after);
    FilterConcat(IsClientImpl, before, after);
    assert Filter(IsClientImpl, before) + [] == Filter(IsClientImpl, before);
  }

  /** And what is no module named `.._client` changes nothing in a file. */
  lemma OtherModuleSkipped(before: seq<Item>, item: Item, after: seq<Item>)
    requires !item.Mod? || forall stem: string :: item.name != stem + "_client"
    ensures ParseModules(File(before + [item] + after)) == ParseModules(File(before + after))
  {
    ClientModuleIff(item);
    FilterNone(IsClientModule, [item]);
    FilterConcat(IsClientModule, before, [item]);
    FilterConcat(IsClientModule, before + [item], after);
    FilterConcat(IsClientModule, before, after);
    assert Filter(IsClientModule, before) + [] == Filter(IsClientModule, before);
  }

  /** The function is one the parser takes up, somewhere in the file. */
  ghost predicate Taken(file: File, mod: Item, imp: Item, item: ImplItem) {
    && mod in file.items && mod.Mod? && (exists stem: string :: mod.name == stem + "_client")
    && mod.content.Some? && imp in mod.content.value && ForClient(imp) && HasNew(imp)
    && item in imp.items && item.Fn? && Asks(item.decl, "IntoRequest") && item.decl.inputs[0].Receiver?
  }

  lemma TakenIff(file: File, mod: Item, imp: Item, item: ImplItem)
    ensures Taken(file, mod, imp, item) <==>
            && mod in file.items && IsClientModule(mod)
            && imp in Contents(mod) && IsClientImpl(imp)
            && item in imp.items && IsGrpcItem(item)
  {
    ClientModuleIff(mod);
    ClientImplIff(imp);
    if item.Fn? { AcceptedIff(item.decl); }
  }

  /** A file parses exactly when every accepted function of every `..Client` impl with a `new`, in
      every `.._client` module, declares its request and its result in the extractable shape. */
  lemma FileParsesIff(file: File)
    ensures ParseModules(file).Ok? <==>
            forall mod, imp, item :: Taken(file, mod, imp, item) ==> Extractable(item.decl)
  {
    var mods := Filter(IsClientModule, file.items);
    CollectExact(ParseModule, mods);
    FilterMembers(IsClientModule, file.items);
    forall mod, imp, item | Taken(file, mod, imp, item) ensures mod in mods { TakenIff(file, mod, imp, item); }
    forall mod | mod in mods
      ensures ParseModule(mod).Ok? <==> forall imp, item :: Taken(file, mod, imp, item) ==> Extractable(item.decl)
    {
      var imps := Filter(IsClientImpl, Contents(mod));
      CollectExact(ParseImpl, imps);
      FilterMembers(IsClientImpl, Contents(mod));
      forall imp, item | Taken(file, mod, imp, item) ensures imp in imps { TakenIff(file, mod, imp, item); }
      forall imp | imp in imps
        ensures ParseImpl(imp).Ok? <==> forall item :: Taken(file, mod, imp, item) ==> Extractable(item.decl)
      {
        ImplParsesIff(imp);
        forall item
          ensures Taken(file, mod, imp, item) <==> item in imp.items && IsGrpcItem(item)
        {
          TakenIff(file, mod, imp, item);
        }
      }
    }
  }

  lemma ImplParsesIff(imp: Item)
    requires IsClientImpl(imp)
    ensures ParseImpl(imp).Ok? <==> forall item :: item in imp.items && IsGrpcItem(item) ==> Extractable(item.decl)
  {
    var found := Filter(IsGrpcItem, imp.items);
    CollectExact(ParseItem, found);
    FilterMembers(IsGrpcItem, imp.items);
    forall item | item in found ensures ParseItem(item).Ok? <==> Extractable(item.decl) { ParsesIff(item.decl); }
  }

  /** And then its modules and clients are the selected ones, in source order. */
  lemma FileStructure(file: File) returns (idx: seq<nat>)
    requires ParseModules(file).Ok?
    ensures Selects(IsClientModule, file.items, idx)
    ensures |ParseModules(file).value| == |idx|
    ensures forall j :: 0 <= j < |idx| ==>
              ClientsOf(file.items[idx[j]], ParseModules(file).value[j])
  {
    var mods := Filter(IsClientModule, file.items);
    idx := FilterSelects(IsClientModule, file.items);
    CollectExact(ParseModule, mods);
    forall j | 0 <= j < |idx| ensures ClientsOf(file.items[idx[j]], ParseModules(file).value[j]) {
      assert ParseModule(mods[j]) == Ok(ParseModules(file).value[j]);
      ModuleStructure(mods[j], ParseModules(file).value[j]);
    }
  }

  /** `parsed` lists one client per selected impl of `mod`, in order, under the impl's type name. */
  ghost predicate ClientsOf(mod: Item, parsed: ClientModule) {
    && mod.Mod? && parsed.name == mod.name
    && exists idx ::
         && Selects(IsClientImpl, Contents(mod), idx)
         && |parsed.clients| == |idx|
         && forall j :: 0 <= j < |idx| ==> ClientOf(Contents(mod)[idx[j]], parsed.clients[j])
  }

  /** `parsed` is the impl under the last identifier of its type, with its accepted functions. */
  ghost predicate ClientOf(imp: Item, parsed: ClientImpl) {
    && imp.Impl? && imp.selfTy.PathType? && imp.selfTy.path != []
    && parsed.name == imp.selfTy.path[|imp.selfTy.path| - 1].ident
    && ParseMethods(imp.items) == Ok(parsed.methods)
  }

  lemma ModuleStructure(mod: Item, parsed: ClientModule)
    requires mod.Mod? && ParseModule(mod) == Ok(parsed)
    ensures ClientsOf(mod, parsed)
  {
    var imps := Filter(IsClientImpl, Contents(mod));
    var idx := FilterSelects(IsClientImpl, Contents(mod));
    CollectExact(ParseImpl, imps);
  }
}
