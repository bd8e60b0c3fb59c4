/** Building pooled clients for the files of a directory (lib.rs). */
module Builder {
  import opened Types
  import opened RustAst
  import opened Parser
  import opened Generator

  datatype FileName = FileName(stem: string, ext: string)

  /** What reading and parsing a directory entry yields. Printing and reparsing a generated file is
      taken to give the same syntax tree. */
  datatype Content = Code(file: File) | Garbled | Folder

  type Files = map<FileName, Content>

  predicate IsKeyword(s: string) {
    s in {
      "abstract", "as", "async", "await", "become", "box", "break", "const", "continue", "crate", "do",
      "dyn", "else", "enum", "extern", "false", "final", "fn", "for", "if", "impl", "in", "let", "loop",
      "macro", "match", "mod", "move", "mut", "override", "priv", "pub", "ref", "return", "Self", "self",
      "static", "struct", "super", "trait", "true", "try", "type", "typeof", "unsafe", "unsized", "use",
      "virtual", "where", "while", "yield" }
  }

  predicate IsLetter(c: char) { 'a' <= c <= 'z' || 'A' <= c <= 'Z' || c == '_' }

  predicate IsDigit(c: char) { '0' <= c <= '9' }

  /** `syn::parse_str::<Ident>` succeeds (on ASCII names). */
  predicate IsIdent(s: string) {
    && s != [] && s != "_" && !IsKeyword(s)
    && IsLetter(s[0])
    && forall i :: 0 <= i < |s| ==> IsLetter(s[i]) || IsDigit(s[i])
  }

  predicate IsRs(ext: string) { |ext| == 2 && ext[0] in {'r', 'R'} && ext[1] in {'s', 'S'} }

  /** The file a service name stands for: `with_extension("rs")`. */
  function SourceName(service: FileName): FileName { FileName(service.stem, "rs") }

  function OutputName(source: FileName): FileName { FileName(source.stem + "_pool", "rs") }

  /** `parse_grpc_client_file` */
  function ParseClientFile(files: Files, source: FileName): Result<ClientFile> {
    if source !in files || files[source].Folder? then Err(IoError)
    else if !IsIdent(source.stem) || files[source].Garbled? then Err(SynError)
    else
      match ParseModules(files[source].file)
      case Err(e) => Err(e)
      case Ok(modules) => Ok(ClientFile(source.stem, modules))
  }

  predicate NoClients(modules: seq<ClientModule>) { forall m :: m in modules ==> m.clients == [] }

  /** The generated file for a service, or the error (or panic) that ends its build. */
  function Output(files: Files, source: FileName): Result<File> {
    match ParseClientFile(files, source)
    case Err(e) => Err(e)
    case Ok(structure) =>
      if NoClients(structure.modules) then Err(GrpcClientNotFound) else Generate(structure)
  }

  function BuildOne(files: Files, service: FileName): (Files, Option<Error>) {
    var source := SourceName(service);
    match Output(files, source)
    case Err(e) => (files, Some(e))
    case Ok(file) =>
      var output := OutputName(source);
      if output in files && files[output].Folder? then (files, Some(Panicked))  // `fs::write(..).unwrap()`
      else (files[output := Code(file)], None)
  }

  /** One directory entry of `build_all_clients`. */
  function BuildEntry(files: Files, entry: FileName): (Files, Option<Error>) {
    if entry !in files then (files, Some(IoError))
    else if files[entry].Folder? || !IsRs(entry.ext) then (files, None)
    else
      var (after, error) := BuildOne(files, entry);
      (after, if error == Some(GrpcClientNotFound) then None else error)
  }

  function BuildEntries(files: Files, listing: seq<FileName>): (Files, Option<Error>) {
    if listing == [] then (files, None)
    else
      var (before, error) := BuildEntries(files, listing[..|listing| - 1]);
      if error.Some? then (before, error) else BuildEntry(before, listing[|listing| - 1])
  }

  function BuildServices(files: Files, services: seq<FileName>): (Files, Option<Error>) {
    if services == [] then (files, None)
    else
      var (before, error) := BuildServices(files, services[..|services| - 1]);
      if error.Some? then (before, error) else BuildOne(before, services[|services| - 1])
  }

  class Directory {
    var files: Files

    constructor (files: Files)
      ensures this.files == files
    {
      this.files := files;
    }
  }

  class SodaPoolBuilder {
    var dir: Option<Directory>

    constructor ()
      ensures dir == None
    {
      dir := None;
    }

    method SetDir(d: Directory)
      modifies this
      ensures dir == Some(d)
    {
      dir := Some(d);
    }

    /** `build_clients`: files written before an error stay written. */
    method BuildClients(services: seq<FileName>) returns (error: Option<Error>)
      modifies if dir.Some? then {dir.value} else {}
      ensures dir.None? ==> error == Some(MissingConfiguration)
      ensures dir.Some? ==> (dir.value.files, error) == BuildServices(old(dir.value.files), services)
    {
      if dir.None? { return Some(MissingConfiguration); }
      var d := dir.value;
      var i := 0;
      error := None;
      while i < |services| && error.None?
        invariant 0 <= i <= |services|
        invariant (d.files, error) == BuildServices(old(d.files), services[..i])
      {
        ServicesSnoc(old(d.files), services, i);
        error := BuildService(d, services[i]);
        i := i + 1;
      }
      StopsAtError(old(d.files), services, i);
      assert services[..|services|] == services;
    }

    /** The body of `try_for_each`. */
    method BuildService(d: Directory, service: FileName) returns (error: Option<Error>)
      modifies d
      ensures (d.files, error) == BuildOne(old(d.files), service)
    {
      var source := SourceName(service);
      var structure := ParseClientFile(d.files, source);
      if structure.Err? { return Some(structure.error); }
      if NoClients(structure.value.modules) { return Some(GrpcClientNotFound); }
      var file := Generate(structure.value);
      if file.Err? { return Some(file.error); }
      var output := OutputName(source);
      if output in d.files && d.files[output].Folder? { return Some(Panicked); }
      d.files := d.files[output := Code(file.value)];
      return None;
    }

    /** `build_all_clients`, for any order in which the directory's entries may be listed. */
    method BuildAllClients(listing: seq<FileName>) returns (error: Option<Error>)
      modifies if dir.Some? then {dir.value} else {}
      ensures dir.None? ==> error == Some(MissingConfiguration)
      ensures dir.Some? ==> (dir.value.files, error) == BuildEntries(old(dir.value.files), listing)
    {
      if dir.None? { return Some(MissingConfiguration); }
      var d := dir.value;
      var i := 0;
      error := None;
      while i < |listing| && error.None?
        invariant 0 <= i <= |listing|
        invariant (d.files, error) == BuildEntries(old(d.files), listing[..i])
      {
        assert listing[..i + 1][..i] == listing[..i];
        var entry := listing[i];
        i := i + 1;
        if entry !in d.files {
          error := Some(IoError);
        } else if !d.files[entry].Folder? && IsRs(entry.ext) {
          ghost var before := d.files;
          error := BuildClients([entry]);
          OneService(before, entry);
          if error == Some(GrpcClientNotFound) { error := None; }
        }
      }
      EntriesStopAtError(old(d.files), listing, i);
      assert listing[..|listing|] == listing;
    }
  }

  lemma ServicesSnoc(files: Files, services: seq<FileName>, i: nat)
    requires i < |services| && BuildServices(files, services[..i]).1.None?
    ensures BuildServices(files, services[..i + 1]) == BuildOne(BuildServices(files, services[..i]).0, services[i])
  {
    assert services[..i + 1][..i] == services[..i];
  }

  lemma OneService(files: Files, service: FileName)
    ensures BuildServices(files, [service]) == BuildOne(files, service)
  {
    assert [service][..0] == [];
  }

  lemma {:induction false} StopsAtError(files: Files, services: seq<FileName>, i: nat)
    requires i <= |services| && (i < |services| ==> BuildServices(files, services[..i]).1.Some?)
    ensures BuildServices(files, services) == BuildServices(files, services[..i])
  {
    if i == |services| {
      assert services[..i] == services;
    } else {
      assert services[..|services| - 1][..i] == services[..i];
      StopsAtError(files, services[..|services| - 1], i);
    }
  }

  lemma {:induction false} EntriesStopAtError(files: Files, listing: seq<FileName>, i: nat)
    requires i <= |listing| && (i < |listing| ==> BuildEntries(files, listing[..i]).1.Some?)
    ensures BuildEntries(files, listing) == BuildEntries(files, listing[..i])
  {
    if i == |listing| {
      assert listing[..i] == listing;
    } else {
      assert listing[..|listing| - 1][..i] == listing[..i];
      EntriesStopAtError(files, listing[..|listing| - 1], i);
    }
  }

  // ---------- Which errors end a build ----------

  /** What comes of a source, by what the directory holds under its name: nothing to read; a name that
      is no identifier, or text that is no Rust; an accepted method without extractable types; no
      client; a raw name; or else the file generated from its client modules. */
  lemma OutputBySource(files: Files, source: FileName)
    ensures Output(files, source) ==
            if source !in files || files[source].Folder? then Err(IoError)
            else if !IsIdent(source.stem) || files[source].Garbled? then Err(SynError)
            else if ParseModules(files[source].file).Err? then Err(UnexpectedStructure)
            else
              var modules := ParseModules(files[source].file).value;
              if forall m :: m in modules ==> m.clients == [] then Err(GrpcClientNotFound)
              else if exists m, c :: m in modules && c in m.clients
                                     && (IsRaw(c.name) || exists d :: d in c.methods && IsRaw(d.name))
              then Err(Panicked)
              else Ok(GenFile(ClientFile(source.stem, modules)))
  {
    if source in files && files[source].Code? {
      OneParseError(files[source].file);
      if ParseModules(files[source].file).Ok? {
        GeneratesIff(ClientFile(source.stem, ParseModules(files[source].file).value));
      }
    }
  }

  lemma OneParseError(file: File)
    ensures ParseModules(file).Err? ==> ParseModules(file) == Err(UnexpectedStructure)
  {
    var mods := Filter(IsClientModule, file.items);
    forall mod | mod in mods ensures ParseModule(mod).Err? ==> ParseModule(mod) == Err(UnexpectedStructure) {
      ModuleError(mod);
    }
    CollectError(ParseModule, mods, UnexpectedStructure);
  }

  lemma ModuleError(mod: Item)
    ensures ParseModule(mod).Err? ==> ParseModule(mod) == Err(UnexpectedStructure)
  {
    var imps := Filter(IsClientImpl, Contents(mod));
    forall imp | imp in imps ensures ParseImpl(imp).Err? ==> ParseImpl(imp) == Err(UnexpectedStructure) {
      if imp.Impl? { CollectError(ParseItem, Filter(IsGrpcItem, imp.items), UnexpectedStructure); }
    }
    CollectError(ParseImpl, imps, UnexpectedStructure);
  }

  /** A source named with a keyword, an underscore alone, a leading digit or a dash cannot be built: its
      name is no identifier. */
  lemma NoIdentNoModule(files: Files, source: FileName)
    requires source in files && !files[source].Folder?
    requires || source.stem in {"", "_", "type", "mod", "fn", "self", "crate", "async", "abstract", "try"}
             || (source.stem != "" && '0' <= source.stem[0] <= '9') || '-' in source.stem
    ensures Output(files, source) == Err(SynError)
  {
    if '-' in source.stem {
      var i :| 0 <= i < |source.stem| && source.stem[i] == '-';
    }
  }

  /** `eq_ignore_ascii_case("rs")` */
  lemma IsRsIff(ext: string)
    ensures IsRs(ext) <==> ext == "rs" || ext == "Rs" || ext == "rS" || ext == "RS"
  {
    if |ext| == 2 { assert ext == [ext[0], ext[1]]; }
  }

  /** The entry ends a pass over the directory, with this error. */
  ghost predicate EndsPass(files: Files, entry: FileName, error: Error) {
    if entry !in files then error == IoError
    else
      && !files[entry].Folder? && IsRs(entry.ext)
      && var source := SourceName(entry);
         || (Output(files, source) == Err(error) && error != GrpcClientNotFound)
         || (Output(files, source).Ok? && OutputName(source) in files && files[OutputName(source)].Folder?
             && error == Panicked)
  }

  /** A pass over any directory, in any listing, ends with the error of the first entry that ends it,
      leaving what the entries before it have written. */
  lemma PassStopsAt(files: Files, listing: seq<FileName>, n: nat, error: Error)
    requires n < |listing| && BuildEntries(files, listing[..n]).1 == None
    requires EndsPass(BuildEntries(files, listing[..n]).0, listing[n], error)
    ensures BuildEntries(files, listing) == (BuildEntries(files, listing[..n]).0, Some(error))
  {
    assert listing[..n + 1][..n] == listing[..n];
    EntriesStopAtError(files, listing, n + 1);
  }

  /** A pass succeeds exactly when it meets no such entry. */
  lemma {:induction false} PassSucceedsIff(files: Files, listing: seq<FileName>)
    ensures BuildEntries(files, listing).1 == None <==>
            forall n, error :: 0 <= n < |listing| && BuildEntries(files, listing[..n]).1 == None ==>
              !EndsPass(BuildEntries(files, listing[..n]).0, listing[n], error)
  {
    if BuildEntries(files, listing).1 == None {
      forall n, error | 0 <= n < |listing| && BuildEntries(files, listing[..n]).1 == None
        ensures !EndsPass(BuildEntries(files, listing[..n]).0, listing[n], error)
      {
        if EndsPass(BuildEntries(files, listing[..n]).0, listing[n], error) { PassStopsAt(files, listing, n, error); }
      }
    } else {
      var n, error := FirstToEnd(files, listing);
      assert EndsPass(BuildEntries(files, listing[..n]).0, listing[n], error);
    }
  }

  lemma {:induction false} FirstToEnd(files: Files, listing: seq<FileName>) returns (n: nat, error: Error)
    requires BuildEntries(files, listing).1 != None
    ensures n < |listing| && BuildEntries(files, listing[..n]).1 == None
    ensures EndsPass(BuildEntries(files, listing[..n]).0, listing[n], error)
  {
    var m := |listing| - 1;
    if BuildEntries(files, listing[..m]).1 == None {
      n, error := m, BuildEntries(files, listing).1.value;
    } else {
      n, error := FirstToEnd(files, listing[..m]);
      assert listing[..m][..n] == listing[..n];
    }
  }

  /** Of the services named to `build_clients`, the first that cannot be built ends it, with its error;
      here a source without clients is one of those. */
  lemma ServicesStopAt(files: Files, services: seq<FileName>, n: nat)
    requires n < |services| && BuildServices(files, services[..n]).1 == None
    requires Output(BuildServices(files, services[..n]).0, SourceName(services[n])).Err?
    ensures var (before, _) := BuildServices(files, services[..n]);
            BuildServices(files, services) == (before, Some(Output(before, SourceName(services[n])).error))
  {
    ServicesSnoc(files, services, n);
    StopsAtError(files, services, n + 1);
  }

  /** Otherwise each service gets the file generated for it as the directory then is, unless a folder
      has its name. */
  lemma ServiceWritten(files: Files, services: seq<FileName>, n: nat)
    requires n < |services| && BuildServices(files, services[..n]).1 == None
    requires Output(BuildServices(files, services[..n]).0, SourceName(services[n])).Ok?
    ensures var (before, _) := BuildServices(files, services[..n]);
            var source := SourceName(services[n]);
            var output := FileName(source.stem + "_pool", "rs");
            BuildServices(files, services[..n + 1])
            == if output in before && before[output].Folder? then (before, Some(Panicked))
               else (before[output := Code(Output(before, source).value)], None)
  {
    ServicesSnoc(files, services, n);
  }

  // ---------- A whole pass ----------

  /** A source whose build writes a file. */
  predicate Bearing(files: Files, source: FileName) { Output(files, source).Ok? }

  predicate RsEntry(files: Files, name: FileName) {
    name in files && !files[name].Folder? && IsRs(name.ext)
  }

  /** Every Rust file can be built or skipped, and no file that bears clients is itself named like
      the output of another, nor is such an output's name taken by a folder. */
  predicate Clean(files: Files) {
    && (forall name :: name in files && RsEntry(files, name) && !Writes(files, name) ==>
          Output(files, SourceName(name)) == Err(GrpcClientNotFound))
    && (forall name :: name in files && Writes(files, name) ==>
          && !Bearing(files, OutputName(SourceName(name)))
          && !(OutputName(SourceName(name)) in files && files[OutputName(SourceName(name))].Folder?))
  }

  /** Every entry listed is there when it is listed, be it from the start or written earlier in the
      pass, and everything there from the start is listed. */
  predicate Listing(files: Files, listing: seq<FileName>) {
    && (forall name :: name in files ==> name in listing)
    && Live(files, listing)
  }

  predicate WrittenBefore(files: Files, listing: seq<FileName>, i: nat)
    requires i < |listing|
  {
    exists j :: 0 <= j < i && Writes(files, listing[j]) && OutputName(SourceName(listing[j])) == listing[i]
  }

  predicate Writes(files: Files, entry: FileName) { RsEntry(files, entry) && Bearing(files, SourceName(entry)) }

  /** The files a pass writes. */
  function Written(files: Files): set<FileName> {
    set entry | entry in files && Writes(files, entry) :: OutputName(SourceName(entry))
  }

  function SourceOf(output: FileName): FileName
    requires |output.stem| >= 5
  {
    FileName(output.stem[..|output.stem| - 5], "rs")
  }

  /** `files` with the entries of `outs` in `done` written over it. */
  function Overlay(files: Files, outs: Files, done: set<FileName>): Files
    requires done <= outs.Keys
  {
    files + map output | output in done :: outs[output]
  }

  lemma OverlayOneMore(files: Files, outs: Files, done: set<FileName>, output: FileName)
    requires done <= outs.Keys && output in outs
    ensures Overlay(files, outs, done)[output := outs[output]] == Overlay(files, outs, done + {output})
  {}

  lemma OverlayTwice(files: Files, outs: Files)
    ensures Overlay(Overlay(files, outs, outs.Keys), outs, outs.Keys) == Overlay(files, outs, outs.Keys)
  {}

  function WrittenContent(files: Files, output: FileName): Content
    requires output in Written(files)
  {
    WrittenHasSource(files, output);
    Code(Output(files, SourceOf(output)).value)
  }

  function Outputs(files: Files): Files {
    map output | output in Written(files) :: WrittenContent(files, output)
  }

  /** The directory with the outputs in `done` written. */
  function With(files: Files, done: set<FileName>): Files
    requires done <= Written(files)
  {
    Overlay(files, Outputs(files), done)
  }

  lemma WrittenHasSource(files: Files, output: FileName)
    requires output in Written(files)
    ensures |output.stem| >= 5 && OutputName(SourceOf(output)) == output
    ensures Bearing(files, SourceOf(output))
  {
    var entry :| entry in files && Writes(files, entry) && OutputName(SourceName(entry)) == output;
    SourceOfOutput(SourceName(entry));
  }

  lemma SourceOfOutput(source: FileName)
    requires source.ext == "rs"
    ensures |OutputName(source).stem| >= 5 && SourceOf(OutputName(source)) == source
  {
    var stem := source.stem + "_pool";
    assert stem[..|stem| - 5] == source.stem;
  }

  lemma PoolStemIsIdent(stem: string)
    requires IsIdent(stem)
    ensures IsIdent(stem + "_pool")
  {
    var s := stem + "_pool";
    NoKeywordEndsInOl(s);
  }

  lemma NoKeywordEndsInOl(s: string)
    requires |s| > 1 && s[|s| - 1] == 'l' && s[|s| - 2] == 'o'
    ensures !IsKeyword(s)
  {}

  /** A file written by the pass builds to "no clients found". */
  lemma OutputHasNoClients(files: Files, source: FileName, file: File)
    requires Output(files, source) == Ok(file)
    ensures ParseModules(file).Ok? && NoClients(ParseModules(file).value)
  {
    var structure := ParseClientFile(files, source).value;
    ParsedModuleNames(files[source].file);
    GeneratedFileParses(structure);
    EmptiedHasNoClients(structure.modules);
  }

  lemma {:induction false} EmptiedHasNoClients(ms: seq<ClientModule>)
    ensures NoClients(Emptied(ms))
  {
    if ms != [] { EmptiedHasNoClients(ms[..|ms| - 1]); }
  }

  lemma BearingStem(files: Files, source: FileName)
    requires Bearing(files, source)
    ensures IsIdent(source.stem) && source in files
  {}

  lemma OutputReadsSourceOnly(files: Files, later: Files, source: FileName)
    requires source in files <==> source in later
    requires source in files ==> files[source] == later[source]
    ensures Output(files, source) == Output(later, source)
  {}

  lemma NoClientsToBuild(files: Files, source: FileName, file: File)
    requires source in files && files[source] == Code(file) && IsIdent(source.stem)
    requires ParseModules(file).Ok? && NoClients(ParseModules(file).value)
    ensures Output(files, source) == Err(GrpcClientNotFound)
  {}

  /** What a source builds to depends on that source alone; on a written output it is "no clients
      found", and on any other file what it was before. */
  lemma OutputInPass(files: Files, done: set<FileName>, source: FileName)
    requires done <= Written(files)
    ensures source in done ==> Output(With(files, done), source) == Err(GrpcClientNotFound)
    ensures source !in done ==> Output(With(files, done), source) == Output(files, source)
  {
    var now := With(files, done);
    if source in done {
      var from := SourceOf(source);
      WrittenHasSource(files, source);
      BearingStem(files, from);
      PoolStemIsIdent(from.stem);
      OutputHasNoClients(files, from, Output(files, from).value);
      NoClientsToBuild(now, source, Output(files, from).value);
    } else {
      OutputReadsSourceOnly(files, now, source);
    }
  }

  /** What building an entry adds to the outputs. */
  function Adds(files: Files, entry: FileName): set<FileName> {
    if entry in files && Writes(files, entry) then {OutputName(SourceName(entry))} else {}
  }

  lemma OutputEntryInPass(files: Files, done: set<FileName>, entry: FileName)
    requires Clean(files) && done <= Written(files) && entry in done
    ensures Adds(files, entry) == {} && BuildEntry(With(files, done), entry) == (With(files, done), None)
  {
    WrittenHasSource(files, entry);
    assert SourceName(entry) == entry;
    NotWrittenOver(files, entry);
    OutputInPass(files, done, entry);
  }

  lemma BuildsEntry(files: Files, entry: FileName)
    requires RsEntry(files, entry) && Bearing(files, SourceName(entry))
    requires OutputName(SourceName(entry)) in files ==> !files[OutputName(SourceName(entry))].Folder?
    ensures BuildEntry(files, entry)
            == (files[OutputName(SourceName(entry)) := Code(Output(files, SourceName(entry)).value)], None)
  {}

  lemma WritingEntryInPass(files: Files, done: set<FileName>, entry: FileName)
    requires Clean(files) && done <= Written(files) && entry in files && Writes(files, entry) && entry !in done
    ensures Adds(files, entry) <= Written(files)
    ensures BuildEntry(With(files, done), entry) == (With(files, done + Adds(files, entry)), None)
  {
    var now, source := With(files, done), SourceName(entry);
    var output := OutputName(source);
    assert output in Written(files);
    NotWrittenOver(files, output);
    if source in done { NotWrittenOver(files, source); }
    OutputInPass(files, done, source);
    SourceOfOutput(source);
    OverlayOneMore(files, Outputs(files), done, output);
    BuildsEntry(now, entry);
  }

  /** One entry, in the middle of a pass. */
  lemma EntryInPass(files: Files, done: set<FileName>, entry: FileName)
    requires Clean(files) && done <= Written(files) && entry in With(files, done)
    ensures Adds(files, entry) <= Written(files)
    ensures BuildEntry(With(files, done), entry) == (With(files, done + Adds(files, entry)), None)
  {
    if entry in done {
      OutputEntryInPass(files, done, entry);
      assert done + {} == done;
    } else if entry in files && Writes(files, entry) {
      WritingEntryInPass(files, done, entry);
    } else {
      OutputInPass(files, done, SourceName(entry));
      assert done + {} == done;
    }
  }

  /** No written name is that of a source that bears clients, or of a folder. */
  lemma NotWrittenOver(files: Files, output: FileName)
    requires Clean(files) && output in Written(files)
    ensures !Bearing(files, output) && !(output in files && files[output].Folder?)
  {
    var entry :| entry in files && Writes(files, entry) && OutputName(SourceName(entry)) == output;
  }

  /** The outputs of the entries listed so far. */
  function Done(files: Files, listing: seq<FileName>): set<FileName> {
    set entry | entry in listing && entry in files && Writes(files, entry) :: OutputName(SourceName(entry))
  }

  predicate Live(files: Files, listing: seq<FileName>) {
    forall i :: 0 <= i < |listing| ==> listing[i] in files || WrittenBefore(files, listing, i)
  }

  lemma LivePrefix(files: Files, listing: seq<FileName>, n: nat)
    requires Live(files, listing) && n < |listing|
    ensures Live(files, listing[..n])
    ensures listing[n] in files || listing[n] in Done(files, listing[..n])
  {
    var before := listing[..n];
    forall i | 0 <= i <= n && listing[i] !in files
      ensures exists j :: 0 <= j < i && before[j] in files && Writes(files, before[j])
                          && OutputName(SourceName(before[j])) == listing[i]
    {
      assert WrittenBefore(files, listing, i);
      var j :| 0 <= j < i && Writes(files, listing[j]) && OutputName(SourceName(listing[j])) == listing[i];
      assert before[j] == listing[j];
    }
  }

  lemma DoneSnoc(files: Files, listing: seq<FileName>, n: nat)
    requires n < |listing|
    ensures Done(files, listing[..n + 1]) == Done(files, listing[..n]) + Adds(files, listing[n])
  {
    assert listing[..n + 1] == listing[..n] + [listing[n]];
  }

  lemma {:induction false} Pass(files: Files, listing: seq<FileName>)
    requires Clean(files) && Live(files, listing)
    ensures Done(files, listing) <= Written(files)
    ensures BuildEntries(files, listing) == (With(files, Done(files, listing)), None)
  {
    if listing == [] {
      assert With(files, {}) == files;
    } else {
      var n := |listing| - 1;
      LivePrefix(files, listing, n);
      Pass(files, listing[..n]);
      EntryInPass(files, Done(files, listing[..n]), listing[n]);
      DoneSnoc(files, listing, n);
      assert listing[..n + 1] == listing;
    }
  }

  /** The directory after a pass over a clean one. */
  function Built(files: Files): Files { With(files, Written(files)) }

  lemma OutputIsGenerated(files: Files, source: FileName)
    requires Bearing(files, source)
    ensures source in files && files[source].Code? && ParseModules(files[source].file).Ok?
    ensures Output(files, source)
            == Ok(GenFile(ClientFile(source.stem, ParseModules(files[source].file).value)))
  {}

  /** Beside every source with clients there is, after a pass, the file generated for it. */
  lemma BuiltHasOutput(files: Files, entry: FileName)
    requires Clean(files) && entry in files && Writes(files, entry)
    ensures var source, output := SourceName(entry), OutputName(SourceName(entry));
            && source in files && files[source].Code? && ParseModules(files[source].file).Ok?
            && output in Built(files)
            && Built(files)[output] == Code(GenFile(ClientFile(entry.stem, ParseModules(files[source].file).value)))
  {
    var output := OutputName(SourceName(entry));
    assert output in Written(files);
    SourceOfOutput(SourceName(entry));
    OutputIsGenerated(files, SourceName(entry));
    assert Outputs(files)[output] == Code(Output(files, SourceName(entry)).value);
  }

  /** And no other file is touched. */
  lemma BuiltLeavesTheRest(files: Files, name: FileName)
    requires Clean(files)
    requires forall entry :: entry in files && Writes(files, entry) ==> OutputName(SourceName(entry)) != name
    ensures name in Built(files) <==> name in files
    ensures name in files ==> Built(files)[name] == files[name]
  {
    assert name !in Outputs(files);
  }

  /** A pass over a clean directory succeeds, and the order in which the entries are listed, and
      whether files written during the pass are listed too, make no difference. */
  lemma OrderDoesNotMatter(files: Files, listing: seq<FileName>)
    requires Clean(files) && Listing(files, listing)
    ensures BuildEntries(files, listing) == (Built(files), None)
  {
    Pass(files, listing);
    assert Done(files, listing) == Written(files);
  }

  // ---------- Building twice ----------

  lemma BuiltSources(files: Files, source: FileName)
    requires Clean(files)
    ensures source in Written(files) ==> Output(Built(files), source) == Err(GrpcClientNotFound)
    ensures source !in Written(files) ==> Output(Built(files), source) == Output(files, source)
    ensures Bearing(Built(files), source) <==> Bearing(files, source)
  {
    OutputInPass(files, Written(files), source);
    if source in Written(files) { NotWrittenOver(files, source); }
  }

  /** A pass leaves the sources, and with them what it would write, as they were. */
  lemma BuiltWritesTheSame(files: Files)
    requires Clean(files)
    ensures Clean(Built(files)) && Written(Built(files)) == Written(files)
  {
    var built := Built(files);
    forall name ensures Bearing(built, name) <==> Bearing(files, name)
      ensures name in Written(files) ==> Output(built, name) == Err(GrpcClientNotFound)
      ensures name !in Written(files) ==> Output(built, name) == Output(files, name)
    {
      BuiltSources(files, name);
    }
    forall name | name in built ensures Writes(built, name) <==> name in files && Writes(files, name) {
      if name in Written(files) {
        WrittenHasSource(files, name);
        assert SourceName(name) == name;
        NotWrittenOver(files, name);
      }
    }
    forall name | name in built && RsEntry(built, name) && !Writes(built, name)
      ensures Output(built, SourceName(name)) == Err(GrpcClientNotFound)
    {
      if name in Written(files) { WrittenHasSource(files, name); assert SourceName(name) == name; }
    }
    forall name | name in built && Writes(built, name)
      ensures !Bearing(built, OutputName(SourceName(name)))
      ensures !(OutputName(SourceName(name)) in built && built[OutputName(SourceName(name))].Folder?)
    {
      assert OutputName(SourceName(name)) in Written(files);
    }
  }

  lemma SameOutput(files: Files, output: FileName)
    requires Clean(files) && output in Written(files) && output in Written(Built(files))
    ensures WrittenContent(Built(files), output) == WrittenContent(files, output)
  {
    WrittenHasSource(files, output);
    var source := SourceOf(output);
    BuiltSources(files, source);
    if source in Written(files) { NotWrittenOver(files, source); }
  }

  lemma SameMaps(a: Files, b: Files)
    requires a.Keys == b.Keys && forall name :: name in a ==> a[name] == b[name]
    ensures a == b
  {}

  lemma SameOutputs(files: Files)
    requires Clean(files)
    ensures Outputs(Built(files)) == Outputs(files)
  {
    BuiltWritesTheSame(files);
    var a, b := Outputs(Built(files)), Outputs(files);
    forall output | output in a ensures a[output] == b[output] { SameOutput(files, output); }
    SameMaps(a, b);
  }

  lemma BuiltTwice(files: Files)
    requires Clean(files)
    ensures Clean(Built(files)) && Built(Built(files)) == Built(files)
  {
    BuiltWritesTheSame(files);
    SameOutputs(files);
    var outs := Outputs(files);
    assert outs.Keys == Written(files);
    OverlayTwice(files, outs);
  }

  /** Building again, with the entries listed in whatever order each time, changes nothing. */
  lemma BuildIsIdempotent(files: Files, first: seq<FileName>, again: seq<FileName>)
    requires Clean(files) && Listing(files, first)
    requires Listing(BuildEntries(files, first).0, again)
    ensures BuildEntries(BuildEntries(files, first).0, again) == (BuildEntries(files, first).0, None)
  {
    OrderDoesNotMatter(files, first);
    BuiltTwice(files);
    OrderDoesNotMatter(Built(files), again);
  }

  lemma SourceFirst(files: Files, x: FileName)
    requires x.ext == "rs" && OutputName(x) in files && Bearing(files, x) && Bearing(files, OutputName(x))
    ensures var (after, error) := BuildEntries(files, [x, OutputName(x)]);
            && error.None? && after.Keys == files.Keys
            && Output(after, OutputName(x)) == Err(GrpcClientNotFound)
  {
    var y := OutputName(x);
    LongerStems(x);
    BearingStem(files, y);
    BuildsOutput(files, x);
    var overwritten := files[y := Code(Output(files, x).value)];
    OutputHasNoClients(files, x, Output(files, x).value);
    NoClientsToBuild(overwritten, y, Output(files, x).value);
    TwoEntries(files, x, y);
  }

  lemma NamesakeFirst(files: Files, x: FileName)
    requires x.ext == "rs" && Bearing(files, x) && Bearing(files, OutputName(x))
    requires OutputName(OutputName(x)) !in files
    ensures var (after, error) := BuildEntries(files, [OutputName(x), x]);
            error.None? && after.Keys == files.Keys + {OutputName(OutputName(x))}
  {
    var y := OutputName(x);
    var z := OutputName(y);
    LongerStems(x);
    BearingStem(files, y);
    BuildsOutput(files, y);
    var extended := files[z := Code(Output(files, y).value)];
    OutputReadsSourceOnly(files, extended, x);
    BuildsOutput(extended, x);
    TwoEntries(files, y, x);
  }

  lemma EntriesSnoc(files: Files, listing: seq<FileName>, entry: FileName)
    ensures var before := BuildEntries(files, listing);
            BuildEntries(files, listing + [entry])
            == if before.1.Some? then before else BuildEntry(before.0, entry)
  {
    assert (listing + [entry])[..|listing|] == listing;
  }

  lemma {:induction false} EntriesConcat(files: Files, first: seq<FileName>, rest: seq<FileName>)
    requires BuildEntries(files, first).1.None?
    ensures BuildEntries(files, first + rest) == BuildEntries(BuildEntries(files, first).0, rest)
    decreases |rest|
  {
    if rest == [] {
      assert first + rest == first;
    } else {
      var before, last := rest[..|rest| - 1], rest[|rest| - 1];
      EntriesConcat(files, first, before);
      EntriesSnoc(files, first + before, last);
      EntriesSnoc(BuildEntries(files, first).0, before, last);
      assert first + rest == first + before + [last] && rest == before + [last];
    }
  }

  lemma {:induction false} NothingDeleted(files: Files, listing: seq<FileName>, name: FileName)
    requires name in files
    ensures name in BuildEntries(files, listing).0
  {
    if listing != [] { NothingDeleted(files, listing[..|listing| - 1], name); }
  }

  /** A file without clients keeps having none, whatever is written over it, so its output never appears. */
  lemma {:induction false} NeverAppears(files: Files, listing: seq<FileName>, y: FileName)
    requires y.ext == "rs" && IsIdent(y.stem) && Output(files, y) == Err(GrpcClientNotFound)
    requires OutputName(y) !in files
    ensures var after := BuildEntries(files, listing).0;
            Output(after, y) == Err(GrpcClientNotFound) && OutputName(y) !in after
  {
    if listing != [] {
      var n := |listing| - 1;
      NeverAppears(files, listing[..n], y);
      var (before, error) := BuildEntries(files, listing[..n]);
      if error.None? { EntryKeepsClientless(before, listing[n], y); }
    }
  }

  lemma EntryKeepsClientless(files: Files, entry: FileName, y: FileName)
    requires y.ext == "rs" && IsIdent(y.stem) && Output(files, y) == Err(GrpcClientNotFound)
    requires OutputName(y) !in files
    ensures var after := BuildEntry(files, entry).0;
            Output(after, y) == Err(GrpcClientNotFound) && OutputName(y) !in after
  {
    var source := SourceName(entry);
    var after := BuildEntry(files, entry).0;
    SourceOfOutput(source);
    SourceOfOutput(y);
    if after != files {
      var file := Output(files, source).value;
      if OutputName(source) == y {
        OutputHasNoClients(files, source, file);
        NoClientsToBuild(after, y, file);
      } else {
        OutputReadsSourceOnly(files, after, y);
      }
    }
  }

  /** Two sources, one named like the output of the other: the order of the listing then decides
      whether the second source is built from or overwritten first, whatever else the directory holds
      and in whatever order the rest is listed. */
  lemma NamesakeMakesOrderMatter(files: Files, x: FileName, rest: seq<FileName>)
    requires x.ext == "rs" && Bearing(files, x) && Bearing(files, OutputName(x))
    requires OutputName(OutputName(x)) !in files
    ensures BuildEntries(files, [x, OutputName(x)] + rest).0 != BuildEntries(files, [OutputName(x), x] + rest).0
    ensures OutputName(OutputName(x)) !in BuildEntries(files, [x, OutputName(x)] + rest).0
    ensures OutputName(OutputName(x)) in BuildEntries(files, [OutputName(x), x] + rest).0
  {
    var y, z := OutputName(x), OutputName(OutputName(x));
    BearingStem(files, y);
    SourceFirst(files, x);
    NamesakeFirst(files, x);
    EntriesConcat(files, [x, y], rest);
    EntriesConcat(files, [y, x], rest);
    var source, namesake := BuildEntries(files, [x, y]).0, BuildEntries(files, [y, x]).0;
    assert z !in source.Keys && z in namesake.Keys;
    NeverAppears(source, rest, y);
    NothingDeleted(namesake, rest, z);
  }

  lemma LongerStems(x: FileName)
    ensures |x.stem| < |OutputName(x).stem| < |OutputName(OutputName(x)).stem|
    ensures OutputName(x) != x && OutputName(OutputName(x)) != x && OutputName(OutputName(x)) != OutputName(x)
  {}

  lemma BuildsOutput(files: Files, source: FileName)
    requires source.ext == "rs" && Bearing(files, source)
    requires OutputName(source) in files ==> !files[OutputName(source)].Folder?
    ensures BuildEntry(files, source) == (files[OutputName(source) := Code(Output(files, source).value)], None)
  {
    BearingStem(files, source);
  }

  lemma TwoEntries(files: Files, a: FileName, b: FileName)
    requires BuildEntry(files, a).1.None?
    ensures BuildEntries(files, [a, b]) == BuildEntry(BuildEntry(files, a).0, b)
  {
    assert [a, b][..1] == [a] && [a][..0] == [];
    assert BuildEntries(files, [a]) == BuildEntry(files, a);
  }
}
