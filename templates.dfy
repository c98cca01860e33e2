/**
 * What the template layer decides before any text is produced: which services
 * are targets, how names are normalised in place, which imports each header
 * lists, and which parameters each template body receives. Template execution
 * itself (text substitution) is the collaborator `render`, which maps the data
 * handed to a template to its text or to an execution error.
 */
module Templates {
  import opened Util
  import opened Text
  import opened Descriptor

  /** The failures of generation. */
  datatype GenError =
    | NoTargetService
    | TemplateError(message: string)
    | FormatError(message: string)
    /** A Go run-time panic (a slice index out of range). */
    | Crash(message: string)
    /** "cannot use module= with paths=" */
    | ModulePathConflict
    | ModulePrefixMismatch(goPath: string, trimPath: string)

  /** The run-wide generation settings a template parameter block carries. */
  datatype Settings = Settings(
    useRequestContext: bool,
    registerFuncSuffix: string,
    allowPatchFeature: bool,
    outputPath: string,
    metrics: string,
    errorEncoder: string,
    packageName: string)

  /** trailerParams: the data handed to a template body. */
  datatype Trailer = Trailer(
    files: seq<File>,
    services: seq<Service>,
    useRequestContext: bool,
    registerFuncSuffix: string,
    assumeColonVerb: bool,
    errorEncoder: string,
    packageName: string)

  /** An execution of one template, identified by the template and the data it receives. */
  datatype Artifact =
    | KitHeader(file: File, packageName: string, imports: seq<GoPackage>)
    | KitBody(trailer: Trailer)
    | ServiceHeader(packageName: string, imports: seq<GoPackage>)
    | ServiceBody(trailer: Trailer)
    | RoutesBody(trailer: Trailer)
    | EndpointsBody(trailer: Trailer)

  /**
   * The collaborators outside the model: name casing (casing.Camel), template
   * execution, source formatting (format.Source) and the first line of go.mod
   * with its "module " prefix trimmed (readModuleName), which is an error when
   * go.mod cannot be opened or read.
   */
  datatype Env = Env(
    camel: string -> string,
    render: Artifact -> Result<string, string>,
    format: string -> Result<string, string>,
    moduleName: Result<string, string>)

  const HttpTransport := GoPackage("github.com/go-kit/kit/transport/http", "http", "httptransport")
  const ContextPackage := GoPackage("context", "", "")
  const MuxPackage := GoPackage("github.com/gorilla/mux", "", "")
  const EndpointImports := [GoPackage("context", "", ""), GoPackage("github.com/go-kit/kit/endpoint", "", ""), GoPackage("net/http", "", "")]

  /** The imports of a per-file header: the go-kit HTTP transport, then the metrics package if one is set. */
  function KitImports(metrics: string): (r: seq<GoPackage>)
    ensures |r| >= 1 && r[0] == HttpTransport && r[0].alias == "httptransport"
    ensures |r| == (if metrics == "" then 1 else 2)
    ensures |r| == 2 ==> r[1] == GoPackage(metrics, "", "")
  {
    [HttpTransport] + (if metrics != "" then [GoPackage(metrics, "", "")] else [])
  }

  /** Whether the path templates assume a trailing ":verb" (true without a registry). */
  function AssumeColonVerb(reg: Registry?): (r: bool)
    ensures reg == null ==> r
    ensures reg != null ==> (r <==> !reg.allowColonFinalSegments)
  {
    reg == null || !reg.allowColonFinalSegments
  }

  /** A service is a target when one of its methods has at least one binding. */
  predicate HasBoundMethod(svc: Service)
  {
    exists j | 0 <= j < |svc.methods| :: |svc.methods[j].bindings| > 0
  }

  /** The target services, in their original order. */
  function TargetServices(svcs: seq<Service>): (r: seq<Service>)
    ensures |r| <= |svcs|
  {
    if |svcs| == 0 then []
    else TargetServices(svcs[..|svcs| - 1]) + (if HasBoundMethod(svcs[|svcs| - 1]) then [svcs[|svcs| - 1]] else [])
  }

  /** A service is a target exactly when it is one of the services and has a bound method. */
  lemma {:induction false} TargetServicesMembers(svcs: seq<Service>)
    ensures forall s :: s in TargetServices(svcs) <==> s in svcs && HasBoundMethod(s)
  {
    if |svcs| > 0 {
      var init := svcs[..|svcs| - 1];
      TargetServicesMembers(init);
      assert svcs == init + [svcs[|svcs| - 1]];
    }
  }

  /** Filtering keeps the order: the targets of a concatenation are the concatenated targets. */
  lemma {:induction false} TargetServicesAppend(a: seq<Service>, b: seq<Service>)
    ensures TargetServices(a + b) == TargetServices(a) + TargetServices(b)
    decreases |b|
  {
    if |b| == 0 {
      assert a + b == a;
    } else {
      assert (a + b)[..|a + b| - 1] == a + b[..|b| - 1];
      TargetServicesAppend(a, b[..|b| - 1]);
    }
  }

  /** There is no target exactly when no service has a bound method. */
  lemma TargetServicesEmpty(svcs: seq<Service>)
    ensures TargetServices(svcs) == [] <==> forall i :: 0 <= i < |svcs| ==> !HasBoundMethod(svcs[i])
  {
    TargetServicesMembers(svcs);
    if TargetServices(svcs) != [] {
      assert TargetServices(svcs)[0] in TargetServices(svcs);
    }
  }

  /** The per-file header renders: the point from which applyTemplate renames the file's descriptors. */
  predicate HeaderRenders(file: File, s: Settings, env: Env)
  {
    env.render(KitHeader(file, s.packageName, KitImports(s.metrics))).Ok?
  }

  function CasedAll(xs: seq<string>, camel: string -> string): seq<string>
  {
    seq(|xs|, k requires 0 <= k < |xs| => camel(xs[k]))
  }

  /** Several files' names after camel-casing each of them. */
  function CasedFiles(ts: seq<NameTable>, camel: string -> string): seq<NameTable>
  {
    seq(|ts|, k requires 0 <= k < |ts| => Cased(ts[k], camel))
  }

  /** A file's names after camel-casing each of them. */
  function Cased(t: NameTable, camel: string -> string): NameTable
  {
    NameTable(CasedAll(t.messages, camel), CasedAll(t.services, camel),
              seq(|t.methods|, i requires 0 <= i < |t.methods| => CasedAll(t.methods[i], camel)))
  }

  /** The outcome of one per-file generation (applyTemplate), apart from the renaming it performs. */
  function KitOutcome(file: File, s: Settings, reg: Registry?, env: Env): (r: Result<string, GenError>)
    ensures r == Err(NoTargetService) <==>
      HeaderRenders(file, s, env)
      && forall i :: 0 <= i < |file.services| ==> !HasBoundMethod(file.services[i])
    ensures r.Ok? ==>
      && HeaderRenders(file, s, env)
      && exists i | 0 <= i < |file.services| :: HasBoundMethod(file.services[i])
  {
    TargetServicesEmpty(file.services);
    var header := env.render(KitHeader(file, s.packageName, KitImports(s.metrics)));
    if header.Err? then Err(TemplateError(header.error))
    else
      var targets := TargetServices(file.services);
      if |targets| == 0 then Err(NoTargetService)
      else
        var trailer := Trailer([], targets, s.useRequestContext, s.registerFuncSuffix,
                               AssumeColonVerb(reg), s.errorEncoder, s.packageName);
        var body := env.render(KitBody(trailer));
        if body.Err? then Err(TemplateError(body.error)) else Ok(header.value + body.value)
  }

  /** Camel-cases every message name in place. */
  method RenameMessages(msgs: seq<Message>, camel: string -> string)
    requires DistinctMessages(msgs)
    modifies MessageObjects(msgs)
    ensures forall k :: 0 <= k < |msgs| ==> msgs[k].name == camel(old(msgs[k].name))
  {
    for i := 0 to |msgs|
      invariant forall k :: 0 <= k < i ==> msgs[k].name == camel(old(msgs[k].name))
      invariant forall k :: i <= k < |msgs| ==> msgs[k].name == old(msgs[k].name)
    {
      assert msgs[i] in msgs;
      msgs[i].name := camel(msgs[i].name);
    }
  }

  /** Camel-cases a service name and its method names in place; says whether the service is a target. */
  method RenameService(svc: Service, camel: string -> string) returns (bound: bool)
    requires DistinctMethods(svc)
    modifies {svc}, set j | 0 <= j < |svc.methods| :: svc.methods[j]
    ensures svc.name == camel(old(svc.name))
    ensures forall j :: 0 <= j < |svc.methods| ==> svc.methods[j].name == camel(old(svc.methods[j].name))
    ensures bound == HasBoundMethod(svc)
  {
    svc.name := camel(svc.name);
    bound := false;
    for j := 0 to |svc.methods|
      invariant svc.name == camel(old(svc.name))
      invariant forall k :: 0 <= k < j ==> svc.methods[k].name == camel(old(svc.methods[k].name))
      invariant forall k :: j <= k < |svc.methods| ==> svc.methods[k].name == old(svc.methods[k].name)
      invariant bound <==> exists k | 0 <= k < j :: |svc.methods[k].bindings| > 0
    {
      var m := svc.methods[j];
      m.name := camel(m.name);
      if |m.bindings| > 0 {
        bound := true;
      }
    }
  }

  /** The services are renamed in place one after the other; a service is a target as it is seen. */
  method RenameServiceAt(svcs: seq<Service>, i: nat, camel: string -> string) returns (bound: bool)
    requires i < |svcs| && DistinctServices(svcs)
    modifies {svcs[i]}, set j | 0 <= j < |svcs[i].methods| :: svcs[i].methods[j]
    ensures bound == HasBoundMethod(svcs[i])
    ensures svcs[i].name == camel(old(svcs[i].name))
    ensures forall k :: 0 <= k < |svcs| && k != i ==> svcs[k].name == old(svcs[k].name)
    ensures forall j :: 0 <= j < |svcs[i].methods| ==> svcs[i].methods[j].name == camel(old(svcs[i].methods[j].name))
    ensures forall k, j :: 0 <= k < |svcs| && k != i && 0 <= j < |svcs[k].methods| ==>
      svcs[k].methods[j].name == old(svcs[k].methods[j].name)
  {
    bound := RenameService(svcs[i], camel);
    forall k, j | 0 <= k < |svcs| && k != i && 0 <= j < |svcs[k].methods|
      ensures svcs[k].methods[j].name == old(svcs[k].methods[j].name)
    {
      assert svcs[k].methods[j].service == svcs[k] != svcs[i];
    }
  }

  method RenameServices(svcs: seq<Service>, camel: string -> string) returns (targets: seq<Service>)
    requires DistinctServices(svcs)
    modifies ServiceObjects(svcs)
    ensures targets == TargetServices(svcs)
    ensures forall i :: 0 <= i < |svcs| ==> svcs[i].name == camel(old(svcs[i].name))
    ensures forall i, j :: 0 <= i < |svcs| && 0 <= j < |svcs[i].methods| ==>
      svcs[i].methods[j].name == camel(old(svcs[i].methods[j].name))
  {
    targets := [];
    for i := 0 to |svcs|
      invariant targets == TargetServices(svcs[..i])
      invariant forall k :: 0 <= k < i ==> svcs[k].name == camel(old(svcs[k].name))
      invariant forall k :: i <= k < |svcs| ==> svcs[k].name == old(svcs[k].name)
      invariant forall k, j :: 0 <= k < i && 0 <= j < |svcs[k].methods| ==>
        svcs[k].methods[j].name == camel(old(svcs[k].methods[j].name))
      invariant forall k, j :: i <= k < |svcs| && 0 <= j < |svcs[k].methods| ==>
        svcs[k].methods[j].name == old(svcs[k].methods[j].name)
    {
      assert svcs[i] in svcs;
      var bound := RenameServiceAt(svcs, i, camel);
      assert svcs[..i + 1][..i] == svcs[..i];
      if bound {
        targets := targets + [svcs[i]];
      }
    }
    assert svcs[..|svcs|] == svcs;
  }

  /**
   * A set of files and the casing applied to their names, passed as one value to
   * the two-state lemmas below.
   */
  datatype Renaming = Renaming(files: seq<File>, camel: string -> string)

  /** One file and the casing applied to its names. */
  datatype FileRenaming = FileRenaming(file: File, camel: string -> string)

  /** Every name of the file was camel-cased since the earlier state: then so was its name table. */
  twostate lemma NamesCasedNow(c: FileRenaming)
    requires forall i :: 0 <= i < |c.file.messages| ==>
      c.file.messages[i].name == c.camel(old(c.file.messages[i].name))
    requires forall i :: 0 <= i < |c.file.services| ==>
      c.file.services[i].name == c.camel(old(c.file.services[i].name))
    requires forall i, j :: 0 <= i < |c.file.services| && 0 <= j < |c.file.services[i].methods| ==>
      c.file.services[i].methods[j].name == c.camel(old(c.file.services[i].methods[j].name))
    ensures NamesOf(c.file) == Cased(old(NamesOf(c.file)), c.camel)
  {
    var before := old(NamesOf(c.file));
    var now := NamesOf(c.file);
    var want := Cased(before, c.camel);
    assert now.messages == want.messages;
    assert now.services == want.services;
    assert forall i | 0 <= i < |now.methods| :: now.methods[i] == want.methods[i];
  }

  /** Each descriptor of the files occurs in the flattened lists. */
  lemma {:induction false} InAllMessages(fs: seq<File>, k: nat, i: nat)
    requires k < |fs| && i < |fs[k].messages|
    ensures fs[k].messages[i] in AllMessages(fs)
  {
    var init := fs[..|fs| - 1];
    assert AllMessages(fs) == AllMessages(init) + fs[|fs| - 1].messages;
    if k < |fs| - 1 {
      assert init[k] == fs[k];
      InAllMessages(init, k, i);
    }
  }

  lemma {:induction false} InAllServices(fs: seq<File>, k: nat, i: nat)
    requires k < |fs| && i < |fs[k].services|
    ensures fs[k].services[i] in AllServices(fs)
  {
    var init := fs[..|fs| - 1];
    assert AllServices(fs) == AllServices(init) + fs[|fs| - 1].services;
    if k < |fs| - 1 {
      assert init[k] == fs[k];
      InAllServices(init, k, i);
    }
  }

  /** Every name in the flattened lists was camel-cased: then so was each file's name table. */
  twostate lemma FilesCasedNow(c: Renaming)
    requires forall x :: 0 <= x < |AllMessages(c.files)| ==>
      AllMessages(c.files)[x].name == c.camel(old(AllMessages(c.files)[x].name))
    requires forall i :: 0 <= i < |AllServices(c.files)| ==>
      AllServices(c.files)[i].name == c.camel(old(AllServices(c.files)[i].name))
    requires forall i, j :: 0 <= i < |AllServices(c.files)| && 0 <= j < |AllServices(c.files)[i].methods| ==>
      AllServices(c.files)[i].methods[j].name == c.camel(old(AllServices(c.files)[i].methods[j].name))
    ensures forall k :: 0 <= k < |c.files| ==> NamesOf(c.files[k]) == Cased(old(NamesOf(c.files[k])), c.camel)
    ensures FilesNames(c.files) == CasedFiles(old(FilesNames(c.files)), c.camel)
  {
    forall k | 0 <= k < |c.files| ensures NamesOf(c.files[k]) == Cased(old(NamesOf(c.files[k])), c.camel) {
      var f := c.files[k];
      forall i | 0 <= i < |f.messages| ensures f.messages[i].name == c.camel(old(f.messages[i].name)) {
        InAllMessages(c.files, k, i);
      }
      forall i | 0 <= i < |f.services| ensures f.services[i].name == c.camel(old(f.services[i].name)) {
        InAllServices(c.files, k, i);
      }
      forall i, j | 0 <= i < |f.services| && 0 <= j < |f.services[i].methods|
        ensures f.services[i].methods[j].name == c.camel(old(f.services[i].methods[j].name))
      {
        InAllServices(c.files, k, i);
      }
      var before := old(NamesOf(f));
      var now := NamesOf(f);
      var want := Cased(before, c.camel);
      assert now.messages == want.messages;
      assert now.services == want.services;
      assert forall i | 0 <= i < |now.methods| :: now.methods[i] == want.methods[i];
    }
  }

  /** Camel-cases, in place, every message name of a file, then every service and method name. */
  method RenameFile(file: File, camel: string -> string) returns (targets: seq<Service>)
    requires file.Distinct()
    modifies file.Footprint()
    ensures targets == TargetServices(file.services)
    ensures forall k :: 0 <= k < |file.messages| ==> file.messages[k].name == camel(old(file.messages[k].name))
    ensures forall i :: 0 <= i < |file.services| ==> file.services[i].name == camel(old(file.services[i].name))
    ensures forall i, j :: 0 <= i < |file.services| && 0 <= j < |file.services[i].methods| ==>
      file.services[i].methods[j].name == camel(old(file.services[i].methods[j].name))
  {
    RenameMessages(file.messages, camel);
    targets := RenameServices(file.services, camel);
  }

  /**
   * applyTemplate: the imports handed in are discarded and replaced by the kit
   * imports; the header is rendered first (an error there leaves every name
   * untouched); then every message, service and method name is camel-cased, also
   * when no service turns out to be a target.
   */
  method ApplyTemplate(file: File, imports: seq<GoPackage>, s: Settings, reg: Registry?, env: Env)
    returns (r: Result<string, GenError>)
    requires file.Distinct()
    modifies file.Footprint()
    ensures r == KitOutcome(file, s, reg, env)
    ensures NamesOf(file) == if HeaderRenders(file, s, env) then Cased(old(NamesOf(file)), env.camel) else old(NamesOf(file))
    ensures env.render(KitHeader(file, s.packageName, KitImports(s.metrics))).Err? ==>
      forall o | o in file.Footprint() :: unchanged(o)
    ensures env.render(KitHeader(file, s.packageName, KitImports(s.metrics))).Ok? ==>
      (forall k :: 0 <= k < |file.messages| ==> file.messages[k].name == env.camel(old(file.messages[k].name)))
      && (forall i :: 0 <= i < |file.services| ==> file.services[i].name == env.camel(old(file.services[i].name)))
      && (forall i, j :: 0 <= i < |file.services| && 0 <= j < |file.services[i].methods| ==>
            file.services[i].methods[j].name == env.camel(old(file.services[i].methods[j].name)))
  {
    var kitImports := KitImports(s.metrics);
    var header := env.render(KitHeader(file, s.packageName, kitImports));
    if header.Err? {
      return Err(TemplateError(header.error));
    }
    var targets := RenameFile(file, env.camel);
    if |targets| == 0 {
      NamesCasedNow(FileRenaming(file, env.camel));
      return Err(NoTargetService);
    }
    var assumeColonVerb := true;
    if reg != null {
      assumeColonVerb := !reg.allowColonFinalSegments;
    }
    var trailer := Trailer([], targets, s.useRequestContext, s.registerFuncSuffix,
                           assumeColonVerb, s.errorEncoder, s.packageName);
    var body := env.render(KitBody(trailer));
    if body.Err? {
      NamesCasedNow(FileRenaming(file, env.camel));
      return Err(TemplateError(body.error));
    }
    r := Ok(header.value + body.value);
    NamesCasedNow(FileRenaming(file, env.camel));
  }

  /** Some service's file name cannot be sliced. */
  predicate SomeServiceFileNamePanics(svcs: seq<Service>)
  {
    exists i | 0 <= i < |svcs| :: ServiceFileNamePanics(svcs[i].fileName)
  }

  /** Slicing a service's file name panics when it has no "/" or no "." after its last "/" but one. */
  predicate ServiceFileNamePanics(fileName: string)
  {
    var li := LastIndexOf(fileName, '/');
    var ld := LastIndexOf(fileName, '.');
    li < 0 || ld - 1 < li
  }

  /**
   * The slicing panics exactly when the file name has no directory or its last
   * element has no ".".
   */
  lemma ServiceFileNamePanicsIff(fileName: string)
    ensures ServiceFileNamePanics(fileName) <==> '/' !in fileName || '.' !in LastComponent(fileName, '/')
  {
    var li := LastIndexOf(fileName, '/');
    var ld := LastIndexOf(fileName, '.');
    var last := LastComponent(fileName, '/');
    assert last == fileName[li + 1..];
    if li < 0 {
      assert '/' !in fileName;
    } else {
      assert fileName[li] == '/';
      if ld <= li {
        forall j | 0 <= j < |last| ensures last[j] != '.' {
          assert last[j] == fileName[li + 1 + j];
        }
      } else {
        assert last[ld - li - 1] == '.';
      }
    }
  }

  /**
   * The import added for a service: the module name joined with the directory of
   * its file, and as package name the slice from the last "/" to the last ".".
   */
  function ServiceImport(moduleName: string, fileName: string): GoPackage
    requires !ServiceFileNamePanics(fileName)
  {
    var li := LastIndexOf(fileName, '/');
    var ld := LastIndexOf(fileName, '.');
    GoPackage(moduleName + "/" + fileName[..li], fileName[li..ld - 1], "")
  }

  /**
   * The service import is the module name joined with the file's directory: its
   * path after "module/" is what precedes "/" and the file's base name. The
   * package name kept with it starts with that "/" and stops one character short
   * of the last ".", so it is a prefix of "/" + the base name.
   */
  lemma ServiceImportIsModuleDirectory(moduleName: string, fileName: string)
    requires !ServiceFileNamePanics(fileName)
    ensures var r := ServiceImport(moduleName, fileName);
      && HasPrefix(r.path, moduleName + "/")
      && r.path[|moduleName| + 1..] + "/" + LastComponent(fileName, '/') == fileName
      && r.name <= "/" + LastComponent(fileName, '/')
      && r.alias == ""
  {
    var li := LastIndexOf(fileName, '/');
    var base := LastComponent(fileName, '/');
    assert fileName == fileName[..li] + "/" + base;
    var r := ServiceImport(moduleName, fileName);
    assert r.path[|moduleName| + 1..] == fileName[..li];
    assert fileName[li..] == "/" + base;
  }

  /** The per-service imports, in service order. */
  function ServiceImports(moduleName: string, svcs: seq<Service>): (r: seq<GoPackage>)
    requires forall i :: 0 <= i < |svcs| ==> !ServiceFileNamePanics(svcs[i].fileName)
    ensures |r| == |svcs|
    ensures forall i :: 0 <= i < |svcs| ==> r[i] == ServiceImport(moduleName, svcs[i].fileName)
  {
    seq(|svcs|, i requires 0 <= i < |svcs| => ServiceImport(moduleName, svcs[i].fileName))
  }

  /**
   * The outcome of the service generation (applyServiceTemplate) over several
   * files, apart from the renaming it performs. An unreadable go.mod panics
   * before anything is renamed.
   */
  function ServiceOutcome(files: seq<File>, s: Settings, reg: Registry?, env: Env): (r: Result<string, GenError>)
    ensures env.moduleName.Err? ==> r == Err(Crash(env.moduleName.error))
    ensures r.Err? && r.error.Crash? <==> env.moduleName.Err? || SomeServiceFileNamePanics(AllServices(files))
    ensures r == Err(NoTargetService) <==>
      && env.moduleName.Ok?
      && !SomeServiceFileNamePanics(AllServices(files))
      && (forall i :: 0 <= i < |AllServices(files)| ==> !HasBoundMethod(AllServices(files)[i]))
  {
    var svcs := AllServices(files);
    TargetServicesEmpty(svcs);
    if env.moduleName.Err? then
      Err(Crash(env.moduleName.error))
    else if SomeServiceFileNamePanics(svcs) then
      Err(Crash("slice bounds out of range"))
    else
      var targets := TargetServices(svcs);
      if |targets| == 0 then Err(NoTargetService)
      else RenderServiceFile(files, targets, ServiceImports(env.moduleName.value, svcs), s, reg, env)
  }

  /** The service header (the per-service imports, then context) followed by the service body. */
  function RenderServiceFile(files: seq<File>, targets: seq<Service>, serviceImports: seq<GoPackage>,
                             s: Settings, reg: Registry?, env: Env): (r: Result<string, GenError>)
    ensures r.Err? ==> r.error.TemplateError?
  {
    var header := env.render(ServiceHeader(s.packageName, serviceImports + [ContextPackage]));
    if header.Err? then Err(TemplateError(header.error))
    else
      var trailer := Trailer(files, targets, s.useRequestContext, s.registerFuncSuffix,
                             AssumeColonVerb(reg), "", "");
      var body := env.render(ServiceBody(trailer));
      if body.Err? then Err(TemplateError(body.error)) else Ok(header.value + body.value)
  }

  /**
   * The imports applyServiceTemplate adds while it walks the services, one per
   * service in order; `ok` is false when a file name cannot be sliced (a panic).
   */
  method CollectServiceImports(svcs: seq<Service>, moduleName: string) returns (ok: bool, serviceImports: seq<GoPackage>)
    ensures ok <==> !SomeServiceFileNamePanics(svcs)
    ensures ok ==> serviceImports == ServiceImports(moduleName, svcs)
  {
    serviceImports := [];
    for i := 0 to |svcs|
      invariant forall k :: 0 <= k < i ==> !ServiceFileNamePanics(svcs[k].fileName)
      invariant |serviceImports| == i
      invariant forall k :: 0 <= k < i ==> serviceImports[k] == ServiceImport(moduleName, svcs[k].fileName)
    {
      if ServiceFileNamePanics(svcs[i].fileName) {
        return false, serviceImports;
      }
      serviceImports := serviceImports + [ServiceImport(moduleName, svcs[i].fileName)];
    }
    ok := true;
  }

  /** Camel-cases, in place, every message name of the files, then every service and method name. */
  method RenameFiles(files: seq<File>, camel: string -> string) returns (targets: seq<Service>)
    requires DistinctMessages(AllMessages(files)) && DistinctServices(AllServices(files))
    modifies MessageObjects(AllMessages(files)), ServiceObjects(AllServices(files))
    ensures targets == TargetServices(AllServices(files))
    ensures forall k :: 0 <= k < |AllMessages(files)| ==>
      AllMessages(files)[k].name == camel(old(AllMessages(files)[k].name))
    ensures forall i :: 0 <= i < |AllServices(files)| ==>
      AllServices(files)[i].name == camel(old(AllServices(files)[i].name))
    ensures forall i, j :: 0 <= i < |AllServices(files)| && 0 <= j < |AllServices(files)[i].methods| ==>
      AllServices(files)[i].methods[j].name == camel(old(AllServices(files)[i].methods[j].name))
    ensures FilesNames(files) == CasedFiles(old(FilesNames(files)), camel)
  {
    RenameMessages(AllMessages(files), camel);
    targets := RenameServices(AllServices(files), camel);
    FilesCasedNow(Renaming(files, camel));
  }

  /**
   * applyServiceTemplate: the imports handed in are discarded; every message of
   * every file is camel-cased first; then the services of all the files are walked
   * in order (the nested walk over files and their services is one walk over their
   * concatenation), and the header lists the per-service imports and then context.
   * The source renames the messages first and computes a service's import between
   * renaming the service and its methods; a file name that cannot be sliced panics
   * there and ends the process, so the model computes the imports first and
   * renames only when none panics. Reading go.mod comes before all of it.
   */
  method ApplyServiceTemplate(files: seq<File>, imports: seq<GoPackage>, s: Settings, reg: Registry?, env: Env)
    returns (r: Result<string, GenError>)
    requires DistinctMessages(AllMessages(files)) && DistinctServices(AllServices(files))
    modifies MessageObjects(AllMessages(files)), ServiceObjects(AllServices(files))
    ensures r == ServiceOutcome(files, s, reg, env)
    ensures env.moduleName.Err? ==> FilesNames(files) == old(FilesNames(files))
    ensures env.moduleName.Ok? && !SomeServiceFileNamePanics(AllServices(files)) ==>
      FilesNames(files) == CasedFiles(old(FilesNames(files)), env.camel)
  {
    if env.moduleName.Err? {
      return Err(Crash(env.moduleName.error));
    }
    var ok, serviceImports := CollectServiceImports(AllServices(files), env.moduleName.value);
    FilesNamesUnchanged(files);
    if !ok {
      return Err(Crash("slice bounds out of range"));
    }
    r := RenameAndRenderServices(files, serviceImports, s, reg, env);
  }

  /** The part of applyServiceTemplate after the imports: renaming, then rendering when there is a target. */
  method RenameAndRenderServices(files: seq<File>, serviceImports: seq<GoPackage>, s: Settings, reg: Registry?, env: Env)
    returns (r: Result<string, GenError>)
    requires DistinctMessages(AllMessages(files)) && DistinctServices(AllServices(files))
    requires !SomeServiceFileNamePanics(AllServices(files))
    requires env.moduleName.Ok? && serviceImports == ServiceImports(env.moduleName.value, AllServices(files))
    modifies MessageObjects(AllMessages(files)), ServiceObjects(AllServices(files))
    ensures r == ServiceOutcome(files, s, reg, env)
    ensures FilesNames(files) == CasedFiles(old(FilesNames(files)), env.camel)
  {
    var targets := RenameFiles(files, env.camel);
    if |targets| == 0 {
      return Err(NoTargetService);
    }
    r := RenderServiceFile(files, targets, serviceImports, s, reg, env);
  }

  /** applyRoutesTemplate: the header lists only gorilla/mux; it never reports a missing target. */
  function ApplyRoutesTemplate(s: Settings, env: Env): (r: Result<string, GenError>)
    ensures r.Ok? <==>
      env.render(ServiceHeader(s.packageName, [MuxPackage])).Ok?
      && env.render(RoutesBody(Trailer([], [], s.useRequestContext, s.registerFuncSuffix, false, "", ""))).Ok?
    ensures r.Err? ==> r.error.TemplateError?
  {
    var header := env.render(ServiceHeader(s.packageName, [MuxPackage]));
    if header.Err? then Err(TemplateError(header.error))
    else
      var body := env.render(RoutesBody(Trailer([], [], s.useRequestContext, s.registerFuncSuffix, false, "", "")));
      if body.Err? then Err(TemplateError(body.error)) else Ok(header.value + body.value)
  }

  /** applyEndpointsTemplate: the header lists context, the go-kit endpoint package and net/http. */
  function ApplyEndpointsTemplate(s: Settings, env: Env): (r: Result<string, GenError>)
    ensures r.Ok? <==>
      env.render(ServiceHeader(s.packageName, EndpointImports)).Ok?
      && env.render(EndpointsBody(Trailer([], [], s.useRequestContext, s.registerFuncSuffix, false, "", ""))).Ok?
    ensures r.Err? ==> r.error.TemplateError?
  {
    var header := env.render(ServiceHeader(s.packageName, EndpointImports));
    if header.Err? then Err(TemplateError(header.error))
    else
      var body := env.render(EndpointsBody(Trailer([], [], s.useRequestContext, s.registerFuncSuffix, false, "", "")));
      if body.Err? then Err(TemplateError(body.error)) else Ok(header.value + body.value)
  }
}
