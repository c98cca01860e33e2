/**
 * The gateway generator: construction (base imports with their reserved aliases
 * and the output path type), the output-path rule for a file, the import
 * de-duplication run before each template, and the top-level generation that
 * decides which output files are produced, under which names and in which order.
 */
module Generator {
  import opened Util
  import opened Text
  import opened Descriptor
  import opened Bindings
  import opened Imports
  import opened Templates

  /** How output paths are derived: from the Go import path, or next to the proto source. */
  datatype PathType = Import | SourceRelative

  /** The option value naming each path type. */
  function PathTypeName(t: PathType): string
  {
    match t
    case Import => "import"
    case SourceRelative => "source_relative"
  }

  /** The `paths=` option: empty or "import", "source_relative", anything else is fatal (None). */
  function ParsePathType(s: string): (r: Option<PathType>)
    ensures r == Some(Import) <==> s == "" || s == "import"
    ensures r == Some(SourceRelative) <==> s == "source_relative"
  {
    if s == "" || s == "import" then Some(Import)
    else if s == "source_relative" then Some(SourceRelative)
    else None
  }

  /** Every path type is accepted under its own name, and only the names above are accepted. */
  lemma ParsePathTypeRoundTrip(t: PathType, s: string)
    ensures ParsePathType(PathTypeName(t)) == Some(t)
    ensures ParsePathType(s).Some? ==> s == "" || s == PathTypeName(ParsePathType(s).value)
  {
  }

  /** The packages every generated file may import, in this order. */
  const BaseImportPaths: seq<string> := [
    "context",
    "io",
    "net/http",
    "github.com/grpc-ecosystem/grpc-gateway/runtime",
    "github.com/grpc-ecosystem/grpc-gateway/utilities",
    "github.com/golang/protobuf/descriptor",
    "github.com/golang/protobuf/proto",
    "google.golang.org/grpc",
    "google.golang.org/grpc/codes",
    "google.golang.org/grpc/grpclog",
    "google.golang.org/grpc/status"
  ]

  /** The generator's configuration, fixed at construction. */
  datatype Generator = Generator(
    reg: Registry,
    baseImports: seq<GoPackage>,
    useRequestContext: bool,
    registerFuncSuffix: string,
    pathType: PathType,
    modulePath: string,
    allowPatchFeature: bool)

  /** The i-th fallback alias of a package name: "name_i". */
  function AliasCandidate(name: string, i: nat): (r: string)
    ensures |r| > |name|
  {
    name + "_" + NatToString(i)
  }

  /** The name a package is known by in generated code: its alias, or its name when it has none. */
  function EffectiveAlias(pkg: GoPackage): string
  {
    if pkg.alias == "" then pkg.name else pkg.alias
  }

  /** Different retry numbers give different aliases. */
  lemma AliasCandidateInjective(name: string, i: nat, j: nat)
    requires AliasCandidate(name, i) == AliasCandidate(name, j)
    ensures i == j
  {
    assert AliasCandidate(name, i)[|name| + 1..] == NatToString(i);
    assert AliasCandidate(name, j)[|name| + 1..] == NatToString(j);
    NatToStringInjective(i, j);
  }

  /** The first n fallback aliases. */
  function AliasCandidates(name: string, n: nat): set<string>
  {
    set i | 0 <= i < n :: AliasCandidate(name, i)
  }

  /** There are exactly n first fallback aliases. */
  lemma {:induction false} AliasCandidatesSize(name: string, n: nat)
    ensures |AliasCandidates(name, n)| == n
  {
    if n > 0 {
      AliasCandidatesSize(name, n - 1);
      assert AliasCandidates(name, n) == AliasCandidates(name, n - 1) + {AliasCandidate(name, n - 1)};
      if AliasCandidate(name, n - 1) in AliasCandidates(name, n - 1) {
        var i :| 0 <= i < n - 1 && AliasCandidate(name, i) == AliasCandidate(name, n - 1);
        AliasCandidateInjective(name, i, n - 1);
      }
    }
  }

  lemma SubsetSize<T>(a: set<T>, b: set<T>)
    requires a <= b
    ensures |a| <= |b|
  {
    assert b == a + (b - a);
  }

  /**
   * The alias table only grows: every binding of `before` is still in `after`.
   */
  predicate Extends(after: map<string, string>, before: map<string, string>)
  {
    forall a :: a in before ==> a in after && after[a] == before[a]
  }

  /** Candidates that are all taken are distinct keys of the table, so there are no more of them than keys. */
  lemma CandidatesTaken(aliases: map<string, string>, name: string, path: string, n: nat)
    requires forall j :: 0 <= j < n ==> !CanReserve(aliases, AliasCandidate(name, j), path)
    ensures n <= |aliases.Keys|
  {
    assert AliasCandidates(name, n) <= aliases.Keys by {
      forall a | a in AliasCandidates(name, n) ensures a in aliases.Keys {
        var j :| 0 <= j < n && a == AliasCandidate(name, j);
      }
    }
    AliasCandidatesSize(name, n);
    SubsetSize(AliasCandidates(name, n), aliases.Keys);
  }

  /**
   * The first fallback number from `i` on whose alias is free for `path`; the
   * numbers below `i` are known to be taken, and only finitely many aliases are.
   */
  function FirstFreeFrom(aliases: map<string, string>, name: string, path: string, i: nat): (r: nat)
    requires forall j :: 0 <= j < i ==> !CanReserve(aliases, AliasCandidate(name, j), path)
    ensures i <= r && CanReserve(aliases, AliasCandidate(name, r), path)
    ensures forall j :: 0 <= j < r ==> !CanReserve(aliases, AliasCandidate(name, j), path)
    decreases |aliases.Keys| - i
  {
    CandidatesTaken(aliases, name, path, i);
    if CanReserve(aliases, AliasCandidate(name, i), path) then i
    else
      CandidatesTaken(aliases, name, path, i + 1);
      FirstFreeFrom(aliases, name, path, i + 1)
  }

  /** The first fallback number whose alias is free for `path`. */
  function FirstFree(aliases: map<string, string>, name: string, path: string): nat
  {
    FirstFreeFrom(aliases, name, path, 0)
  }

  /** A free fallback number with every smaller one taken is the first free one. */
  lemma FirstFreeUnique(aliases: map<string, string>, name: string, path: string, n: nat)
    requires CanReserve(aliases, AliasCandidate(name, n), path)
    requires forall j :: 0 <= j < n ==> !CanReserve(aliases, AliasCandidate(name, j), path)
    ensures n == FirstFree(aliases, name, path)
  {
    var r := FirstFree(aliases, name, path);
    assert !(n < r) && !(r < n);
  }

  /**
   * One base import as construction reserves it, against the table `aliases`:
   * the package named by `path.Base`, without alias when that name is free for the
   * path, otherwise aliased by the first free "name_i"; and the table with that
   * effective alias bound to the path.
   */
  function ReserveOne(aliases: map<string, string>, path: string): (GoPackage, map<string, string>)
  {
    var name := PathBase(path);
    if CanReserve(aliases, name, path) then (GoPackage(path, name, ""), aliases[name := path])
    else
      var alias := AliasCandidate(name, FirstFree(aliases, name, path));
      (GoPackage(path, name, alias), aliases[alias := path])
  }

  /** The base imports of `paths`, reserved one after another, and the table they leave. */
  function ReserveAll(aliases: map<string, string>, paths: seq<string>): (seq<GoPackage>, map<string, string>)
  {
    if |paths| == 0 then ([], aliases)
    else
      var prev := ReserveAll(aliases, paths[..|paths| - 1]);
      var next := ReserveOne(prev.1, paths[|paths| - 1]);
      (prev.0 + [next.0], next.1)
  }

  /** Reserving one more path of a list extends the reservation of the paths before it. */
  lemma ReserveAllSnoc(aliases: map<string, string>, paths: seq<string>, k: nat)
    requires k <= |paths|
    ensures k == |paths| ==> ReserveAll(aliases, paths[..k]) == ReserveAll(aliases, paths)
    ensures k < |paths| ==>
      var prev := ReserveAll(aliases, paths[..k]);
      var next := ReserveOne(prev.1, paths[k]);
      ReserveAll(aliases, paths[..k + 1]) == (prev.0 + [next.0], next.1)
  {
    assert paths[..|paths|] == paths;
    if k < |paths| {
      assert paths[..k + 1][..k] == paths[..k];
    }
  }

  /**
   * Reserving distinct paths one after another lists them in order, each named by
   * its `path.Base` and reachable through its effective alias, and keeps every
   * earlier binding of the table.
   */
  lemma {:induction false} ReserveAllReserved(aliases: map<string, string>, paths: seq<string>)
    requires DistinctStrings(paths)
    ensures |ReserveAll(aliases, paths).0| == |paths|
    ensures ReservedAsListed(ReserveAll(aliases, paths).0, paths, ReserveAll(aliases, paths).1)
    ensures Extends(ReserveAll(aliases, paths).1, aliases)
  {
    if |paths| > 0 {
      var init := paths[..|paths| - 1];
      ReserveAllReserved(aliases, init);
      var prev := ReserveAll(aliases, init);
      var next := ReserveOne(prev.1, paths[|paths| - 1]);
      assert ReservedAsListed(prev.0, paths, prev.1) by {
        forall k | 0 <= k < |prev.0| ensures prev.0[k].path == paths[k] {
          assert paths[k] == init[k];
        }
      }
      var name := PathBase(paths[|paths| - 1]);
      if !CanReserve(prev.1, name, paths[|paths| - 1]) {
        assert AliasCandidate(name, FirstFree(prev.1, name, paths[|paths| - 1])) != "";
      }
      ReserveNextKeeps(prev.0, paths, prev.1, next.1, next.0);
    }
  }

  /**
   * Reserves the alias of one base import: its `path.Base` name if the registry
   * accepts it (the alias stays empty), otherwise "name_0", "name_1", ... until
   * one is accepted. Only finitely many aliases are taken, so one is.
   */
  method ReserveBaseImport(reg: Registry, path: string) returns (pkg: GoPackage)
    modifies reg
    ensures pkg.path == path && pkg.name == PathBase(path)
    ensures CanReserve(old(reg.aliases), pkg.name, path) ==> pkg.alias == ""
    ensures !CanReserve(old(reg.aliases), pkg.name, path) ==>
      exists i: nat ::
        && pkg.alias == AliasCandidate(pkg.name, i)
        && CanReserve(old(reg.aliases), pkg.alias, path)
        && forall j :: 0 <= j < i ==> !CanReserve(old(reg.aliases), AliasCandidate(pkg.name, j), path)
    ensures CanReserve(old(reg.aliases), EffectiveAlias(pkg), path)
    ensures reg.aliases == old(reg.aliases)[EffectiveAlias(pkg) := path]
    ensures (pkg, reg.aliases) == ReserveOne(old(reg.aliases), path)
  {
    var name := PathBase(path);
    pkg := GoPackage(path, name, "");
    var ok := reg.Reserve(name, path);
    if !ok {
      var alias, n := ReserveFallbackAlias(reg, name, path);
      FirstFreeUnique(old(reg.aliases), name, path, n);
      pkg := pkg.(alias := alias);
    }
  }

  /** The retry loop of the construction: reserves the first fallback alias "name_i" that is free for `path`. */
  method ReserveFallbackAlias(reg: Registry, name: string, path: string) returns (alias: string, ghost n: nat)
    modifies reg
    ensures alias == AliasCandidate(name, n)
    ensures CanReserve(old(reg.aliases), alias, path)
    ensures forall j :: 0 <= j < n ==> !CanReserve(old(reg.aliases), AliasCandidate(name, j), path)
    ensures reg.aliases == old(reg.aliases)[alias := path]
  {
    var i: nat := 0;
    while true
      invariant reg.aliases == old(reg.aliases)
      invariant forall j :: 0 <= j < i ==> !CanReserve(old(reg.aliases), AliasCandidate(name, j), path)
      decreases |reg.aliases.Keys| - i
    {
      alias := AliasCandidate(name, i);
      var ok := reg.Reserve(alias, path);
      if ok {
        return alias, i;
      }
      CandidatesTaken(reg.aliases, name, path, i + 1);
      i := i + 1;
    }
  }


  /**
   * The first |imports| import paths as construction leaves them: the listed
   * paths in order, each named by its `path.Base`, with the alias table binding
   * each import's effective alias to its path.
   */
  predicate ReservedAsListed(imports: seq<GoPackage>, paths: seq<string>, aliases: map<string, string>)
  {
    && |imports| <= |paths|
    && (forall k :: 0 <= k < |imports| ==>
          && imports[k].path == paths[k]
          && imports[k].name == PathBase(paths[k])
          && EffectiveAlias(imports[k]) in aliases
          && aliases[EffectiveAlias(imports[k])] == imports[k].path)
  }

  /** What construction guarantees of the base imports: all of them are reserved as listed. */
  predicate BaseImportsReserved(imports: seq<GoPackage>, aliases: map<string, string>)
  {
    |imports| == |BaseImportPaths| && ReservedAsListed(imports, BaseImportPaths, aliases)
  }

  predicate DistinctStrings(paths: seq<string>)
  {
    forall k, k' :: 0 <= k < k' < |paths| ==> paths[k] != paths[k']
  }

  /** Reserving the next import keeps the earlier ones and the registry's earlier aliases. */
  lemma ReserveNextKeeps(imports: seq<GoPackage>, paths: seq<string>, before: map<string, string>,
                         after: map<string, string>, pkg: GoPackage)
    requires DistinctStrings(paths)
    requires ReservedAsListed(imports, paths, before) && |imports| < |paths|
    requires pkg.path == paths[|imports|] && pkg.name == PathBase(pkg.path)
    requires CanReserve(before, EffectiveAlias(pkg), pkg.path)
    requires after == before[EffectiveAlias(pkg) := pkg.path]
    ensures ReservedAsListed(imports + [pkg], paths, after)
    ensures Extends(after, before)
  {
    var n := |imports|;
    var xs := imports + [pkg];
    var a := EffectiveAlias(pkg);
    forall k | 0 <= k < |xs|
      ensures xs[k].path == paths[k] && xs[k].name == PathBase(paths[k])
      ensures EffectiveAlias(xs[k]) in after && after[EffectiveAlias(xs[k])] == xs[k].path
    {
      if k < n {
        assert xs[k] == imports[k];
        assert before[EffectiveAlias(imports[k])] == paths[k] != paths[n];
        assert EffectiveAlias(imports[k]) != a;
      }
    }
  }

  lemma BaseImportPathsDistinct()
    ensures DistinctStrings(BaseImportPaths)
  {
  }

  /** No two base imports are known by the same name in generated code. */
  lemma EffectiveAliasesDistinct(imports: seq<GoPackage>, aliases: map<string, string>)
    requires BaseImportsReserved(imports, aliases)
    ensures forall k, k' :: 0 <= k < k' < |imports| ==> EffectiveAlias(imports[k]) != EffectiveAlias(imports[k'])
  {
    BaseImportPathsDistinct();
    forall k, k' | 0 <= k < k' < |imports|
      ensures EffectiveAlias(imports[k]) != EffectiveAlias(imports[k'])
    {
      assert imports[k].path != imports[k'].path;
    }
  }

  /**
   * New: reserves the base imports' aliases in order, then parses the path type;
   * an unknown path type is fatal (None). The registry keeps every earlier alias.
   */
  method New(reg: Registry, useRequestContext: bool, registerFuncSuffix: string, pathTypeString: string,
             modulePath: string, allowPatchFeature: bool) returns (g: Option<Generator>)
    modifies reg
    ensures Extends(reg.aliases, old(reg.aliases))
    ensures reg.aliases == ReserveAll(old(reg.aliases), BaseImportPaths).1
    ensures g.None? <==> ParsePathType(pathTypeString).None?
    ensures g.Some? ==>
      && g.value.reg == reg
      && g.value.baseImports == ReserveAll(old(reg.aliases), BaseImportPaths).0
      && BaseImportsReserved(g.value.baseImports, reg.aliases)
      && g.value.pathType == ParsePathType(pathTypeString).value
      && g.value.useRequestContext == useRequestContext
      && g.value.registerFuncSuffix == registerFuncSuffix
      && g.value.modulePath == modulePath
      && g.value.allowPatchFeature == allowPatchFeature
  {
    var imports: seq<GoPackage> := [];
    BaseImportPathsDistinct();
    for k := 0 to |BaseImportPaths|
      invariant (imports, reg.aliases) == ReserveAll(old(reg.aliases), BaseImportPaths[..k])
    {
      var pkg := ReserveBaseImport(reg, BaseImportPaths[k]);
      ReserveAllSnoc(old(reg.aliases), BaseImportPaths, k);
      imports := imports + [pkg];
    }
    ReserveAllSnoc(old(reg.aliases), BaseImportPaths, |BaseImportPaths|);
    ReserveAllReserved(old(reg.aliases), BaseImportPaths);
    var pathType := ParsePathType(pathTypeString);
    if pathType.None? {
      return None;
    }
    g := Some(Generator(reg, imports, useRequestContext, registerFuncSuffix, pathType.value,
                        modulePath, allowPatchFeature));
  }

  /** filepath.Join of a directory and a base name, for already clean inputs. */
  function JoinPath(dir: string, elem: string): (r: string)
    ensures dir == "" ==> r == elem
    ensures dir != "" ==>
      var n := |r| - |elem| - 1;
      && 0 <= n && r[n] == '/' && r[n + 1..] == elem
      && HasPrefix(dir, r[..n]) && (forall k :: n <= k < |dir| ==> dir[k] == '/')
      && (n == 0 || r[n - 1] != '/')
  {
    if dir == "" then elem else TrimTrailingSlashes(dir) + "/" + elem
  }

  /**
   * getFilePath: a module prefix cannot be combined with another path type; with a
   * module prefix the Go package path must lie under it and the prefix is cut off;
   * with import paths the Go package path is the directory; otherwise the proto
   * file name is kept.
   */
  function GetFilePath(g: Generator, file: File): (r: Result<string, GenError>)
    ensures r == Err(ModulePathConflict) <==> g.modulePath != "" && g.pathType != Import
    ensures r.Err? && r.error.ModulePrefixMismatch? <==>
      g.modulePath != "" && g.pathType == Import && !HasPrefix(file.goPkg.path + "/", g.modulePath + "/")
    ensures g.modulePath == "" && (g.pathType == SourceRelative || file.goPkg.path == "") ==> r == Ok(file.name)
  {
    var name := file.name;
    if g.modulePath != "" && g.pathType != Import then
      Err(ModulePathConflict)
    else if g.modulePath != "" then
      var trimPath := g.modulePath + "/";
      var pkgPath := file.goPkg.path + "/";
      if !HasPrefix(pkgPath, trimPath) then Err(ModulePrefixMismatch(file.goPkg.path, trimPath))
      else Ok(JoinPath(TrimPrefix(pkgPath, trimPath), PathBase(name)))
    else if g.pathType == Import && file.goPkg.path != "" then
      Ok(file.goPkg.path + "/" + PathBase(name))
    else
      Ok(name)
  }

  /**
   * The output path is the file's base name under its Go package path: directly
   * with import paths, and relative to the module prefix when one is set (the base
   * name alone when the package is the module itself).
   */
  lemma GetFilePathUnderPackage(g: Generator, file: File)
    requires g.pathType == Import && file.goPkg.path != ""
    requires g.modulePath != "" ==> file.goPkg.path[|file.goPkg.path| - 1] != '/'
    requires g.modulePath != "" ==> HasPrefix(file.goPkg.path + "/", g.modulePath + "/")
    ensures GetFilePath(g, file).Ok?
    ensures g.modulePath == "" ==> GetFilePath(g, file).value == file.goPkg.path + "/" + PathBase(file.name)
    ensures g.modulePath != "" && file.goPkg.path == g.modulePath ==>
      GetFilePath(g, file).value == PathBase(file.name)
    ensures g.modulePath != "" && file.goPkg.path != g.modulePath ==>
      g.modulePath + "/" + GetFilePath(g, file).value == file.goPkg.path + "/" + PathBase(file.name)
  {
    if g.modulePath != "" {
      var path := file.goPkg.path;
      var trimPath := g.modulePath + "/";
      if path != g.modulePath {
        ModuleRelativeJoin(path, g.modulePath, PathBase(file.name));
      } else {
        assert TrimPrefix(path + "/", trimPath) == "";
      }
    }
  }

  /** Cutting the module prefix off a package path under it and joining a base name puts the prefix back. */
  lemma ModuleRelativeJoin(path: string, modulePath: string, base: string)
    requires path != "" && path[|path| - 1] != '/' && path != modulePath
    requires HasPrefix(path + "/", modulePath + "/")
    ensures modulePath + "/" + JoinPath(TrimPrefix(path + "/", modulePath + "/"), base) == path + "/" + base
  {
    var trimPath := modulePath + "/";
    var rest := TrimPrefix(path + "/", trimPath);
    assert rest == (path + "/")[|trimPath|..];
    SlashPrefixSameLength(path, modulePath);
    assert rest == path[|trimPath|..] + "/";
    assert TrimTrailingSlashes(rest) == path[|trimPath|..];
    assert modulePath + "/" + path[|trimPath|..] == path by {
      assert path[..|trimPath|] == trimPath;
    }
  }

  /** Two paths of one length, one a "/"-terminated prefix of the other, are equal. */
  lemma SlashPrefixSameLength(a: string, b: string)
    requires HasPrefix(a + "/", b + "/")
    ensures |b| <= |a|
    ensures |a| == |b| ==> a == b
  {
    if |a| == |b| {
      assert a == (a + "/")[..|a|];
      assert b == (b + "/")[..|b|];
    }
  }

  /** The base imports and their paths, as every generation step starts them. */
  method SeedImports(g: Generator) returns (imports: seq<GoPackage>, seen: set<string>)
    ensures imports == g.baseImports && seen == Paths(g.baseImports)
  {
    imports := [];
    seen := {};
    for k := 0 to |g.baseImports|
      invariant imports == g.baseImports[..k] && seen == Paths(g.baseImports[..k])
    {
      seen := seen + {g.baseImports[k].path};
      imports := imports + [g.baseImports[k]];
      assert g.baseImports[..k + 1] == g.baseImports[..k] + [g.baseImports[k]];
      PathsConcat(g.baseImports[..k], [g.baseImports[k]]);
    }
    assert g.baseImports[..|g.baseImports|] == g.baseImports;
  }

  /** The enum imports of one binding's path parameters. */
  method AddParamImports(g: Generator, home: GoPackage, ps: seq<Parameter>, imports: seq<GoPackage>, seen: set<string>)
    returns (imports': seq<GoPackage>, seen': set<string>)
    ensures ImportSet(imports', seen') == Dedup(ParamCands(g.reg, home, ps), ImportSet(imports, seen))
  {
    imports' := imports;
    seen' := seen;
    for j := 0 to |ps|
      invariant ImportSet(imports', seen') == Dedup(ParamCands(g.reg, home, ps[..j]), ImportSet(imports, seen))
    {
      var p := ps[j];
      var e := LookupEnum(g.reg, p);
      if e.Some? {
        var pkg := e.value.filePkg;
        if !(pkg == home || pkg.path in seen') {
          seen' := seen' + {pkg.path};
          imports' := imports' + [pkg];
        }
      }
      assert ps[..j + 1][..j] == ps[..j];
      assert [p][..0] == [];
      DedupAppend(ParamCands(g.reg, home, ps[..j]), ParamCands(g.reg, home, [p]), ImportSet(imports, seen));
    }
    assert ps[..|ps|] == ps;
  }

  /**
   * addEnumPathParamImports: the packages of the enums that the method's path
   * parameters resolve to, skipping lookup misses, the file's own package and
   * paths already seen; `seen` is the shared `pkgSeen` map, passed in and out.
   */
  method AddEnumPathParamImports(g: Generator, file: File, m: Method, seen: set<string>)
    returns (imports: seq<GoPackage>, seen': set<string>)
    ensures ImportSet(imports, seen') == Dedup(BindingCands(g.reg, file.goPkg, m.bindings), ImportSet([], seen))
  {
    var home := file.goPkg;
    imports := [];
    seen' := seen;
    for i := 0 to |m.bindings|
      invariant ImportSet(imports, seen') == Dedup(BindingCands(g.reg, home, m.bindings[..i]), ImportSet([], seen))
    {
      var b := m.bindings[i];
      imports, seen' := AddParamImports(g, home, b.pathParams, imports, seen');
      assert m.bindings[..i + 1][..i] == m.bindings[..i];
      DedupAppend(BindingCands(g.reg, home, m.bindings[..i]), ParamCands(g.reg, home, b.pathParams), ImportSet([], seen));
    }
    assert m.bindings[..|m.bindings|] == m.bindings;
  }

  /**
   * The per-method step shared by `generate` and `generateService`: the enum
   * imports, then the request message's package if the method is bound.
   */
  method AddMethodImports(g: Generator, file: File, m: Method, imports: seq<GoPackage>, seen: set<string>)
    returns (imports': seq<GoPackage>, seen': set<string>)
    ensures ImportSet(imports', seen') == Dedup(MethodCands(g.reg, file.goPkg, m), ImportSet(imports, seen))
  {
    var enumImports, seen1 := AddEnumPathParamImports(g, file, m, seen);
    DedupPrefix(BindingCands(g.reg, file.goPkg, m.bindings), imports, seen);
    imports' := imports + enumImports;
    seen' := seen1;
    var pkg := m.request.filePkg;
    var request := if |m.bindings| > 0 then [Candidate(pkg, file.goPkg)] else [];
    DedupAppend(BindingCands(g.reg, file.goPkg, m.bindings), request, ImportSet(imports, seen));
    if !(|m.bindings| == 0 || pkg == file.goPkg || pkg.path in seen') {
      seen' := seen' + {pkg.path};
      imports' := imports' + [pkg];
    }
    assert [Candidate(pkg, file.goPkg)][..0] == [];
  }

  /** The import walk over one service's methods. */
  method AddServiceImports(g: Generator, file: File, svc: Service, imports: seq<GoPackage>, seen: set<string>)
    returns (imports': seq<GoPackage>, seen': set<string>)
    ensures ImportSet(imports', seen') == Dedup(MethodsCands(g.reg, file.goPkg, svc.methods), ImportSet(imports, seen))
  {
    var home := file.goPkg;
    imports' := imports;
    seen' := seen;
    for j := 0 to |svc.methods|
      invariant ImportSet(imports', seen') == Dedup(MethodsCands(g.reg, home, svc.methods[..j]), ImportSet(imports, seen))
    {
      var m := svc.methods[j];
      imports', seen' := AddMethodImports(g, file, m, imports', seen');
      assert svc.methods[..j + 1][..j] == svc.methods[..j];
      DedupAppend(MethodsCands(g.reg, home, svc.methods[..j]), MethodCands(g.reg, home, m), ImportSet(imports, seen));
    }
    assert svc.methods[..|svc.methods|] == svc.methods;
  }

  /** The import walk over one file's services and methods. */
  method AddFileImports(g: Generator, file: File, imports: seq<GoPackage>, seen: set<string>)
    returns (imports': seq<GoPackage>, seen': set<string>)
    ensures ImportSet(imports', seen') == Dedup(FileCands(g.reg, file), ImportSet(imports, seen))
  {
    var home := file.goPkg;
    imports' := imports;
    seen' := seen;
    for i := 0 to |file.services|
      invariant ImportSet(imports', seen')
        == Dedup(ServicesCands(g.reg, home, file.services[..i]), ImportSet(imports, seen))
    {
      var svc := file.services[i];
      imports', seen' := AddServiceImports(g, file, svc, imports', seen');
      assert file.services[..i + 1][..i] == file.services[..i];
      DedupAppend(ServicesCands(g.reg, home, file.services[..i]), MethodsCands(g.reg, home, svc.methods), ImportSet(imports, seen));
    }
    assert file.services[..|file.services|] == file.services;
  }

  /** The import list `generate` computes for one file (and hands to applyTemplate). */
  method FileImports(g: Generator, file: File) returns (imports: seq<GoPackage>)
    ensures imports == Dedup(FileCands(g.reg, file), ImportSet(g.baseImports, Paths(g.baseImports))).imports
  {
    var base, seen := SeedImports(g);
    var seen';
    imports, seen' := AddFileImports(g, file, base, seen);
  }

  /** The import list `generateService` computes over all the files, each against its own package. */
  method ServiceFilesImports(g: Generator, files: seq<File>) returns (imports: seq<GoPackage>)
    ensures imports == Dedup(FilesCands(g.reg, files), ImportSet(g.baseImports, Paths(g.baseImports))).imports
  {
    var seen;
    imports, seen := SeedImports(g);
    ghost var start := ImportSet(imports, seen);
    for k := 0 to |files|
      invariant ImportSet(imports, seen) == Dedup(FilesCands(g.reg, files[..k]), start)
    {
      imports, seen := AddFileImports(g, files[k], imports, seen);
      assert files[..k + 1][..k] == files[..k];
      DedupAppend(FilesCands(g.reg, files[..k]), FileCands(g.reg, files[k]), start);
    }
    assert files[..|files|] == files;
  }

  /**
   * The imports `generate` computes: the base imports first, then packages with
   * pairwise-distinct paths that are new, none of them the file's own package,
   * each one a candidate of the file.
   */
  lemma FileImportsProps(g: Generator, file: File)
    requires DistinctPaths(g.baseImports)
    ensures var r := Dedup(FileCands(g.reg, file), ImportSet(g.baseImports, Paths(g.baseImports))).imports;
      && g.baseImports <= r
      && DistinctPaths(r)
      && (forall k :: |g.baseImports| <= k < |r| ==> r[k] != file.goPkg && r[k].path !in Paths(g.baseImports))
  {
    var cs := FileCands(g.reg, file);
    var st := ImportSet(g.baseImports, Paths(g.baseImports));
    DedupProps(cs, st);
    DedupDistinct(cs, g.baseImports);
    FileCandsHome(g.reg, file);
  }

  /** The run-wide parameters (OutputPath, absent from the parameter record, is a separate input). */
  datatype Params = Params(
    generateService: bool,
    metricsPackage: string,
    errorEncoder: string,
    packageName: string,
    registerFuncSuffix: string)

  /** One emitted file. */
  datatype OutFile = OutFile(name: string, content: string)

  /** The package name of the generated code: the last component of the output path. */
  function OutputPackageName(outputPath: string): (r: string)
    ensures r == Last(Split(outputPath, '/'))
    ensures '/' !in r && |r| <= |outputPath| && r == outputPath[|outputPath| - |r|..]
  {
    SplitLastIsLastComponent(outputPath, '/');
    LastComponent(outputPath, '/')
  }

  /** The settings `generate` hands to applyTemplate. */
  function FileSettings(g: Generator, p: Params, outputPath: string): (r: Settings)
    ensures r.useRequestContext == g.useRequestContext && r.registerFuncSuffix == g.registerFuncSuffix
    ensures r.allowPatchFeature == g.allowPatchFeature && r.outputPath == outputPath
    ensures r.metrics == p.metricsPackage && r.errorEncoder == p.errorEncoder
    ensures r.packageName == OutputPackageName(outputPath)
  {
    Settings(g.useRequestContext, g.registerFuncSuffix, g.allowPatchFeature, outputPath,
             p.metricsPackage, p.errorEncoder, OutputPackageName(outputPath))
  }

  /** The settings `generateService`, `generateRouter` and `generateEndpoints` hand on (no error encoder). */
  function SharedSettings(g: Generator, p: Params, outputPath: string): (r: Settings)
    ensures r == FileSettings(g, p, outputPath).(errorEncoder := "")
    ensures r.errorEncoder == "" && r.packageName == OutputPackageName(outputPath)
  {
    Settings(g.useRequestContext, g.registerFuncSuffix, g.allowPatchFeature, outputPath,
             p.metricsPackage, "", OutputPackageName(outputPath))
  }

  /**
   * The output name of a proto file: the output path, "/", the last component of
   * the file name, the extension (of that joined name) replaced by ".gm.go".
   */
  function OutputName(outputPath: string, fileName: string): string
  {
    var name := outputPath + "/" + LastComponent(fileName, '/');
    TrimSuffix(name, Ext(name)) + ".gm" + ".go"
  }

  /** Taking the extension of the joined name is taking it of the file's last component. */
  lemma OutputNameIsBaseWithoutExt(outputPath: string, fileName: string)
    ensures var last := LastComponent(fileName, '/');
      OutputName(outputPath, fileName) == outputPath + "/" + TrimSuffix(last, Ext(last)) + ".gm.go"
  {
    var last := LastComponent(fileName, '/');
    var pre := outputPath + "/";
    var name := pre + last;
    ExtAfterSlash(pre, last);
    TrimSuffixOfConcat(pre, last, Ext(last));
    var core := TrimSuffix(last, Ext(last));
    assert TrimSuffix(name, Ext(name)) == pre + core;
    AppendSuffixes(pre, core);
  }

  lemma AppendSuffixes(pre: string, core: string)
    ensures pre + core + ".gm" + ".go" == pre + core + ".gm.go"
  {
  }

  const ServiceOutput: string := "service.gm" + ".go"
  const RoutesOutput: string := "routes.gm" + ".go"
  const EndpointsOutput: string := "endpoints.gm" + ".go"

  /** The formatted code of one generated unit, or why it could not be produced. */
  function Formatted(code: Result<string, GenError>, env: Env): (r: Result<string, GenError>)
    ensures code.Err? ==> r == code
  {
    if code.Err? then code
    else
      var f := env.format(code.value);
      if f.Err? then Err(FormatError(f.error)) else Ok(f.value)
  }

  /** What one target file contributes to the per-file stage. */
  datatype Step = Skip | Fail(error: GenError) | Produce(out: OutFile)

  /**
   * One file's step: a file whose generation finds no target service is skipped;
   * any other error, or a formatting error, fails; otherwise the formatted code is
   * produced under the file's output name.
   */
  function FileKind(g: Generator, file: File, s: Settings, outputPath: string, env: Env): (r: Step)
    ensures r.Skip? <==> KitOutcome(file, s, g.reg, env) == Err(NoTargetService)
    ensures r.Fail? ==>
      && KitOutcome(file, s, g.reg, env) != Err(NoTargetService)
      && Formatted(KitOutcome(file, s, g.reg, env), env) == Err(r.error)
    ensures r.Produce? ==>
      && r.out.name == OutputName(outputPath, file.name)
      && Formatted(KitOutcome(file, s, g.reg, env), env) == Ok(r.out.content)
    ensures !r.Fail? ==> HeaderRenders(file, s, env)
  {
    var code := KitOutcome(file, s, g.reg, env);
    if code == Err(NoTargetService) then Skip
    else
      var f := Formatted(code, env);
      if f.Err? then Fail(f.error) else Produce(OutFile(OutputName(outputPath, file.name), f.value))
  }

  /** The steps of the files, in order. */
  function FileKinds(g: Generator, files: seq<File>, s: Settings, outputPath: string, env: Env): (r: seq<Step>)
    ensures |r| == |files|
  {
    seq(|files|, k requires 0 <= k < |files| => FileKind(g, files[k], s, outputPath, env))
  }

  /** The position of the first failing step, or the number of steps when none fails. */
  function FirstFail(steps: seq<Step>): (r: nat)
    ensures r <= |steps|
    ensures r < |steps| ==> steps[r].Fail?
    ensures forall j :: 0 <= j < r ==> !steps[j].Fail?
  {
    if |steps| == 0 then 0
    else if steps[0].Fail? then 0
    else
      var r := 1 + FirstFail(steps[1..]);
      assert forall j :: 1 <= j < r ==> steps[j] == steps[1..][j - 1];
      r
  }

  /** One step applied to the outputs produced so far: the first failure sticks. */
  function StepInto(outs: Result<seq<OutFile>, GenError>, step: Step): Result<seq<OutFile>, GenError>
  {
    if outs.Err? then outs
    else
      match step
      case Skip => outs
      case Fail(e) => Err(e)
      case Produce(o) => Ok(outs.value + [o])
  }

  /** The steps applied in order, starting from no outputs. */
  function FoldSteps(steps: seq<Step>): Result<seq<OutFile>, GenError>
  {
    if |steps| == 0 then Ok([])
    else StepInto(FoldSteps(steps[..|steps| - 1]), steps[|steps| - 1])
  }

  /** The per-file part of Generate. */
  function FilesOutcome(g: Generator, files: seq<File>, s: Settings, outputPath: string, env: Env): Result<seq<OutFile>, GenError>
  {
    FoldSteps(FileKinds(g, files, s, outputPath, env))
  }

  /** Appends one fixed-name output, or fails with the unit's error. */
  function Emit(outs: Result<seq<OutFile>, GenError>, code: Result<string, GenError>, outputPath: string,
                base: string, env: Env): Result<seq<OutFile>, GenError>
  {
    if outs.Err? then outs
    else
      var f := Formatted(code, env);
      if f.Err? then Err(f.error) else Ok(outs.value + [OutFile(outputPath + "/" + base, f.value)])
  }

  /** The per-file outputs followed by the service (when requested), routes and endpoints units. */
  function Assemble(perFile: Result<seq<OutFile>, GenError>, generateService: bool, service: Result<string, GenError>,
                    routes: Result<string, GenError>, endpoints: Result<string, GenError>, outputPath: string,
                    env: Env): Result<seq<OutFile>, GenError>
  {
    var withService := if generateService then Emit(perFile, service, outputPath, ServiceOutput, env) else perFile;
    var withRoutes := Emit(withService, routes, outputPath, RoutesOutput, env);
    Emit(withRoutes, endpoints, outputPath, EndpointsOutput, env)
  }

  /** Everything Generate returns. */
  function GenerateOutcome(g: Generator, targets: seq<File>, p: Params, outputPath: string, env: Env): Result<seq<OutFile>, GenError>
  {
    var shared := SharedSettings(g, p, outputPath);
    Assemble(FilesOutcome(g, targets, FileSettings(g, p, outputPath), outputPath, env), p.generateService,
             ServiceOutcome(targets, shared, g.reg, env), ApplyRoutesTemplate(shared, env),
             ApplyEndpointsTemplate(shared, env), outputPath, env)
  }

  /** `generate`: the import walk (whose list applyTemplate replaces), then applyTemplate. */
  method GenerateFile(g: Generator, file: File, s: Settings, env: Env) returns (r: Result<string, GenError>)
    requires file.Distinct()
    modifies file.Footprint()
    ensures r == KitOutcome(file, s, g.reg, env)
    ensures NamesOf(file) == if HeaderRenders(file, s, env) then Cased(old(NamesOf(file)), env.camel) else old(NamesOf(file))
  {
    var imports := FileImports(g, file);
    r := ApplyTemplate(file, imports, s, g.reg, env);
  }

  /** `generateService`: the import walk over all files, then applyServiceTemplate. */
  method GenerateService(g: Generator, files: seq<File>, s: Settings, env: Env) returns (r: Result<string, GenError>)
    requires DistinctMessages(AllMessages(files)) && DistinctServices(AllServices(files))
    modifies MessageObjects(AllMessages(files)), ServiceObjects(AllServices(files))
    ensures r == ServiceOutcome(files, s, g.reg, env)
    ensures env.moduleName.Err? ==> FilesNames(files) == old(FilesNames(files))
    ensures env.moduleName.Ok? && !SomeServiceFileNamePanics(AllServices(files)) ==>
      FilesNames(files) == CasedFiles(old(FilesNames(files)), env.camel)
  {
    var imports := ServiceFilesImports(g, files);
    FilesNamesUnchanged(files);
    r := ApplyServiceTemplate(files, imports, s, g.reg, env);
  }

  /** `generateRouter`: the base imports (unused by the template), then applyRoutesTemplate. */
  method GenerateRouter(g: Generator, s: Settings, env: Env) returns (r: Result<string, GenError>)
    ensures r == ApplyRoutesTemplate(s, env)
  {
    var imports, seen := SeedImports(g);
    r := ApplyRoutesTemplate(s, env);
  }

  /** `generateEndpoints`: the base imports (unused by the template), then applyEndpointsTemplate. */
  method GenerateEndpoints(g: Generator, s: Settings, env: Env) returns (r: Result<string, GenError>)
    ensures r == ApplyEndpointsTemplate(s, env)
  {
    var imports, seen := SeedImports(g);
    r := ApplyEndpointsTemplate(s, env);
  }

  /** Once a step has failed, later steps do not matter. */
  lemma {:induction false} FoldStepsErrSticks(steps: seq<Step>, n: nat)
    requires n <= |steps| && FoldSteps(steps[..n]).Err?
    ensures FoldSteps(steps) == FoldSteps(steps[..n])
    decreases |steps| - n
  {
    if n == |steps| {
      assert steps[..n] == steps;
    } else {
      var init := steps[..|steps| - 1];
      assert init[..n] == steps[..n];
      FoldStepsErrSticks(init, n);
    }
  }

  /** The steps of a prefix of the files are a prefix of their steps. */
  lemma FileKindsPrefix(g: Generator, files: seq<File>, n: nat, s: Settings, outputPath: string, env: Env)
    requires n <= |files|
    ensures FileKinds(g, files[..n], s, outputPath, env) == FileKinds(g, files, s, outputPath, env)[..n]
  {
  }

  /** Once the per-file part has failed, later files do not matter. */
  lemma FilesOutcomeErrSticks(g: Generator, files: seq<File>, n: nat, s: Settings, outputPath: string, env: Env)
    requires n <= |files| && FilesOutcome(g, files[..n], s, outputPath, env).Err?
    ensures FilesOutcome(g, files, s, outputPath, env) == FilesOutcome(g, files[..n], s, outputPath, env)
  {
    FileKindsPrefix(g, files, n, s, outputPath, env);
    FoldStepsErrSticks(FileKinds(g, files, s, outputPath, env), n);
  }

  /** The per-file part over one more file is one more step. */
  lemma FilesOutcomeSnoc(g: Generator, files: seq<File>, i: nat, s: Settings, outputPath: string, env: Env)
    requires i < |files|
    ensures FilesOutcome(g, files[..i + 1], s, outputPath, env)
      == StepInto(FilesOutcome(g, files[..i], s, outputPath, env), FileKind(g, files[i], s, outputPath, env))
  {
    var steps := FileKinds(g, files[..i + 1], s, outputPath, env);
    assert steps[..i] == FileKinds(g, files[..i], s, outputPath, env);
  }

  /**
   * The steps fail exactly when one of them is a failure, and then with the error
   * of the first failure.
   */
  lemma {:induction false} FoldStepsErr(steps: seq<Step>)
    ensures FoldSteps(steps).Err? <==> exists k :: 0 <= k < |steps| && steps[k].Fail?
    ensures FoldSteps(steps).Err? ==>
      exists k :: 0 <= k < |steps| && steps[k].Fail? && FoldSteps(steps).error == steps[k].error
        && forall j :: 0 <= j < k ==> !steps[j].Fail?
  {
    if |steps| > 0 {
      var init := steps[..|steps| - 1];
      var n := |init|;
      FoldStepsErr(init);
      assert forall k :: 0 <= k < n ==> init[k] == steps[k];
      if FoldSteps(init).Err? {
        var k :| 0 <= k < n && init[k].Fail? && FoldSteps(init).error == init[k].error
          && forall j :: 0 <= j < k ==> !init[j].Fail?;
        assert steps[k].Fail?;
      } else if steps[n].Fail? {
        assert forall j :: 0 <= j < n ==> !steps[j].Fail?;
      }
    }
  }

  /** The steps fail exactly when the first failure is one of them, and with its error. */
  lemma FoldStepsFirstFail(steps: seq<Step>)
    ensures FoldSteps(steps).Err? <==> FirstFail(steps) < |steps|
    ensures FoldSteps(steps).Err? ==> FoldSteps(steps).error == steps[FirstFail(steps)].error
  {
    FoldStepsErr(steps);
    if FoldSteps(steps).Err? {
      var k :| 0 <= k < |steps| && steps[k].Fail? && FoldSteps(steps).error == steps[k].error
        && forall j :: 0 <= j < k ==> !steps[j].Fail?;
      assert FirstFail(steps) == k;
    }
  }

  /**
   * When the steps succeed, the outputs are the produced ones, one each, in step
   * order: `idx` lists the positions of the producing steps, and every producing
   * step is listed.
   */
  lemma {:induction false} FoldStepsOk(steps: seq<Step>) returns (idx: seq<nat>)
    requires FoldSteps(steps).Ok?
    ensures forall k :: 0 <= k < |steps| ==> !steps[k].Fail?
    ensures |idx| == |FoldSteps(steps).value| && Increasing(idx)
    ensures forall j :: 0 <= j < |idx| ==>
      idx[j] < |steps| && steps[idx[j]].Produce? && FoldSteps(steps).value[j] == steps[idx[j]].out
    ensures forall k :: 0 <= k < |steps| && steps[k].Produce? ==> k in idx
  {
    FoldStepsErr(steps);
    if |steps| == 0 {
      idx := [];
    } else {
      var n := |steps| - 1;
      var init := steps[..n];
      assert FoldSteps(init).Ok?;
      var idx0 := FoldStepsOk(init);
      assert forall k :: 0 <= k < n ==> init[k] == steps[k];
      if steps[n].Produce? {
        idx := idx0 + [n];
        assert FoldSteps(steps).value == FoldSteps(init).value + [steps[n].out];
      } else {
        idx := idx0;
      }
    }
  }

  /**
   * The assembled result: a per-file failure is the whole result (no files at
   * all); a success lists the per-file outputs first, then service.gm.go when the
   * service is requested, then routes.gm.go and endpoints.gm.go, all under the
   * output path, each holding its formatted code. The first of these units to
   * fail, errNoTargetService of the service unit included, ends the run.
   */
  lemma AssembleShape(perFile: Result<seq<OutFile>, GenError>, generateService: bool, service: Result<string, GenError>,
                      routes: Result<string, GenError>, endpoints: Result<string, GenError>, outputPath: string, env: Env)
    ensures perFile.Err? ==> Assemble(perFile, generateService, service, routes, endpoints, outputPath, env) == perFile
    ensures var r := Assemble(perFile, generateService, service, routes, endpoints, outputPath, env);
      r.Ok? ==>
        && perFile.Ok?
        && |r.value| == |perFile.value| + (if generateService then 3 else 2)
        && r.value[..|perFile.value|] == perFile.value
        && (generateService ==> r.value[|perFile.value|].name == outputPath + "/" + ServiceOutput)
        && r.value[|r.value| - 2].name == outputPath + "/" + RoutesOutput
        && r.value[|r.value| - 1].name == outputPath + "/" + EndpointsOutput
    ensures var r := Assemble(perFile, generateService, service, routes, endpoints, outputPath, env);
      r.Err? && perFile.Ok? ==>
        || (generateService && Formatted(service, env).Err? && r.error == Formatted(service, env).error)
        || (Formatted(routes, env).Err? && r.error == Formatted(routes, env).error)
        || (Formatted(endpoints, env).Err? && r.error == Formatted(endpoints, env).error)
    ensures perFile.Ok? && generateService && Formatted(service, env).Err? ==>
      Assemble(perFile, generateService, service, routes, endpoints, outputPath, env) == Err(Formatted(service, env).error)
    ensures perFile.Ok? && (!generateService || Formatted(service, env).Ok?) && Formatted(routes, env).Err? ==>
      Assemble(perFile, generateService, service, routes, endpoints, outputPath, env) == Err(Formatted(routes, env).error)
    ensures perFile.Ok? && (!generateService || Formatted(service, env).Ok?) && Formatted(routes, env).Ok?
            && Formatted(endpoints, env).Err? ==>
      Assemble(perFile, generateService, service, routes, endpoints, outputPath, env) == Err(Formatted(endpoints, env).error)
    ensures var r := Assemble(perFile, generateService, service, routes, endpoints, outputPath, env);
      r.Ok? ==>
        && (generateService ==> Formatted(service, env) == Ok(r.value[|perFile.value|].content))
        && Formatted(routes, env) == Ok(r.value[|r.value| - 2].content)
        && Formatted(endpoints, env) == Ok(r.value[|r.value| - 1].content)
  {
  }

  /**
   * Generate aborts with the error of the first target file whose generation or
   * formatting fails (for a reason other than having no target service).
   */
  lemma GenerateAbortsAtFirstFailure(g: Generator, targets: seq<File>, p: Params, outputPath: string, env: Env, k: nat)
    requires k < |targets|
    requires var steps := FileKinds(g, targets, FileSettings(g, p, outputPath), outputPath, env);
      steps[k].Fail? && forall j :: 0 <= j < k ==> !steps[j].Fail?
    ensures GenerateOutcome(g, targets, p, outputPath, env)
      == Err(FileKinds(g, targets, FileSettings(g, p, outputPath), outputPath, env)[k].error)
  {
    var steps := FileKinds(g, targets, FileSettings(g, p, outputPath), outputPath, env);
    FoldStepsErr(steps);
    var shared := SharedSettings(g, p, outputPath);
    AssembleShape(FoldSteps(steps), p.generateService, ServiceOutcome(targets, shared, g.reg, env),
                  ApplyRoutesTemplate(shared, env), ApplyEndpointsTemplate(shared, env), outputPath, env);
  }

  /**
   * A successful assembly over per-file steps: no step failed, and the outputs
   * are those of the produced steps in order, followed by the fixed-name units.
   */
  lemma AssembleOutputs(steps: seq<Step>, generateService: bool, service: Result<string, GenError>,
                        routes: Result<string, GenError>, endpoints: Result<string, GenError>, outputPath: string,
                        env: Env) returns (idx: seq<nat>)
    requires Assemble(FoldSteps(steps), generateService, service, routes, endpoints, outputPath, env).Ok?
    ensures var r := Assemble(FoldSteps(steps), generateService, service, routes, endpoints, outputPath, env).value;
      && (forall k :: 0 <= k < |steps| ==> !steps[k].Fail?)
      && Increasing(idx)
      && |r| == |idx| + (if generateService then 3 else 2)
      && (forall j :: 0 <= j < |idx| ==> idx[j] < |steps| && steps[idx[j]].Produce? && r[j] == steps[idx[j]].out)
      && (forall k :: 0 <= k < |steps| && steps[k].Produce? ==> k in idx)
      && (generateService ==> r[|idx|].name == outputPath + "/" + ServiceOutput)
      && r[|r| - 2].name == outputPath + "/" + RoutesOutput
      && r[|r| - 1].name == outputPath + "/" + EndpointsOutput
  {
    AssembleShape(FoldSteps(steps), generateService, service, routes, endpoints, outputPath, env);
    idx := FoldStepsOk(steps);
  }

  /**
   * A successful run emits, in target order, the output of every file that is not
   * skipped, then service.gm.go when requested, then routes.gm.go and endpoints.gm.go.
   */
  lemma GenerateOutputs(g: Generator, targets: seq<File>, p: Params, outputPath: string, env: Env) returns (idx: seq<nat>)
    requires GenerateOutcome(g, targets, p, outputPath, env).Ok?
    ensures var steps := FileKinds(g, targets, FileSettings(g, p, outputPath), outputPath, env);
      var r := GenerateOutcome(g, targets, p, outputPath, env).value;
      && (forall k :: 0 <= k < |steps| ==> !steps[k].Fail?)
      && Increasing(idx)
      && |r| == |idx| + (if p.generateService then 3 else 2)
      && (forall j :: 0 <= j < |idx| ==> idx[j] < |steps| && steps[idx[j]].Produce? && r[j] == steps[idx[j]].out)
      && (forall k :: 0 <= k < |steps| && steps[k].Produce? ==> k in idx)
      && (p.generateService ==> r[|idx|].name == outputPath + "/" + ServiceOutput)
      && r[|r| - 2].name == outputPath + "/" + RoutesOutput
      && r[|r| - 1].name == outputPath + "/" + EndpointsOutput
  {
    var steps := FileKinds(g, targets, FileSettings(g, p, outputPath), outputPath, env);
    var shared := SharedSettings(g, p, outputPath);
    idx := AssembleOutputs(steps, p.generateService, ServiceOutcome(targets, shared, g.reg, env),
                           ApplyRoutesTemplate(shared, env), ApplyEndpointsTemplate(shared, env), outputPath, env);
  }

  /**
   * The names of the files after the per-file loop has handled the first `n` of
   * them: each of those whose header renders is camel-cased, the rest keep their
   * names.
   */
  function Processed(ts: seq<NameTable>, files: seq<File>, n: nat, s: Settings, env: Env): (r: seq<NameTable>)
    requires |ts| == |files|
  {
    seq(|ts|, k requires 0 <= k < |ts| =>
      if k < n && HeaderRenders(files[k], s, env) then Cased(ts[k], env.camel) else ts[k])
  }

  /** Handling no file changes nothing; handling every file whose header renders cases them all. */
  lemma ProcessedBounds(ts: seq<NameTable>, files: seq<File>, s: Settings, env: Env)
    requires |ts| == |files|
    ensures Processed(ts, files, 0, s, env) == ts
    ensures (forall k :: 0 <= k < |files| ==> HeaderRenders(files[k], s, env)) ==>
      Processed(ts, files, |files|, s, env) == CasedFiles(ts, env.camel)
  {
  }

  lemma ProcessedStep(ts: seq<NameTable>, files: seq<File>, i: nat, s: Settings, env: Env)
    requires |ts| == |files| && i < |files|
    ensures Processed(ts, files, i + 1, s, env) == Processed(ts, files, i, s, env)[i :=
      if HeaderRenders(files[i], s, env) then Cased(ts[i], env.camel) else ts[i]]
  {
  }

  /** Past an all-successful prefix, a failing step is the first failure. */
  lemma FirstFailAfterOkPrefix(steps: seq<Step>, i: nat)
    requires i < |steps| && FoldSteps(steps[..i]).Ok? && steps[i].Fail?
    ensures FirstFail(steps) == i
  {
    FoldStepsErr(steps[..i]);
    assert forall j :: 0 <= j < i ==> steps[..i][j] == steps[j];
  }

  /** Past an all-successful prefix, a failing file ends the per-file part with its error and is the first failure. */
  lemma FilesOutcomeFail(ts: seq<NameTable>, g: Generator, files: seq<File>, i: nat, s: Settings, outputPath: string, env: Env)
    requires |ts| == |files| && i < |files| && FilesOutcome(g, files[..i], s, outputPath, env).Ok?
    requires FileKind(g, files[i], s, outputPath, env).Fail?
    ensures FilesOutcome(g, files, s, outputPath, env) == Err(FileKind(g, files[i], s, outputPath, env).error)
    ensures FirstFail(FileKinds(g, files, s, outputPath, env)) == i
    ensures Processed(ts, files, FirstFail(FileKinds(g, files, s, outputPath, env)) + 1, s, env) == Processed(ts, files, i + 1, s, env)
  {
    FilesOutcomeSnoc(g, files, i, s, outputPath, env);
    FilesOutcomeErrSticks(g, files, i + 1, s, outputPath, env);
    FileKindsPrefix(g, files, i, s, outputPath, env);
    FirstFailAfterOkPrefix(FileKinds(g, files, s, outputPath, env), i);
  }

  /** When every file succeeds, no step fails and every header renders. */
  lemma FilesOutcomeAllRender(g: Generator, files: seq<File>, s: Settings, outputPath: string, env: Env)
    requires FilesOutcome(g, files, s, outputPath, env).Ok?
    ensures FirstFail(FileKinds(g, files, s, outputPath, env)) == |files|
    ensures forall k :: 0 <= k < |files| ==> HeaderRenders(files[k], s, env)
  {
    var steps := FileKinds(g, files, s, outputPath, env);
    FoldStepsFirstFail(steps);
    forall k | 0 <= k < |files| ensures HeaderRenders(files[k], s, env) {
      assert !steps[k].Fail?;
      assert steps[k] == FileKind(g, files[k], s, outputPath, env);
    }
  }

  /** When every file succeeds, every file's names were camel-cased. */
  lemma FilesOutcomeAll(ts: seq<NameTable>, g: Generator, files: seq<File>, s: Settings, outputPath: string, env: Env)
    requires |ts| == |files| && FilesOutcome(g, files, s, outputPath, env).Ok?
    ensures FirstFail(FileKinds(g, files, s, outputPath, env)) == |files|
    ensures Processed(ts, files, |files|, s, env) == CasedFiles(ts, env.camel)
    ensures Processed(ts, files, FirstFail(FileKinds(g, files, s, outputPath, env)) + 1, s, env) == CasedFiles(ts, env.camel)
  {
    FilesOutcomeAllRender(g, files, s, outputPath, env);
    ProcessedBounds(ts, files, s, env);
    ProcessedPast(ts, files, |files| + 1, s, env);
  }

  /** Past the last file, a larger count handles nothing more. */
  lemma ProcessedPast(ts: seq<NameTable>, files: seq<File>, n: nat, s: Settings, env: Env)
    requires |ts| == |files| && |files| <= n
    ensures Processed(ts, files, n, s, env) == Processed(ts, files, |files|, s, env)
  {
  }

  /**
   * One pass of the per-file loop on file `i`: `generate`, then formatting and the
   * output name. File `i` is camel-cased when its header renders; every other file
   * keeps its names.
   */
  method FileStep(g: Generator, targets: seq<File>, i: nat, s: Settings, outputPath: string, env: Env,
                  ghost ts: seq<NameTable>) returns (step: Step)
    requires i < |targets| && targets[i].Distinct()
    requires forall k, k' :: 0 <= k < k' < |targets| ==> targets[k].Footprint() !! targets[k'].Footprint()
    requires |ts| == |targets| && FilesNames(targets) == Processed(ts, targets, i, s, env)
    modifies targets[i].Footprint()
    ensures step == FileKind(g, targets[i], s, outputPath, env)
    ensures FilesNames(targets) == Processed(ts, targets, i + 1, s, env)
  {
    ProcessedStep(ts, targets, i, s, env);
    var file := targets[i];
    var code := GenerateFile(g, file, s, env);
    forall k | 0 <= k < |targets| && k != i ensures NamesOf(targets[k]) == old(NamesOf(targets[k])) {
      assert targets[k].Footprint() !! targets[i].Footprint();
    }
    if code == Err(NoTargetService) {
      return Skip;
    }
    if code.Err? {
      return Fail(code.error);
    }
    var formatted := env.format(code.value);
    if formatted.Err? {
      return Fail(FormatError(formatted.error));
    }
    var name := outputPath + "/" + LastComponent(file.name, '/');
    var ext := Ext(name);
    var base := TrimSuffix(name, ext) + ".gm";
    var output := base + ".go";
    step := Produce(OutFile(output, formatted.value));
  }

  /**
   * The per-file loop of Generate. The files up to and including the first
   * failing one are handled, and those among them whose header renders are
   * camel-cased; the files after it keep their names.
   */
  method GenerateFiles(g: Generator, targets: seq<File>, s: Settings, outputPath: string, env: Env)
    returns (r: Result<seq<OutFile>, GenError>)
    requires forall k :: 0 <= k < |targets| ==> targets[k].Distinct()
    requires forall k, k' :: 0 <= k < k' < |targets| ==> targets[k].Footprint() !! targets[k'].Footprint()
    modifies FilesFootprint(targets)
    ensures r == FilesOutcome(g, targets, s, outputPath, env)
    ensures FilesNames(targets)
      == Processed(old(FilesNames(targets)), targets, FirstFail(FileKinds(g, targets, s, outputPath, env)) + 1, s, env)
    ensures r.Ok? ==> FilesNames(targets) == CasedFiles(old(FilesNames(targets)), env.camel)
  {
    ghost var before := FilesNames(targets);
    ProcessedBounds(before, targets, s, env);
    var files: seq<OutFile> := [];
    for i := 0 to |targets|
      invariant FilesOutcome(g, targets[..i], s, outputPath, env) == Ok(files)
      invariant FilesNames(targets) == Processed(before, targets, i, s, env)
    {
      assert targets[i].Footprint() <= FilesFootprint(targets);
      var step := FileStep(g, targets, i, s, outputPath, env, before);
      if step.Fail? {
        FilesOutcomeFail(before, g, targets, i, s, outputPath, env);
        return Err(step.error);
      }
      FilesOutcomeSnoc(g, targets, i, s, outputPath, env);
      if step.Produce? {
        files := files + [step.out];
      }
    }
    assert targets[..|targets|] == targets;
    FilesOutcomeAll(before, g, targets, s, outputPath, env);
    r := Ok(files);
  }

  /** Formats one fixed-name unit and appends it, or fails with its error. */
  method EmitUnit(files: seq<OutFile>, code: Result<string, GenError>, outputPath: string, base: string, env: Env)
    returns (r: Result<seq<OutFile>, GenError>)
    ensures r == Emit(Ok(files), code, outputPath, base, env)
  {
    if code.Err? {
      return Err(code.error);
    }
    var formatted := env.format(code.value);
    if formatted.Err? {
      return Err(FormatError(formatted.error));
    }
    r := Ok(files + [OutFile(outputPath + "/" + base, formatted.value)]);
  }

  /**
   * The units after the per-file outputs: service.gm.go when requested, then
   * routes.gm.go and endpoints.gm.go; only the service unit renames.
   */
  method GenerateUnits(g: Generator, targets: seq<File>, outs: seq<OutFile>, generateService: bool, shared: Settings,
                       outputPath: string, env: Env, ghost ts: seq<NameTable>)
    returns (r: Result<seq<OutFile>, GenError>)
    requires FilesDistinct(targets)
    requires FilesNames(targets) == CasedFiles(ts, env.camel)
    modifies FilesFootprint(targets)
    ensures r == Assemble(Ok(outs), generateService, ServiceOutcome(targets, shared, g.reg, env),
                          ApplyRoutesTemplate(shared, env), ApplyEndpointsTemplate(shared, env), outputPath, env)
    ensures !(generateService && env.moduleName.Ok?) ==> FilesNames(targets) == CasedFiles(ts, env.camel)
    ensures generateService && env.moduleName.Ok? && !SomeServiceFileNamePanics(AllServices(targets)) ==>
      FilesNames(targets) == CasedFiles(CasedFiles(ts, env.camel), env.camel)
  {
    r := Ok(outs);
    if generateService {
      AllObjectsWithin(targets);
      var code := GenerateService(g, targets, shared, env);
      assert allocated(FilesFootprint(targets));
      label Served:
      r := EmitUnit(outs, code, outputPath, ServiceOutput, env);
      FilesNamesUnchanged@Served(targets);
      if r.Err? {
        return;
      }
    }
    assert allocated(FilesFootprint(targets));
    label Units:
    r := GenerateSharedUnits(g, r.value, shared, outputPath, env);
    FilesNamesUnchanged@Units(targets);
  }

  /** The router and the endpoints units, in that order, after the outputs so far. */
  method GenerateSharedUnits(g: Generator, files: seq<OutFile>, shared: Settings, outputPath: string, env: Env)
    returns (r: Result<seq<OutFile>, GenError>)
    ensures r == Emit(Emit(Ok(files), ApplyRoutesTemplate(shared, env), outputPath, RoutesOutput, env),
                      ApplyEndpointsTemplate(shared, env), outputPath, EndpointsOutput, env)
  {
    var code := GenerateRouter(g, shared, env);
    r := EmitUnit(files, code, outputPath, RoutesOutput, env);
    if r.Ok? {
      code := GenerateEndpoints(g, shared, env);
      r := EmitUnit(r.value, code, outputPath, EndpointsOutput, env);
    }
  }

  /**
   * Generate: the per-file outputs in target order (skipping files without a
   * target service), then service.gm.go when requested, then routes.gm.go and
   * endpoints.gm.go; the first error ends the run with no files.
   */
  method Generate(g: Generator, targets: seq<File>, p: Params, outputPath: string, env: Env)
    returns (r: Result<seq<OutFile>, GenError>)
    requires FilesDistinct(targets)
    modifies FilesFootprint(targets)
    ensures r == GenerateOutcome(g, targets, p, outputPath, env)
    ensures FirstFail(FileKinds(g, targets, FileSettings(g, p, outputPath), outputPath, env)) < |targets| ==>
      FilesNames(targets) == Processed(old(FilesNames(targets)), targets,
        FirstFail(FileKinds(g, targets, FileSettings(g, p, outputPath), outputPath, env)) + 1, FileSettings(g, p, outputPath), env)
    ensures (FirstFail(FileKinds(g, targets, FileSettings(g, p, outputPath), outputPath, env)) == |targets|
             && !(p.generateService && env.moduleName.Ok?)) ==>
      FilesNames(targets) == CasedFiles(old(FilesNames(targets)), env.camel)
    ensures (FirstFail(FileKinds(g, targets, FileSettings(g, p, outputPath), outputPath, env)) == |targets|
             && p.generateService && env.moduleName.Ok? && !SomeServiceFileNamePanics(AllServices(targets))) ==>
      FilesNames(targets) == CasedFiles(CasedFiles(old(FilesNames(targets)), env.camel), env.camel)
  {
    ghost var before := FilesNames(targets);
    r := GenerateFiles(g, targets, FileSettings(g, p, outputPath), outputPath, env);
    if r.Err? {
      FoldStepsFirstFail(FileKinds(g, targets, FileSettings(g, p, outputPath), outputPath, env));
      return;
    }
    FilesOutcomeAllRender(g, targets, FileSettings(g, p, outputPath), outputPath, env);
    r := GenerateUnits(g, targets, r.value, p.generateService, SharedSettings(g, p, outputPath), outputPath, env, before);
  }

}
