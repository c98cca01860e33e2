/**
 * The read-only descriptor graph the generator consumes (Files, Services, Methods,
 * Bindings, Fields) and the run-wide registry. The structure is immutable (`const`);
 * only the display names of messages, services and methods are overwritten in place,
 * as the generator does. The registry's alias table is the one piece of state the
 * generator mutates through `ReserveGoPackageAlias`.
 */
module Descriptor {
  import opened Util
  import opened Text

  /** A Go package: import path, package name and the alias written in the import line ("" when none). */
  datatype GoPackage = GoPackage(path: string, name: string, alias: string)

  /** A message field: its name, its fully qualified type name, and its kind and label. */
  datatype Field = Field(name: string, typeName: string, isEnum: bool, repeated: bool)

  /** The component names of a (possibly nested) field path, outermost first. */
  type FieldPath = seq<string>

  /** The dotted rendering of a field path (its components joined with "."). */
  function FieldPathString(fp: FieldPath): string
  {
    Join(fp, ".")
  }

  /** A path-template parameter: the field path it binds and the field it designates. */
  datatype Parameter = Parameter(fieldPath: FieldPath, target: Field)

  /** The body rule of a binding; an empty field path is the "*" wildcard (whole request). */
  datatype Body = Body(fieldPath: FieldPath)

  /** One HTTP exposure rule of a method (`owner` is the method it exposes). */
  datatype Binding = Binding(owner: Method, pathParams: seq<Parameter>, body: Option<Body>)

  /** An enum type and the package of the file that defines it. */
  datatype Enum = Enum(name: string, filePkg: GoPackage)

  class Message {
    var name: string
    const fields: seq<Field>
    /** The Go package of the file defining this message. */
    const filePkg: GoPackage

    constructor (name: string, fields: seq<Field>, filePkg: GoPackage)
      ensures this.name == name && this.fields == fields && this.filePkg == filePkg
    {
      this.name := name;
      this.fields := fields;
      this.filePkg := filePkg;
    }
  }

  class Method {
    var name: string
    /** The service declaring this method. */
    const service: Service
    const request: Message
    const bindings: seq<Binding>

    constructor (name: string, service: Service, request: Message, bindings: seq<Binding>)
      ensures this.name == name && this.service == service
      ensures this.request == request && this.bindings == bindings
    {
      this.name := name;
      this.service := service;
      this.request := request;
      this.bindings := bindings;
    }
  }

  class Service {
    var name: string
    /** The name of the file declaring this service. */
    const fileName: string
    const methods: seq<Method>

    constructor (name: string, fileName: string, methods: seq<Method>)
      ensures this.name == name && this.fileName == fileName && this.methods == methods
    {
      this.name := name;
      this.fileName := fileName;
      this.methods := methods;
    }
  }

  class File {
    const name: string
    const goPkg: GoPackage
    const messages: seq<Message>
    const services: seq<Service>

    constructor (name: string, goPkg: GoPackage, messages: seq<Message>, services: seq<Service>)
      ensures this.name == name && this.goPkg == goPkg
      ensures this.messages == messages && this.services == services
    {
      this.name := name;
      this.goPkg := goPkg;
      this.messages := messages;
      this.services := services;
    }

    /** Every object whose name the generator may overwrite while processing this file. */
    function Footprint(): set<object>
    {
      MessageObjects(messages) + ServiceObjects(services)
    }

    /**
     * The registry allocates one object per descriptor: no message, service or
     * method occurs twice in this file.
     */
    predicate Distinct()
    {
      DistinctMessages(messages) && DistinctServices(services)
    }
  }

  function MessageObjects(ms: seq<Message>): set<object>
  {
    set m | m in ms :: m as object
  }

  /** The services and all their methods. */
  function ServiceObjects(ss: seq<Service>): set<object>
  {
    (set s | s in ss :: s as object)
    + (set i, j | 0 <= i < |ss| && 0 <= j < |ss[i].methods| :: ss[i].methods[j] as object)
  }

  predicate DistinctMessages(ms: seq<Message>)
  {
    forall k, k' :: 0 <= k < k' < |ms| ==> ms[k] != ms[k']
  }

  /** No method occurs twice in the service. */
  predicate DistinctMethods(svc: Service)
  {
    forall j, j' :: 0 <= j < j' < |svc.methods| ==> svc.methods[j] != svc.methods[j']
  }

  /**
   * No service occurs twice, and each method occurs once, in the service that
   * declares it; so no method is shared between two services.
   */
  predicate DistinctServices(ss: seq<Service>)
  {
    && (forall i, i' :: 0 <= i < i' < |ss| ==> ss[i] != ss[i'])
    && (forall i, j :: 0 <= i < |ss| && 0 <= j < |ss[i].methods| ==> ss[i].methods[j].service == ss[i])
    && (forall i :: 0 <= i < |ss| ==> DistinctMethods(ss[i]))
  }

  /** `m` is a message of one of the files. */
  predicate MessageOf(fs: seq<File>, m: Message)
  {
    exists k, i :: 0 <= k < |fs| && 0 <= i < |fs[k].messages| && m == fs[k].messages[i]
  }

  /** `s` is a service of one of the files. */
  predicate ServiceOf(fs: seq<File>, s: Service)
  {
    exists k, i :: 0 <= k < |fs| && 0 <= i < |fs[k].services| && s == fs[k].services[i]
  }

  /** The messages of several files, file after file. */
  function AllMessages(fs: seq<File>): (r: seq<Message>)
    ensures forall k :: 0 <= k < |r| ==> MessageOf(fs, r[k])
  {
    if |fs| == 0 then []
    else
      var init := fs[..|fs| - 1];
      var r0 := AllMessages(init);
      var r := r0 + fs[|fs| - 1].messages;
      forall k | 0 <= k < |r| ensures MessageOf(fs, r[k]) {
        if k < |r0| {
          assert MessageOf(init, r0[k]);
          var j, i :| 0 <= j < |init| && 0 <= i < |init[j].messages| && r0[k] == init[j].messages[i];
          assert fs[j] == init[j];
        } else {
          assert r[k] == fs[|fs| - 1].messages[k - |r0|];
        }
      }
      r
  }

  /** The services of several files, file after file. */
  function AllServices(fs: seq<File>): (r: seq<Service>)
    ensures forall k :: 0 <= k < |r| ==> ServiceOf(fs, r[k])
  {
    if |fs| == 0 then []
    else
      var init := fs[..|fs| - 1];
      var r0 := AllServices(init);
      var r := r0 + fs[|fs| - 1].services;
      forall k | 0 <= k < |r| ensures ServiceOf(fs, r[k]) {
        if k < |r0| {
          assert ServiceOf(init, r0[k]);
          var j, i :| 0 <= j < |init| && 0 <= i < |init[j].services| && r0[k] == init[j].services[i];
          assert fs[j] == init[j];
        } else {
          assert r[k] == fs[|fs| - 1].services[k - |r0|];
        }
      }
      r
  }

  /** Every object whose name may be overwritten while processing these files. */
  function FilesFootprint(fs: seq<File>): set<object>
  {
    set k, o | 0 <= k < |fs| && o in fs[k].Footprint() :: o
  }

  /** Names are stored in the files' objects alone: leaving those unchanged keeps every name. */
  twostate lemma FilesNamesUnchanged(fs: seq<File>)
    requires unchanged(FilesFootprint(fs))
    ensures FilesNames(fs) == old(FilesNames(fs))
  {
    forall k | 0 <= k < |fs| ensures NamesOf(fs[k]) == old(NamesOf(fs[k])) {
      assert fs[k].Footprint() <= FilesFootprint(fs);
    }
  }

  /**
   * One object per descriptor across all the files, and within each of them: no
   * descriptor is listed by two files.
   */
  predicate FilesDistinct(fs: seq<File>)
  {
    && DistinctMessages(AllMessages(fs))
    && DistinctServices(AllServices(fs))
    && (forall k :: 0 <= k < |fs| ==> fs[k].Distinct())
    && (forall k, k' :: 0 <= k < k' < |fs| ==> fs[k].Footprint() !! fs[k'].Footprint())
  }

  /** The flattened lists hold only descriptors of the files, so their objects are within the files' footprint. */
  lemma {:induction false} AllObjectsWithin(fs: seq<File>)
    ensures MessageObjects(AllMessages(fs)) + ServiceObjects(AllServices(fs)) <= FilesFootprint(fs)
  {
    if |fs| > 0 {
      var init := fs[..|fs| - 1];
      var f := fs[|fs| - 1];
      AllObjectsWithin(init);
      assert FilesFootprint(init) <= FilesFootprint(fs) by {
        forall o | o in FilesFootprint(init) ensures o in FilesFootprint(fs) {
          var k :| 0 <= k < |init| && o in init[k].Footprint();
          assert fs[k] == init[k];
        }
      }
      assert f.Footprint() <= FilesFootprint(fs);
      var ss0 := AllServices(init);
      var ss := AllServices(fs);
      assert ss == ss0 + f.services;
      forall i, j | 0 <= i < |ss| && 0 <= j < |ss[i].methods|
        ensures ss[i].methods[j] in FilesFootprint(fs)
      {
        if i < |ss0| {
          assert ss[i] == ss0[i];
          assert ss0[i].methods[j] in ServiceObjects(ss0);
        } else {
          assert ss[i] == f.services[i - |ss0|];
          assert ss[i].methods[j] in ServiceObjects(f.services);
        }
      }
      assert AllMessages(fs) == AllMessages(init) + f.messages;
    }
  }

  /** The display names of one file: its messages, its services, and the methods of each service. */
  datatype NameTable = NameTable(messages: seq<string>, services: seq<string>, methods: seq<seq<string>>)

  function MessageNames(ms: seq<Message>): (r: seq<string>)
    reads ms
    ensures |r| == |ms| && forall k :: 0 <= k < |ms| ==> r[k] == ms[k].name
  {
    if |ms| == 0 then [] else MessageNames(ms[..|ms| - 1]) + [ms[|ms| - 1].name]
  }

  function MethodNames(ms: seq<Method>): (r: seq<string>)
    reads ms
    ensures |r| == |ms| && forall k :: 0 <= k < |ms| ==> r[k] == ms[k].name
  {
    if |ms| == 0 then [] else MethodNames(ms[..|ms| - 1]) + [ms[|ms| - 1].name]
  }

  function ServiceNames(ss: seq<Service>): (r: seq<string>)
    reads ss
    ensures |r| == |ss| && forall k :: 0 <= k < |ss| ==> r[k] == ss[k].name
  {
    if |ss| == 0 then [] else ServiceNames(ss[..|ss| - 1]) + [ss[|ss| - 1].name]
  }

  function ServiceMethodNames(ss: seq<Service>): (r: seq<seq<string>>)
    reads ServiceObjects(ss)
    ensures |r| == |ss|
    ensures forall i :: 0 <= i < |ss| ==> |r[i]| == |ss[i].methods|
    ensures forall i, j :: 0 <= i < |ss| && 0 <= j < |ss[i].methods| ==> r[i][j] == ss[i].methods[j].name
  {
    assert forall i, j | 0 <= i < |ss| && 0 <= j < |ss[i].methods| :: ss[i].methods[j] in ServiceObjects(ss);
    seq(|ss|, i requires 0 <= i < |ss| reads ServiceObjects(ss) => MethodNames(ss[i].methods))
  }

  /** The names the generator may overwrite in a file, read from its descriptors. */
  function NamesOf(f: File): NameTable
    reads f.Footprint()
  {
    assert forall m | m in f.messages :: m in f.Footprint();
    assert forall s | s in f.services :: s in f.Footprint();
    NameTable(MessageNames(f.messages), ServiceNames(f.services), ServiceMethodNames(f.services))
  }

  /** The name tables of the files, in order. */
  function FilesNames(fs: seq<File>): (r: seq<NameTable>)
    reads FilesFootprint(fs)
    ensures |r| == |fs| && forall k :: 0 <= k < |fs| ==> r[k] == NamesOf(fs[k])
  {
    assert forall k | 0 <= k < |fs| :: fs[k].Footprint() <= FilesFootprint(fs);
    seq(|fs|, k requires 0 <= k < |fs| reads FilesFootprint(fs) => NamesOf(fs[k]))
  }

  /** Whether `alias` may be bound to `path` given the current alias table. */
  predicate CanReserve(aliases: map<string, string>, alias: string, path: string)
  {
    alias !in aliases || aliases[alias] == path
  }

  /**
   * The run-wide registry: the package alias table (alias to import path), the
   * enums it resolved (by fully qualified name) and the colon-segment policy.
   */
  class Registry {
    var aliases: map<string, string>
    const enums: map<string, Enum>
    const allowColonFinalSegments: bool

    constructor (enums: map<string, Enum>, allowColonFinalSegments: bool)
      ensures aliases == map[] && this.enums == enums
      ensures this.allowColonFinalSegments == allowColonFinalSegments
    {
      aliases := map[];
      this.enums := enums;
      this.allowColonFinalSegments := allowColonFinalSegments;
    }

    /**
     * ReserveGoPackageAlias: fails when `alias` is already bound to a different
     * path; otherwise records the binding (a no-op when it is already there).
     */
    method Reserve(alias: string, path: string) returns (ok: bool)
      modifies this
      ensures ok == CanReserve(old(aliases), alias, path)
      ensures aliases == if ok then old(aliases)[alias := path] else old(aliases)
    {
      if alias in aliases && aliases[alias] != path {
        ok := false;
      } else {
        aliases := aliases[alias := path];
        ok := true;
      }
    }
  }
}
