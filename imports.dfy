/**
 * The specification of the generator's import de-duplication. Import candidates
 * are offered one at a time against a set of already-seen import paths; a
 * candidate is taken unless it is the package of the file being generated or its
 * path has been seen, and taking it records its path. The candidate lists are the
 * enum packages of resolvable path parameters and the request-message packages of
 * bound methods, in the order the generator walks files, services, methods,
 * bindings and parameters.
 */
module Imports {
  import opened Util
  import opened Descriptor
  import opened Bindings

  /** A package offered for import while generating the file whose own package is `home`. */
  datatype Candidate = Candidate(pkg: GoPackage, home: GoPackage)

  /** The imports taken so far and the `pkgSeen` set of import paths. */
  datatype ImportSet = ImportSet(imports: seq<GoPackage>, seen: set<string>)

  /** Offering one candidate. */
  function Step(st: ImportSet, c: Candidate): ImportSet
  {
    if c.pkg == c.home || c.pkg.path in st.seen then st
    else ImportSet(st.imports + [c.pkg], st.seen + {c.pkg.path})
  }

  /** Offering the candidates left to right. */
  function Dedup(cs: seq<Candidate>, st: ImportSet): ImportSet
  {
    if |cs| == 0 then st else Step(Dedup(cs[..|cs| - 1], st), cs[|cs| - 1])
  }

  /** The paths of a package list. */
  function Paths(ps: seq<GoPackage>): set<string>
  {
    set k | 0 <= k < |ps| :: ps[k].path
  }

  /** No two packages of the list share an import path. */
  predicate DistinctPaths(ps: seq<GoPackage>)
  {
    forall k, k' :: 0 <= k < k' < |ps| ==> ps[k].path != ps[k'].path
  }

  /** The enum-package candidates of one binding's path parameters, misses skipped. */
  function ParamCands(reg: Registry, home: GoPackage, ps: seq<Parameter>): seq<Candidate>
  {
    if |ps| == 0 then []
    else
      ParamCands(reg, home, ps[..|ps| - 1])
      + match LookupEnum(reg, ps[|ps| - 1])
        case Some(e) => [Candidate(e.filePkg, home)]
        case None => []
  }

  /** The enum-package candidates of all bindings of a method, in binding order. */
  function BindingCands(reg: Registry, home: GoPackage, bs: seq<Binding>): seq<Candidate>
  {
    if |bs| == 0 then []
    else BindingCands(reg, home, bs[..|bs| - 1]) + ParamCands(reg, home, bs[|bs| - 1].pathParams)
  }

  /** A method's candidates: its enum packages, then its request package if it is bound. */
  function MethodCands(reg: Registry, home: GoPackage, m: Method): seq<Candidate>
  {
    BindingCands(reg, home, m.bindings)
    + (if |m.bindings| > 0 then [Candidate(m.request.filePkg, home)] else [])
  }

  function MethodsCands(reg: Registry, home: GoPackage, ms: seq<Method>): seq<Candidate>
  {
    if |ms| == 0 then []
    else MethodsCands(reg, home, ms[..|ms| - 1]) + MethodCands(reg, home, ms[|ms| - 1])
  }

  function ServicesCands(reg: Registry, home: GoPackage, ss: seq<Service>): seq<Candidate>
  {
    if |ss| == 0 then []
    else ServicesCands(reg, home, ss[..|ss| - 1]) + MethodsCands(reg, home, ss[|ss| - 1].methods)
  }

  /** The candidates of one file (`generate`). */
  function FileCands(reg: Registry, f: File): seq<Candidate>
  {
    ServicesCands(reg, f.goPkg, f.services)
  }

  /** The candidates of several files, each against its own package (`generateService`). */
  function FilesCands(reg: Registry, fs: seq<File>): seq<Candidate>
  {
    if |fs| == 0 then [] else FilesCands(reg, fs[..|fs| - 1]) + FileCands(reg, fs[|fs| - 1])
  }

  /** Offering two lists is offering the first, then the second. */
  lemma {:induction false} DedupAppend(a: seq<Candidate>, b: seq<Candidate>, st: ImportSet)
    ensures Dedup(a + b, st) == Dedup(b, Dedup(a, st))
    decreases |b|
  {
    if |b| == 0 {
      assert a + b == a;
    } else {
      assert (a + b)[..|a + b| - 1] == a + b[..|b| - 1];
      DedupAppend(a, b[..|b| - 1], st);
    }
  }

  /** Imports taken earlier stay in front; what is appended does not depend on them. */
  lemma {:induction false} DedupPrefix(cs: seq<Candidate>, pre: seq<GoPackage>, seen: set<string>)
    ensures Dedup(cs, ImportSet(pre, seen)).imports == pre + Dedup(cs, ImportSet([], seen)).imports
    ensures Dedup(cs, ImportSet(pre, seen)).seen == Dedup(cs, ImportSet([], seen)).seen
  {
    if |cs| > 0 {
      DedupPrefix(cs[..|cs| - 1], pre, seen);
      var d := Dedup(cs[..|cs| - 1], ImportSet([], seen));
      assert pre + (d.imports + [cs[|cs| - 1].pkg]) == (pre + d.imports) + [cs[|cs| - 1].pkg];
    }
  }

  /** The earlier imports are kept; the added paths are distinct and are what the seen set gains. */
  lemma {:induction false} DedupShape(cs: seq<Candidate>, st: ImportSet)
    ensures var r := Dedup(cs, st);
      && |st.imports| <= |r.imports|
      && r.imports[..|st.imports|] == st.imports
      && r.seen == st.seen + Paths(r.imports[|st.imports|..])
      && DistinctPaths(r.imports[|st.imports|..])
  {
    if |cs| > 0 {
      var init := cs[..|cs| - 1];
      var c := cs[|cs| - 1];
      DedupShape(init, st);
      var d := Dedup(init, st);
      var r := Dedup(cs, st);
      var n := |st.imports|;
      assert r == Step(d, c);
      if !(c.pkg == c.home || c.pkg.path in d.seen) {
        var tail := d.imports[n..];
        assert r.imports == d.imports + [c.pkg];
        assert r.imports[..n] == d.imports[..n];
        assert r.imports[n..] == tail + [c.pkg];
        PathsConcat(tail, [c.pkg]);
        assert Paths([c.pkg]) == {c.pkg.path} by {
          assert [c.pkg][0].path == c.pkg.path;
        }
        DistinctConcat(tail, [c.pkg]);
      }
    }
  }

  /** Every added package is a new non-home candidate, and every skipped candidate is home or seen. */
  lemma {:induction false} DedupOrigin(cs: seq<Candidate>, st: ImportSet)
    ensures var r := Dedup(cs, st);
      && (forall k :: |st.imports| <= k < |r.imports| ==>
            r.imports[k].path !in st.seen
            && exists c :: c in cs && c.pkg == r.imports[k] && c.pkg != c.home)
      && (forall c :: c in cs ==> c.pkg == c.home || c.pkg.path in r.seen)
  {
    DedupShape(cs, st);
    if |cs| > 0 {
      var init := cs[..|cs| - 1];
      var c := cs[|cs| - 1];
      DedupOrigin(init, st);
      DedupShape(init, st);
      var d := Dedup(init, st);
      var r := Dedup(cs, st);
      assert r == Step(d, c);
      forall c' | c' in init ensures c' in cs { }
      if !(c.pkg == c.home || c.pkg.path in d.seen) {
        assert r.imports == d.imports + [c.pkg];
        assert c in cs;
      }
    }
  }

  /**
   * What de-duplication guarantees: the earlier imports are kept; every added
   * package is a candidate that is not its file's own package; the added paths are
   * pairwise distinct, were not seen before and are exactly what the seen set gains;
   * and a candidate is left out only when it is its file's package or its path is
   * seen by the end.
   */
  lemma DedupProps(cs: seq<Candidate>, st: ImportSet)
    ensures var r := Dedup(cs, st);
      && |st.imports| <= |r.imports|
      && r.imports[..|st.imports|] == st.imports
      && r.seen == st.seen + Paths(r.imports[|st.imports|..])
      && DistinctPaths(r.imports[|st.imports|..])
      && (forall k :: |st.imports| <= k < |r.imports| ==>
            r.imports[k].path !in st.seen
            && exists c :: c in cs && c.pkg == r.imports[k] && c.pkg != c.home)
      && (forall c :: c in cs ==> c.pkg == c.home || c.pkg.path in r.seen)
  {
    DedupShape(cs, st);
    DedupOrigin(cs, st);
  }


  lemma PathsConcat(a: seq<GoPackage>, b: seq<GoPackage>)
    ensures Paths(a + b) == Paths(a) + Paths(b)
  {
    forall p | p in Paths(a + b) ensures p in Paths(a) + Paths(b) {
      var k :| 0 <= k < |a + b| && (a + b)[k].path == p;
      if k >= |a| {
        assert (a + b)[k] == b[k - |a|];
      }
    }
    forall p | p in Paths(a) + Paths(b) ensures p in Paths(a + b) {
      if p in Paths(a) {
        var k :| 0 <= k < |a| && a[k].path == p;
        assert (a + b)[k] == a[k];
      } else {
        var k :| 0 <= k < |b| && b[k].path == p;
        assert (a + b)[|a| + k] == b[k];
      }
    }
  }

  lemma DistinctConcat(a: seq<GoPackage>, b: seq<GoPackage>)
    requires DistinctPaths(a) && DistinctPaths(b)
    requires forall k :: 0 <= k < |b| ==> b[k].path !in Paths(a)
    ensures DistinctPaths(a + b)
  {
    forall k, k' | 0 <= k < k' < |a + b| ensures (a + b)[k].path != (a + b)[k'].path {
      if k' < |a| {
        assert (a + b)[k] == a[k] && (a + b)[k'] == a[k'];
      } else if k < |a| {
        assert (a + b)[k] == a[k] && (a + b)[k'] == b[k' - |a|];
      } else {
        assert (a + b)[k] == b[k - |a|] && (a + b)[k'] == b[k' - |a|];
      }
    }
  }

  /** Corollary: starting from distinct paths that are all seen, the final list has distinct paths. */
  lemma DedupDistinct(cs: seq<Candidate>, base: seq<GoPackage>)
    requires DistinctPaths(base)
    ensures var r := Dedup(cs, ImportSet(base, Paths(base)));
      DistinctPaths(r.imports) && r.seen == Paths(r.imports)
  {
    var st := ImportSet(base, Paths(base));
    DedupProps(cs, st);
    var r := Dedup(cs, st);
    var tail := r.imports[|base|..];
    assert r.imports == base + tail;
    forall k | 0 <= k < |tail| ensures tail[k].path !in Paths(base) {
      assert tail[k] == r.imports[|base| + k];
    }
    DistinctConcat(base, tail);
    PathsConcat(base, tail);
  }

  /** A method without bindings offers no candidate at all, not even an enum package. */
  lemma NoBindingsNoCandidates(reg: Registry, home: GoPackage, m: Method)
    requires |m.bindings| == 0
    ensures MethodCands(reg, home, m) == []
  {
  }

  /** Every candidate of a file is offered against that file's own package. */
  lemma {:induction false} FileCandsHome(reg: Registry, f: File)
    ensures forall c :: c in FileCands(reg, f) ==> c.home == f.goPkg
  {
    ServicesCandsHome(reg, f.goPkg, f.services);
  }

  lemma {:induction false} ServicesCandsHome(reg: Registry, home: GoPackage, ss: seq<Service>)
    ensures forall c :: c in ServicesCands(reg, home, ss) ==> c.home == home
  {
    if |ss| > 0 {
      ServicesCandsHome(reg, home, ss[..|ss| - 1]);
      MethodsCandsHome(reg, home, ss[|ss| - 1].methods);
    }
  }

  lemma {:induction false} MethodsCandsHome(reg: Registry, home: GoPackage, ms: seq<Method>)
    ensures forall c :: c in MethodsCands(reg, home, ms) ==> c.home == home
  {
    if |ms| > 0 {
      MethodsCandsHome(reg, home, ms[..|ms| - 1]);
      BindingCandsHome(reg, home, ms[|ms| - 1].bindings);
    }
  }

  lemma {:induction false} BindingCandsHome(reg: Registry, home: GoPackage, bs: seq<Binding>)
    ensures forall c :: c in BindingCands(reg, home, bs) ==> c.home == home
  {
    if |bs| > 0 {
      BindingCandsHome(reg, home, bs[..|bs| - 1]);
      ParamCandsHome(reg, home, bs[|bs| - 1].pathParams);
    }
  }

  lemma {:induction false} ParamCandsHome(reg: Registry, home: GoPackage, ps: seq<Parameter>)
    ensures forall c :: c in ParamCands(reg, home, ps) ==> c.home == home
  {
    if |ps| > 0 {
      ParamCandsHome(reg, home, ps[..|ps| - 1]);
    }
  }

  /** An enum candidate comes from a path parameter the registry resolves. */
  lemma {:induction false} ParamCandsResolved(reg: Registry, home: GoPackage, ps: seq<Parameter>)
    ensures forall c :: c in ParamCands(reg, home, ps) ==>
      exists i | 0 <= i < |ps| :: LookupEnum(reg, ps[i]).Some? && LookupEnum(reg, ps[i]).value.filePkg == c.pkg
  {
    if |ps| > 0 {
      var init := ps[..|ps| - 1];
      ParamCandsResolved(reg, home, init);
      forall c | c in ParamCands(reg, home, ps)
        ensures exists i | 0 <= i < |ps| :: LookupEnum(reg, ps[i]).Some? && LookupEnum(reg, ps[i]).value.filePkg == c.pkg
      {
        if c in ParamCands(reg, home, init) {
          var i :| 0 <= i < |init| && LookupEnum(reg, init[i]).Some? && LookupEnum(reg, init[i]).value.filePkg == c.pkg;
          assert ps[i] == init[i];
        } else {
          assert LookupEnum(reg, ps[|ps| - 1]).Some? && LookupEnum(reg, ps[|ps| - 1]).value.filePkg == c.pkg;
        }
      }
    }
  }
}
