/**
 * The per-binding projections the templates consult: the body field path, whether
 * a query string must be parsed, the consumed field paths handed to the query
 * filter, enum path parameters and the FieldMask field, plus the stable rendering
 * of a query filter's encoding table.
 */
module Bindings {
  import opened Util
  import opened Text
  import opened Descriptor

  /** A character allowed in a protobuf identifier. */
  predicate IsIdentChar(ch: char)
  {
    'a' <= ch <= 'z' || 'A' <= ch <= 'Z' || '0' <= ch <= '9' || ch == '_'
  }

  /** A protobuf identifier: non-empty, letters, digits and underscores only. */
  predicate IsIdent(s: string)
  {
    |s| > 0 && forall k :: 0 <= k < |s| ==> IsIdentChar(s[k])
  }

  /** Every component of the path is an identifier, as the registry guarantees for resolved paths. */
  predicate WellFormedPath(fp: FieldPath)
  {
    forall k :: 0 <= k < |fp| ==> IsIdent(fp[k])
  }

  /** The binding names no body field: the body is absent, or it is the "*" wildcard. */
  predicate NoBodyField(b: Binding)
  {
    b.body.None? || |b.body.value.fieldPath| == 0
  }

  /** The body is the "*" wildcard: present, with an empty field path. */
  predicate WildcardBody(b: Binding)
  {
    b.body.Some? && |b.body.value.fieldPath| == 0
  }

  /** The body's dotted field path, or "*" when there is no named body field. */
  function GetBodyFieldPath(b: Binding): string
  {
    if b.body.Some? && |b.body.value.fieldPath| != 0 then FieldPathString(b.body.value.fieldPath) else "*"
  }

  /** A path of two or more components never renders as its first component alone. */
  lemma NestedPathIsNotItsHead(fp: FieldPath)
    requires |fp| >= 2 && WellFormedPath(fp)
    ensures FieldPathString(fp) != fp[0]
  {
    JoinStartsWithFirst(fp[1..], ".");
    assert FieldPathString(fp) == fp[0] + "." + Join(fp[1..], ".");
  }

  /** The dotted rendering of a well-formed path splits back into its components. */
  lemma SplitFieldPath(fp: FieldPath)
    requires |fp| >= 1 && WellFormedPath(fp)
    ensures Split(FieldPathString(fp), '.') == fp
  {
    forall k | 0 <= k < |fp| ensures '.' !in fp[k] {
      forall i | 0 <= i < |fp[k]| ensures fp[k][i] != '.' {
        assert IsIdentChar(fp[k][i]);
      }
    }
    assert "." == ['.'];
    SplitJoin(fp, '.');
  }

  /**
   * GetBodyFieldPath gives "*" exactly when there is no named body field, and
   * otherwise the dotted path, which splits back into the body's components.
   */
  lemma BodyFieldPathIsStarIff(b: Binding)
    requires b.body.Some? ==> WellFormedPath(b.body.value.fieldPath)
    ensures GetBodyFieldPath(b) == "*" <==> NoBodyField(b)
    ensures !NoBodyField(b) ==> Split(GetBodyFieldPath(b), '.') == b.body.value.fieldPath
  {
    if !NoBodyField(b) {
      var fp := b.body.value.fieldPath;
      JoinStartsWithFirst(fp, ".");
      assert FieldPathString(fp)[0] == fp[0][0];
      assert IsIdentChar(fp[0][0]);
      SplitFieldPath(fp);
    }
  }

  /**
   * GetBodyFieldStructName fails exactly when GetBodyFieldPath gives no named
   * field, and otherwise camel-cases the body path.
   */
  function GetBodyFieldStructName(b: Binding, camel: string -> string): (r: Result<string, string>)
    ensures r.Err? <==> NoBodyField(b)
    ensures r.Ok? ==> r.value == camel(GetBodyFieldPath(b))
  {
    if b.body.Some? && |b.body.value.fieldPath| != 0 then
      Ok(camel(FieldPathString(b.body.value.fieldPath)))
    else
      Err("No body field found")
  }

  /** The top-level names of the request message's fields. */
  function RequestFieldNames(b: Binding): set<string>
  {
    set f | f in b.owner.request.fields :: f.name
  }

  /** The dotted strings a binding removes from the request's field names: body first, then path parameters. */
  function ConsumedNames(b: Binding): set<string>
  {
    (if b.body.Some? then {FieldPathString(b.body.value.fieldPath)} else {})
    + (set k | 0 <= k < |b.pathParams| :: FieldPathString(b.pathParams[k].fieldPath))
  }

  /** The top-level request field names neither the body nor a path parameter names exactly. */
  function FreeFieldNames(b: Binding): set<string>
  {
    RequestFieldNames(b) - ConsumedNames(b)
  }

  /**
   * HasQueryParam: false for the wildcard body; otherwise true exactly when some
   * top-level request field name is neither the body path nor a path-parameter
   * path. Only exact names are removed, so a nested path "a.b" leaves "a" free.
   */
  method HasQueryParam(b: Binding) returns (r: bool)
    ensures WildcardBody(b) ==> !r
    ensures !WildcardBody(b) ==> (r <==> FreeFieldNames(b) != {})
  {
    if b.body.Some? && |b.body.value.fieldPath| == 0 {
      return false;
    }
    var fields := FieldNameMap(b.owner.request.fields);
    var bodyNames: set<string> := {};
    if b.body.Some? {
      bodyNames := {FieldPathString(b.body.value.fieldPath)};
      fields := fields - bodyNames;
    }
    fields := RemovePathParams(fields, b.pathParams);
    r := |fields| > 0;
    assert fields.Keys == FreeFieldNames(b);
    assert |fields| == |fields.Keys|;
  }

  /** The request's field names as the keys of a map. */
  method FieldNameMap(fs: seq<Field>) returns (fields: map<string, bool>)
    ensures fields.Keys == set f | f in fs :: f.name
  {
    fields := map[];
    for i := 0 to |fs|
      invariant fields.Keys == set k | 0 <= k < i :: fs[k].name
    {
      fields := fields[fs[i].name := true];
    }
    forall f | f in fs ensures f.name in fields.Keys {
      var k :| 0 <= k < |fs| && fs[k] == f;
    }
  }

  /** Deletes every path parameter's dotted path from the map. */
  method RemovePathParams(fields: map<string, bool>, ps: seq<Parameter>) returns (fields': map<string, bool>)
    ensures fields'.Keys == fields.Keys - (set k | 0 <= k < |ps| :: FieldPathString(ps[k].fieldPath))
  {
    fields' := fields;
    for j := 0 to |ps|
      invariant fields'.Keys == fields.Keys - (set k | 0 <= k < j :: FieldPathString(ps[k].fieldPath))
    {
      fields' := fields' - {FieldPathString(ps[j].fieldPath)};
    }
  }

  lemma FreeFieldNamesExample(b: Binding)
    requires b.owner.request.fields == [Field("a", "string", false, false), Field("b", "string", false, false), Field("c", "string", false, false)]
    requires b.body == Some(Body(["a"])) && |b.pathParams| == 1 && b.pathParams[0].fieldPath == ["b"]
    ensures FreeFieldNames(b) == {"c"}
  {
    assert FieldPathString(["a"]) == "a";
    assert FieldPathString(["b"]) == "b";
    assert (set k | 0 <= k < |b.pathParams| :: FieldPathString(b.pathParams[k].fieldPath)) == {"b"};
    assert RequestFieldNames(b) == {"a", "b", "c"} by {
      var fs := b.owner.request.fields;
      assert fs[0] in fs && fs[1] in fs && fs[2] in fs;
    }
  }

  /** The double-array trie built from the consumed field paths (its construction is external). */
  datatype DoubleArray = DoubleArray(encoding: map<string, int>, base: Option<seq<int>>, check: Option<seq<int>>)

  /** A field path as the filter receives it: its dotted rendering split on ".". */
  function SplitPath(fp: FieldPath): seq<string>
  {
    Split(FieldPathString(fp), '.')
  }

  /**
   * QueryParamFilter: the sequences handed to the double-array builder are the
   * consumed paths, the body's first (when there is a body), then one per path
   * parameter in order.
   */
  method QueryParamFilter(b: Binding, newDoubleArray: seq<seq<string>> -> DoubleArray)
    returns (seqs: seq<seq<string>>, f: DoubleArray)
    ensures f == newDoubleArray(seqs)
    ensures |seqs| == (if b.body.Some? then 1 else 0) + |b.pathParams|
    ensures b.body.Some? ==> seqs[0] == SplitPath(b.body.value.fieldPath)
    ensures forall i :: 0 <= i < |b.pathParams| ==>
      seqs[|seqs| - |b.pathParams| + i] == SplitPath(b.pathParams[i].fieldPath)
  {
    seqs := [];
    if b.body.Some? {
      seqs := seqs + [SplitPath(b.body.value.fieldPath)];
    }
    var offset := |seqs|;
    var ps := b.pathParams;
    for i := 0 to |ps|
      invariant |seqs| == offset + i
      invariant b.body.Some? ==> seqs[0] == SplitPath(b.body.value.fieldPath)
      invariant forall k :: 0 <= k < i ==> seqs[offset + k] == SplitPath(ps[k].fieldPath)
    {
      seqs := seqs + [SplitPath(ps[i].fieldPath)];
    }
    f := newDoubleArray(seqs);
  }

  /** hasEnumPathParam: some path parameter is enum-typed with the given repeated label. */
  method HasEnumPathParamWith(b: Binding, repeated: bool) returns (r: bool)
    ensures r <==> exists i | 0 <= i < |b.pathParams| ::
      b.pathParams[i].target.isEnum && b.pathParams[i].target.repeated == repeated
  {
    var ps := b.pathParams;
    for i := 0 to |ps|
      invariant forall k :: 0 <= k < i ==> !(ps[k].target.isEnum && ps[k].target.repeated == repeated)
    {
      if ps[i].target.isEnum && ps[i].target.repeated == repeated {
        return true;
      }
    }
    return false;
  }

  /** HasEnumPathParam: some path parameter is a non-repeated enum. */
  method HasEnumPathParam(b: Binding) returns (r: bool)
    ensures r <==> exists i | 0 <= i < |b.pathParams| ::
      b.pathParams[i].target.isEnum && !b.pathParams[i].target.repeated
  {
    r := HasEnumPathParamWith(b, false);
  }

  /** HasRepeatedEnumPathParam: some path parameter is a repeated enum. */
  method HasRepeatedEnumPathParam(b: Binding) returns (r: bool)
    ensures r <==> exists i | 0 <= i < |b.pathParams| ::
      b.pathParams[i].target.isEnum && b.pathParams[i].target.repeated
  {
    r := HasEnumPathParamWith(b, true);
  }

  /** LookupEnum: the registry's enum for the parameter's type, or none on a miss. */
  function LookupEnum(reg: Registry, p: Parameter): (r: Option<Enum>)
    ensures r.None? <==> p.target.typeName !in reg.enums
    ensures r.Some? ==> r.value == reg.enums[p.target.typeName]
  {
    if p.target.typeName in reg.enums then Some(reg.enums[p.target.typeName]) else None
  }

  const FieldMaskTypeName := ".google.protobuf.FieldMask"

  predicate IsFieldMask(f: Field)
  {
    f.typeName == FieldMaskTypeName
  }

  /** The positions of the FieldMask-typed fields, in increasing order. */
  function FieldMaskIndices(fs: seq<Field>): (r: seq<nat>)
    ensures forall k :: 0 <= k < |r| ==> r[k] < |fs| && IsFieldMask(fs[r[k]])
  {
    if |fs| == 0 then []
    else FieldMaskIndices(fs[..|fs| - 1]) + (if IsFieldMask(fs[|fs| - 1]) then [|fs| - 1] else [])
  }

  predicate Increasing(s: seq<nat>)
  {
    forall k, k' :: 0 <= k < k' < |s| ==> s[k] < s[k']
  }

  /** FieldMaskIndices lists every FieldMask field exactly once, in increasing order. */
  lemma {:induction false} FieldMaskIndicesExact(fs: seq<Field>)
    ensures forall i :: 0 <= i < |fs| ==> (IsFieldMask(fs[i]) <==> i in FieldMaskIndices(fs))
    ensures Increasing(FieldMaskIndices(fs))
  {
    if |fs| > 0 {
      var init := fs[..|fs| - 1];
      FieldMaskIndicesExact(init);
      forall i | 0 <= i < |init| ensures fs[i] == init[i] { }
      var r0 := FieldMaskIndices(init);
      var r := FieldMaskIndices(fs);
      assert r == r0 + (if IsFieldMask(fs[|fs| - 1]) then [|fs| - 1] else []);
      forall k, k' | 0 <= k < k' < |r| ensures r[k] < r[k'] {
        assert r[k] == r0[k];
        if k' < |r0| {
          assert r[k'] == r0[k'];
          assert r0[k] < r0[k'];
        } else {
          assert r[k'] == |fs| - 1;
          assert r0[k] < |init|;
        }
      }
    }
  }

  /** Extending a prefix by one field extends its FieldMask positions at most by that field. */
  lemma FieldMaskIndicesSnoc(fs: seq<Field>, i: nat)
    requires i < |fs|
    ensures FieldMaskIndices(fs[..i + 1]) == FieldMaskIndices(fs[..i]) + (if IsFieldMask(fs[i]) then [i] else [])
  {
    assert fs[..i + 1][..i] == fs[..i];
  }

  /** The FieldMask positions of a prefix are a prefix of the positions of the whole. */
  lemma {:induction false} FieldMaskIndicesPrefix(fs: seq<Field>, i: nat)
    requires i <= |fs|
    ensures FieldMaskIndices(fs[..i]) <= FieldMaskIndices(fs)
    decreases |fs| - i
  {
    if i == |fs| {
      assert fs[..i] == fs;
    } else {
      var init := fs[..|fs| - 1];
      FieldMaskIndicesPrefix(init, i);
      assert init[..i] == fs[..i];
    }
  }

  /** A FieldMask field after a prefix that already holds one makes at least two. */
  lemma SecondFieldMask(fs: seq<Field>, i: nat)
    requires i < |fs| && |FieldMaskIndices(fs[..i])| == 1 && IsFieldMask(fs[i])
    ensures |FieldMaskIndices(fs)| >= 2
  {
    FieldMaskIndicesSnoc(fs, i);
    FieldMaskIndicesPrefix(fs, i + 1);
  }

  /** `r` is the camel-cased name of the only FieldMask field of `fs`, or "" when there is not exactly one. */
  predicate FieldMaskResult(fs: seq<Field>, camel: string -> string, r: string)
  {
    var idx := FieldMaskIndices(fs);
    if |idx| == 1 then r == camel(fs[idx[0]].name) else r == ""
  }

  /**
   * FieldMaskField: the camel-cased name of the FieldMask field when the request
   * has exactly one, and "" when it has none or several.
   */
  method FieldMaskField(b: Binding, camel: string -> string) returns (r: string)
    ensures FieldMaskResult(b.owner.request.fields, camel, r)
  {
    var fs := b.owner.request.fields;
    var found: Option<Field> := None;
    ghost var idx: seq<nat> := [];
    for i := 0 to |fs|
      invariant idx == FieldMaskIndices(fs[..i])
      invariant |idx| <= 1
      invariant found.None? <==> |idx| == 0
      invariant found.Some? ==> found.value == fs[idx[0]]
    {
      FieldMaskIndicesSnoc(fs, i);
      if IsFieldMask(fs[i]) {
        if found.Some? {
          SecondFieldMask(fs, i);
          return "";
        }
        found := Some(fs[i]);
        idx := idx + [i];
      }
    }
    assert fs[..|fs|] == fs;
    if found.Some? {
      r := camel(found.value.name);
    } else {
      r := "";
    }
  }

  /** One entry of the rendered encoding table: the quoted key and its index. */
  function FilterEntry(key: string, index: int): string
  {
    "\"" + key + "\": " + IntToString(index)
  }

  /** Go syntax for an int slice (%#v): a nil slice prints as `[]int(nil)`, any other as its elements in braces. */
  function IntSliceLiteral(xs: Option<seq<int>>): (r: string)
    ensures r == "[]int(nil)" <==> xs.None?
    ensures xs.Some? ==> 7 <= |r| && r[..6] == "[]int{" && r[|r| - 1] == '}'
  {
    match xs
    case None => "[]int(nil)"
    case Some(v) =>
      var r := "[]int{" + Join(seq(|v|, k requires 0 <= k < |v| => IntToString(v[k])), ", ") + "}";
      assert r[5] == '{';
      r
  }

  /** The Go literal for the filter, given its encoding entries in index order. */
  function FilterText(entries: seq<string>, base: Option<seq<int>>, check: Option<seq<int>>): string
  {
    "&utilities.DoubleArray{Encoding: map[string]int{" + Join(entries, ", ")
    + "}, Base: " + IntSliceLiteral(base) + ", Check: " + IntSliceLiteral(check) + "}"
  }

  /** The keys are numbered 0..n-1, each number used once, as the double-array builder numbers them. */
  predicate DenseEncoding(enc: map<string, int>)
  {
    && (forall k :: k in enc ==> 0 <= enc[k] < |enc|)
    && (forall k, k' :: k in enc && k' in enc && enc[k] == enc[k'] ==> k == k')
  }

  /** The set of indices an encoding uses. */
  function Indices(enc: map<string, int>): set<int>
  {
    set k | k in enc :: enc[k]
  }

  /** The indices an injective encoding uses are as many as its keys. */
  lemma {:induction false} InjectiveImageSize(enc: map<string, int>)
    requires forall k, k' :: k in enc && k' in enc && enc[k] == enc[k'] ==> k == k'
    ensures |Indices(enc)| == |enc|
    decreases |enc|
  {
    if |enc| > 0 {
      var k0 :| k0 in enc;
      var rest := enc - {k0};
      InjectiveImageSize(rest);
      forall i | i in Indices(enc) ensures i in Indices(rest) + {enc[k0]} {
        var k :| k in enc && enc[k] == i;
        if k != k0 { assert k in rest; }
      }
      assert Indices(enc) == Indices(rest) + {enc[k0]};
      assert |rest.Keys| == |enc.Keys - {k0}|;
    }
  }

  /** The integers 0..n-1. */
  function Range(n: nat): (r: set<int>)
    ensures forall i :: i in r <==> 0 <= i < n
    ensures |r| == n
  {
    if n == 0 then {} else Range(n - 1) + {n - 1}
  }

  /** A dense encoding uses every index below its size. */
  lemma DenseEncodingIsOnto(enc: map<string, int>)
    requires DenseEncoding(enc)
    ensures forall i :: 0 <= i < |enc| ==> i in Indices(enc)
  {
    var all := Range(|enc|);
    InjectiveImageSize(enc);
    assert Indices(enc) <= all;
    var missing := all - Indices(enc);
    assert all == Indices(enc) + missing;
    assert |missing| == 0;
  }

  /** `entries` holds, at each key's index, that key's entry. */
  predicate EntriesAtIndices(enc: map<string, int>, entries: seq<string>)
  {
    && |entries| == |enc|
    && (forall k :: k in enc ==> 0 <= enc[k] < |entries| && entries[enc[k]] == FilterEntry(k, enc[k]))
  }

  /** Under a dense encoding the entries are determined: any two entry slices placing each key at its index agree. */
  lemma EntriesDetermined(enc: map<string, int>, e1: seq<string>, e2: seq<string>)
    requires DenseEncoding(enc) && EntriesAtIndices(enc, e1) && EntriesAtIndices(enc, e2)
    ensures e1 == e2
  {
    DenseEncodingIsOnto(enc);
    forall i | 0 <= i < |e1| ensures e1[i] == e2[i] {
      assert i in Indices(enc);
      var k :| k in enc && enc[k] == i;
    }
  }

  /**
   * queryParamFilter.String: one entry per encoding key, placed at the key's
   * index, so that the entries come out in ascending index order and every
   * slot holds exactly one key's entry.
   */
  method String(f: DoubleArray) returns (s: string, entries: seq<string>)
    requires DenseEncoding(f.encoding)
    ensures EntriesAtIndices(f.encoding, entries)
    ensures forall i :: 0 <= i < |entries| ==> i in Indices(f.encoding)
    ensures s == FilterText(entries, f.base, f.check)
  {
    var enc := f.encoding;
    var encodings := new string[|enc|](_ => "");
    var rest := enc.Keys;
    while rest != {}
      invariant rest <= enc.Keys
      invariant forall k :: k in enc.Keys - rest ==> encodings[enc[k]] == FilterEntry(k, enc[k])
      decreases |rest|
    {
      var k :| k in rest;
      encodings[enc[k]] := FilterEntry(k, enc[k]);
      rest := rest - {k};
    }
    entries := encodings[..];
    DenseEncodingIsOnto(enc);
    s := FilterText(encodings[..], f.base, f.check);
  }
}
