/**
 * The plugin entry point's own logic: the comma-separated request parameter,
 * read item by item into flag settings and package mappings, and the package
 * name derived from the module path.
 */
module Plugin {
  import opened Util
  import opened Text

  /** One effect of a parameter item; the items' effects happen in the items' order. */
  datatype Action =
    | SetFlag(name: string, value: string)        // flag.CommandLine.Set(name, value)
    | AddPkgMap(protoFile: string, goPkg: string) // reg.AddPkgMap(protoFile, goPkg)

  /** The text before the first "=" of the item that produces `a`. */
  function Key(a: Action): string
  {
    match a
    case SetFlag(name, _) => name
    case AddPkgMap(protoFile, _) => "M" + protoFile
  }

  /** The text after the first "=" of the item that produces `a`. */
  function Value(a: Action): string
  {
    match a
    case SetFlag(_, value) => value
    case AddPkgMap(_, goPkg) => goPkg
  }

  /** The "key=value" item that produces `a`. */
  function ItemText(a: Action): string
  {
    Key(a) + "=" + Value(a)
  }

  /**
   * An action some "key=value" item produces: its key has no "=" (the item is
   * cut at its first one), and a flag name never starts with "M" (such a key is a
   * package mapping).
   */
  predicate Producible(a: Action)
  {
    '=' !in Key(a) && (a.SetFlag? ==> !HasPrefix(a.name, "M"))
  }

  /**
   * One item of the parameter, cut at its first "=" only (strings.SplitN with
   * limit 2): without "=" it sets the flag of that name to ""; with a name
   * starting with "M" it maps the proto file named by the rest of the name to
   * the value; otherwise it sets the flag `name` to the value, which may itself
   * contain "=".
   */
  function ClassifyItem(item: string): (r: Action)
    ensures '=' !in item ==> r == SetFlag(item, "")
    ensures '=' in item ==> Producible(r) && ItemText(r) == item
  {
    var i := IndexOf(item, '=');
    if i < 0 then SetFlag(item, "")
    else
      var name := item[..i];
      var value := item[i + 1..];
      SliceAround(item, i);
      if HasPrefix(name, "M") then
        assert name == "M" + name[1..];
        AddPkgMap(name[1..], value)
      else
        SetFlag(name, value)
  }

  /** Classifying the item text of a producible action gives the action back. */
  lemma ClassifyItemText(a: Action)
    requires Producible(a)
    ensures ClassifyItem(ItemText(a)) == a
  {
    var item := ItemText(a);
    var n := |Key(a)|;
    IndexOfIs(item, '=', n);
    assert item[..n] == Key(a);
    assert item[n + 1..] == Value(a);
    if a.AddPkgMap? {
      assert Key(a)[1..] == a.protoFile;
    }
  }

  /** The actions of a request parameter: none when it is absent, otherwise one per comma-separated item. */
  function ParameterActions(param: Option<string>): (r: seq<Action>)
    ensures param.None? ==> r == []
  {
    match param
    case None => []
    case Some(p) =>
      var items := Split(p, ',');
      seq(|items|, k requires 0 <= k < |items| => ClassifyItem(items[k]))
  }

  /**
   * The parameter loop of the entry point: the items of the parameter, split on
   * ",", classified left to right; nothing happens when there is no parameter.
   */
  method ProcessParameter(param: Option<string>) returns (actions: seq<Action>)
    ensures param.None? ==> actions == []
    ensures param.Some? ==>
      && |actions| == |Split(param.value, ',')|
      && forall k :: 0 <= k < |actions| ==> actions[k] == ClassifyItem(Split(param.value, ',')[k])
    ensures actions == ParameterActions(param)
  {
    actions := [];
    if param.Some? {
      var items := Split(param.value, ',');
      for k := 0 to |items|
        invariant |actions| == k
        invariant forall j :: 0 <= j < k ==> actions[j] == ClassifyItem(items[j])
      {
        actions := actions + [ClassifyItem(items[k])];
      }
    }
  }

  /** The parameter string whose items are the item texts of `actions`, joined by ",". */
  function Unparse(actions: seq<Action>): string
  {
    Join(seq(|actions|, k requires 0 <= k < |actions| => ItemText(actions[k])), ",")
  }

  /**
   * Reading back a parameter written from producible actions whose items have
   * no "," gives the same actions in the same order.
   */
  lemma ParameterRoundTrip(actions: seq<Action>)
    requires |actions| >= 1
    requires forall k :: 0 <= k < |actions| ==> Producible(actions[k]) && ',' !in ItemText(actions[k])
    ensures ParameterActions(Some(Unparse(actions))) == actions
  {
    var items := seq(|actions|, k requires 0 <= k < |actions| => ItemText(actions[k]));
    SplitJoin(items, ',');
    assert Split(Unparse(actions), ',') == items;
    var r := ParameterActions(Some(Unparse(actions)));
    forall k | 0 <= k < |actions| ensures r[k] == actions[k] {
      ClassifyItemText(actions[k]);
    }
  }

  /** Every item of a parameter is ","-free, and the items joined by "," are the parameter. */
  lemma ParameterItems(p: string)
    ensures forall k :: 0 <= k < |Split(p, ',')| ==> ',' !in Split(p, ',')[k]
    ensures Join(Split(p, ','), ",") == p
  {
    SplitPiecesLackSeparator(p, ',');
    JoinSplit(p, ',');
  }

  /**
   * PackageName: the last "/"-separated piece of the module path; it has no "/",
   * ends the module path, and is the whole path or follows a "/".
   */
  function PackageName(modulePath: string): (r: string)
    ensures r == Last(Split(modulePath, '/'))
    ensures '/' !in r && HasSuffix(modulePath, r)
    ensures r == modulePath || modulePath[|modulePath| - |r| - 1] == '/'
  {
    SplitLastIsLastComponent(modulePath, '/');
    LastComponent(modulePath, '/')
  }
}
