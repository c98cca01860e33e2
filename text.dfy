/**
 * The string primitives of Go's standard library that the generator relies on
 * (`strings.Index`, `strings.LastIndex`, `strings.Split`, `strings.SplitN` with a
 * limit of 2, `strings.Join`, `strings.HasPrefix`, `strings.TrimPrefix`,
 * `strings.TrimSuffix`, `path.Base`, `filepath.Ext` and decimal formatting),
 * restricted to one-character separators, which is all the generator uses.
 */
module Text {

  /** Position of the first `c` in `s`, or -1 (strings.Index). */
  function IndexOf(s: string, c: char): (i: int)
    ensures -1 <= i < |s|
    ensures 0 <= i ==> s[i] == c
    ensures forall k :: 0 <= k < |s| && (i < 0 || k < i) ==> s[k] != c
  {
    if |s| == 0 then -1
    else if s[0] == c then 0
    else
      var j := IndexOf(s[1..], c);
      if j == -1 then -1 else j + 1
  }

  /** Position of the last `c` in `s`, or -1 (strings.LastIndex). */
  function LastIndexOf(s: string, c: char): (i: int)
    ensures -1 <= i < |s|
    ensures 0 <= i ==> s[i] == c
    ensures forall k :: i < k < |s| ==> s[k] != c
  {
    if |s| == 0 then -1
    else if s[|s| - 1] == c then |s| - 1
    else LastIndexOf(s[..|s| - 1], c)
  }

  /** The first `c` is the only one with no `c` before it. */
  lemma {:induction false} IndexOfIs(s: string, c: char, i: nat)
    requires i < |s| && s[i] == c
    requires forall k :: 0 <= k < i ==> s[k] != c
    ensures IndexOf(s, c) == i
  {
    if i > 0 {
      IndexOfIs(s[1..], c, i - 1);
    }
  }

  /** The pieces of `s` between occurrences of `c` (strings.Split): never empty. */
  function Split(s: string, c: char): (parts: seq<string>)
    ensures |parts| >= 1
    decreases |s|
  {
    var i := IndexOf(s, c);
    if i < 0 then [s] else [s[..i]] + Split(s[i + 1..], c)
  }

  /** No piece of a split contains the separator. */
  lemma {:induction false} SplitPiecesLackSeparator(s: string, c: char)
    ensures forall k :: 0 <= k < |Split(s, c)| ==> c !in Split(s, c)[k]
    decreases |s|
  {
    var i := IndexOf(s, c);
    if i >= 0 {
      SplitPiecesLackSeparator(s[i + 1..], c);
      SplitFirst(s, c);
      assert forall k :: 0 <= k < i ==> s[..i][k] == s[k];
    }
  }

  /** The pieces concatenated with `sep` between them (strings.Join). */
  function Join(parts: seq<string>, sep: string): string
  {
    if |parts| == 0 then ""
    else if |parts| == 1 then parts[0]
    else parts[0] + sep + Join(parts[1..], sep)
  }

  /** Joining a first piece in front of more pieces. */
  lemma JoinCons(first: string, rest: seq<string>, sep: string)
    requires |rest| >= 1
    ensures Join([first] + rest, sep) == first + sep + Join(rest, sep)
  {
    assert ([first] + rest)[1..] == rest;
  }

  /** Splitting at the first separator. */
  lemma SplitFirst(s: string, c: char)
    requires IndexOf(s, c) >= 0
    ensures var i := IndexOf(s, c); Split(s, c) == [s[..i]] + Split(s[i + 1..], c)
  {
  }

  /** A string is what comes before position i, the element at i, and what follows. */
  lemma SliceAround(s: string, i: nat)
    requires i < |s|
    ensures s == s[..i] + [s[i]] + s[i + 1..]
  {
  }

  /** Joining what Split produced gives back the original string. */
  lemma {:induction false} JoinSplit(s: string, c: char)
    ensures Join(Split(s, c), [c]) == s
    decreases |s|
  {
    var i := IndexOf(s, c);
    if i >= 0 {
      var t := s[i + 1..];
      var head := s[..i];
      JoinSplit(t, c);
      var rest := Split(t, c);
      SplitFirst(s, c);
      assert Split(s, c) == [head] + rest;
      JoinCons(head, rest, [c]);
      var joined := Join(rest, [c]);
      assert joined == t;
      SliceAround(s, i);
    }
  }

  /** Splitting a join of separator-free pieces gives back the pieces. */
  lemma {:induction false} SplitJoin(parts: seq<string>, c: char)
    requires |parts| >= 1
    requires forall k :: 0 <= k < |parts| ==> c !in parts[k]
    ensures Split(Join(parts, [c]), c) == parts
  {
    if |parts| > 1 {
      var first := parts[0];
      var n := |first|;
      var rest := Join(parts[1..], [c]);
      assert parts == [first] + parts[1..];
      JoinCons(first, parts[1..], [c]);
      var s := first + [c] + rest;
      forall k | 0 <= k < n ensures s[k] != c {
        assert s[k] == first[k];
      }
      IndexOfIs(s, c, n);
      assert s[..n] == first;
      assert s[n + 1..] == rest;
      SplitJoin(parts[1..], c);
      SplitFirst(s, c);
    }
  }

  /** The first piece of a non-empty join is a prefix of it. */
  lemma {:induction false} JoinStartsWithFirst(parts: seq<string>, sep: string)
    requires |parts| >= 1
    ensures |parts[0]| <= |Join(parts, sep)|
    ensures Join(parts, sep)[..|parts[0]|] == parts[0]
  {
  }

  /**
   * The last `c`-separated component of `s` (the last element of strings.Split):
   * the longest suffix of `s` that contains no `c`.
   */
  function LastComponent(s: string, c: char): (r: string)
    ensures c !in r
    ensures |r| <= |s| && r == s[|s| - |r|..]
    ensures |r| == |s| || s[|s| - |r| - 1] == c
  {
    s[LastIndexOf(s, c) + 1..]
  }

  /** A `c`-free suffix of `s` that is all of `s` or follows a `c` is the last component. */
  lemma LastComponentUnique(s: string, c: char, r: string)
    requires c !in r && |r| <= |s| && r == s[|s| - |r|..]
    requires |r| == |s| || s[|s| - |r| - 1] == c
    ensures r == LastComponent(s, c)
  {
  }



  /** Cutting `s` after a `c` keeps its last component. */
  lemma LastComponentAfter(s: string, c: char, i: nat, t: string)
    requires i < |s| && s[i] == c && t == s[i + 1..]
    ensures LastComponent(t, c) == LastComponent(s, c)
  {
    var l := LastComponent(t, c);
    assert c !in l && |l| <= |t| && l == t[|t| - |l|..];
    assert |l| == |t| || t[|t| - |l| - 1] == c;
    SuffixOfSuffix(s, i + 1, t, |l|);
    assert s[|s| - |l| - 1] == c;
    LastComponentUnique(s, c, l);
  }

  /** A suffix of a suffix of `s` is a suffix of `s`. */
  lemma SuffixOfSuffix(s: string, i: nat, t: string, n: nat)
    requires i <= |s| && t == s[i..] && n <= |t|
    ensures t[|t| - n..] == s[|s| - n..]
    ensures n < |t| ==> t[|t| - n - 1] == s[|s| - n - 1]
  {
  }

  /** Without a separator, strings.Split gives the whole string. */
  lemma SplitWithoutSeparator(s: string, c: char)
    requires IndexOf(s, c) < 0
    ensures Split(s, c) == [s] && c !in s
  {
  }

  /** The last element of a non-empty sequence. */
  function Last<T>(xs: seq<T>): T
    requires |xs| >= 1
  {
    xs[|xs| - 1]
  }

  /** Cutting at the first separator keeps the last piece. */
  lemma SplitLastAfterFirst(s: string, c: char, i: nat, t: string)
    requires IndexOf(s, c) == i && t == s[i + 1..]
    ensures Last(Split(s, c)) == Last(Split(t, c))
  {
    SplitFirst(s, c);
    LastOfCons(Split(s, c), s[..i], Split(s[i + 1..], c));
  }

  /** Putting an element in front keeps the last element. */
  lemma LastOfCons<T>(ys: seq<T>, x: T, xs: seq<T>)
    requires ys == [x] + xs && |xs| >= 1
    ensures Last(ys) == Last(xs)
  {
  }

  /** The last piece strings.Split produces is the last component. */
  lemma {:induction false} SplitLastIsLastComponent(s: string, c: char)
    ensures Last(Split(s, c)) == LastComponent(s, c)
    decreases |s|
  {
    var i := IndexOf(s, c);
    if i < 0 {
      SplitWithoutSeparator(s, c);
      LastComponentUnique(s, c, s);
    } else {
      var t := s[i + 1..];
      SplitLastAfterFirst(s, c, i, t);
      SplitLastIsLastComponent(t, c);
      LastComponentAfter(s, c, i, t);
    }
  }


  /** strings.HasPrefix. */
  predicate HasPrefix(s: string, prefix: string)
  {
    |prefix| <= |s| && s[..|prefix|] == prefix
  }

  /** strings.TrimPrefix. */
  function TrimPrefix(s: string, prefix: string): string
  {
    if HasPrefix(s, prefix) then s[|prefix|..] else s
  }

  /** strings.HasSuffix. */
  predicate HasSuffix(s: string, suffix: string)
  {
    |suffix| <= |s| && s[|s| - |suffix|..] == suffix
  }

  /** strings.TrimSuffix. */
  function TrimSuffix(s: string, suffix: string): string
  {
    if HasSuffix(s, suffix) then s[..|s| - |suffix|] else s
  }

  /** `s` with every trailing "/" removed. */
  function TrimTrailingSlashes(s: string): (r: string)
    ensures |r| <= |s| && r == s[..|r|]
    ensures |r| == 0 || r[|r| - 1] != '/'
    ensures forall k :: |r| <= k < |s| ==> s[k] == '/'
  {
    if |s| > 0 && s[|s| - 1] == '/' then TrimTrailingSlashes(s[..|s| - 1]) else s
  }

  /** Trimming the trailing slashes leaves nothing exactly when the path is slashes only. */
  lemma TrimmedEmptyIff(p: string)
    ensures TrimTrailingSlashes(p) == "" <==> forall k :: 0 <= k < |p| ==> p[k] == '/'
  {
    var q := TrimTrailingSlashes(p);
    if q != "" {
      assert q[|q| - 1] == p[|q| - 1];
    }
  }

  /** What follows the last slash of a path not ending in one is its last element. */
  lemma LastElementIsSuffix(q: string)
    requires q != "" && q[|q| - 1] != '/'
    ensures var r := q[LastIndexOf(q, '/') + 1..];
      && r != "" && '/' !in r
      && |r| <= |q| && r == q[|q| - |r|..]
      && (|r| == |q| || q[|q| - |r| - 1] == '/')
  {
    var i := LastIndexOf(q, '/');
    var r := q[i + 1..];
    assert i < |q| - 1 && |q| - |r| == i + 1;
  }

  /**
   * The last element of a slash-separated path (path.Base, and filepath.Base with
   * "/" as separator): "." for the empty path, "/" for a path of slashes only.
   */
  function PathBase(p: string): (r: string)
    ensures p == "" ==> r == "."
    ensures p != "" && (forall k :: 0 <= k < |p| ==> p[k] == '/') ==> r == "/"
    ensures (exists k :: 0 <= k < |p| && p[k] != '/') ==>
      var q := TrimTrailingSlashes(p);
      && r != "" && '/' !in r
      && |r| <= |q| && r == q[|q| - |r|..]
      && (|r| == |q| || q[|q| - |r| - 1] == '/')
  {
    if p == "" then "."
    else
      var q := TrimTrailingSlashes(p);
      TrimmedEmptyIff(p);
      if q == "" then "/"
      else
        LastElementIsSuffix(q);
        q[LastIndexOf(q, '/') + 1..]
  }

  /**
   * The extension of the last path element, dot included (filepath.Ext): the suffix
   * from the last "." provided no "/" follows it, otherwise "".
   */
  function Ext(p: string): (r: string)
    ensures r == "" || (r[0] == '.' && '.' !in r[1..] && '/' !in r && HasSuffix(p, r))
    ensures r == "" <==> forall k :: 0 <= k < |p| && p[k] == '.' ==> '/' in p[k + 1..]
  {
    var i := LastIndexOf(p, '.');
    if 0 <= i && '/' !in p[i + 1..] then p[i..] else ""
  }

  /**
   * A path element that follows a "/" keeps its extension: the extension of the
   * joined path is the element's own.
   */
  lemma ExtAfterSlash(pre: string, last: string)
    requires |pre| > 0 && pre[|pre| - 1] == '/' && '/' !in last
    ensures Ext(pre + last) == Ext(last)
  {
    var s := pre + last;
    var n := |pre|;
    var i := LastIndexOf(s, '.');
    var i' := LastIndexOf(last, '.');
    if i' >= 0 {
      assert s[n + i'] == '.';
      assert i == n + i';
      assert s[i + 1..] == last[i' + 1..];
      assert s[i..] == last[i'..];
    } else {
      if 0 <= i {
        assert s[i + 1..][n - 2 - i] == '/';
      }
    }
  }

  /** Trimming a suffix of the last part leaves the front untouched. */
  lemma TrimSuffixOfConcat(pre: string, last: string, suffix: string)
    requires HasSuffix(last, suffix)
    ensures TrimSuffix(pre + last, suffix) == pre + TrimSuffix(last, suffix)
  {
    var s := pre + last;
    assert s[|s| - |suffix|..] == last[|last| - |suffix|..];
    assert s[..|s| - |suffix|] == pre + last[..|last| - |suffix|];
  }

  /** The decimal digit for `d`. */
  function Digit(d: nat): char
    requires d < 10
  {
    "0123456789"[d]
  }

  /** The value of a decimal digit character. */
  function DigitValue(ch: char): nat
  {
    if '0' <= ch <= '9' then (ch - '0') as nat else 0
  }

  /** Decimal representation of a natural number, without leading zeros (%d). */
  function NatToString(n: nat): (s: string)
    ensures |s| >= 1
  {
    if n < 10 then [Digit(n)] else NatToString(n / 10) + [Digit(n % 10)]
  }

  /** Decimal representation of an integer, with a leading "-" when negative (%d). */
  function IntToString(i: int): string
  {
    if i < 0 then "-" + NatToString(-i) else NatToString(i)
  }

  /** The number a string of decimal digits denotes. */
  function DecimalValue(s: string): nat
  {
    if |s| == 0 then 0 else DecimalValue(s[..|s| - 1]) * 10 + DigitValue(s[|s| - 1])
  }

  /** Reading back a formatted number gives the number. */
  lemma {:induction false} DecimalRoundTrip(n: nat)
    ensures DecimalValue(NatToString(n)) == n
  {
    if n >= 10 {
      DecimalRoundTrip(n / 10);
      var s := NatToString(n);
      assert s[..|s| - 1] == NatToString(n / 10);
    }
  }

  /** Different numbers have different decimal representations. */
  lemma NatToStringInjective(a: nat, b: nat)
    requires NatToString(a) == NatToString(b)
    ensures a == b
  {
    DecimalRoundTrip(a);
    DecimalRoundTrip(b);
  }
}
