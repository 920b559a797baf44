/** The parts of Go's `strings` and `path/filepath` packages that the
    command code relies on, stated on `seq<char>`. */
module GoStrings {

  import opened Wrappers

  /** `strings.Join(parts, sep)`. */
  function Join(parts: seq<string>, sep: string): string
  {
    if |parts| == 0 then ""
    else if |parts| == 1 then parts[0]
    else parts[0] + sep + Join(parts[1..], sep)
  }

  /** A non-empty join starts with its first part. */
  lemma {:induction false} JoinStartsWithFirst(parts: seq<string>, sep: string)
    requires |parts| > 0
    ensures parts[0] <= Join(parts, sep)
  {
  }

  /** The join of two parts. */
  lemma JoinTwo(a: string, b: string, sep: string)
    ensures Join([a, b], sep) == a + sep + b
  {
    assert [a, b][1..] == [b];
  }

  /** Joining and then appending one more part is the join of the longer list. */
  lemma {:induction false} JoinSnoc(parts: seq<string>, x: string, sep: string)
    requires |parts| > 0
    ensures Join(parts + [x], sep) == Join(parts, sep) + sep + x
  {
    if |parts| == 1 {
      assert parts + [x] == [parts[0], x];
    } else {
      assert (parts + [x])[1..] == parts[1..] + [x];
      JoinSnoc(parts[1..], x, sep);
    }
  }

  /** `strings.Contains(s, string(c))` for one character. */
  predicate ContainsChar(s: string, c: char)
  {
    c in s
  }

  /** `strings.Index(s, string(c))`: the first position of `c`, or -1. */
  function IndexOf(s: string, c: char): (r: int)
    ensures -1 <= r < |s|
    ensures r == -1 <==> c !in s
    ensures r >= 0 ==> s[r] == c && c !in s[..r]
  {
    if |s| == 0 then -1
    else if s[0] == c then 0
    else
      var k := IndexOf(s[1..], c);
      assert k >= 0 ==> s[1..][..k] == s[1..k + 1];
      if k == -1 then -1 else k + 1
  }

  /** `strings.Split(s, string(c))[0]`: the text before the first `c`
      (all of `s` when there is none). */
  function BeforeFirst(s: string, c: char): (r: string)
    ensures r <= s
    ensures c !in r
    ensures |r| < |s| ==> s[|r|] == c
    ensures c !in s ==> r == s
  {
    var k := IndexOf(s, c);
    if k == -1 then s else s[..k]
  }

  /** The first `c` of `a + [c] + b` is the one after `a` when `a` has none. */
  lemma {:induction false} IndexOfAfter(a: string, c: char, b: string)
    requires c !in a
    ensures IndexOf(a + [c] + b, c) == |a|
    ensures BeforeFirst(a + [c] + b, c) == a
  {
    var s := a + [c] + b;
    if |a| > 0 {
      assert s[1..] == a[1..] + [c] + b;
      IndexOfAfter(a[1..], c, b);
    }
    assert s[..|a|] == a;
  }

  /** `strings.Split(s, string(c))[1]`: the text between the first and the
      second `c`. Go panics with "index out of range" when `s` holds no `c`,
      so the result is None then. */
  function SecondField(s: string, c: char): (r: Option<string>)
    ensures r.None? <==> c !in s
    ensures r.Some? ==> c !in r.value
  {
    var k := IndexOf(s, c);
    if k == -1 then None else Some(BeforeFirst(s[k + 1..], c))
  }

  /** Split at the first `c`: the second field of `a + [c] + b`, where `a`
      has no `c`, is the first field of `b`. */
  lemma SecondFieldBetween(a: string, c: char, b: string)
    requires c !in a
    ensures SecondField(a + [c] + b, c) == Some(BeforeFirst(b, c))
  {
    IndexOfAfter(a, c, b);
    assert (a + [c] + b)[|a| + 1..] == b;
  }

  /** `strings.HasPrefix(s, p)`. */
  predicate HasPrefix(s: string, p: string)
  {
    p <= s
  }

  /** `strings.TrimLeft(s, cutset)`: drops every leading character that is
      in the SET `cutset` (it is not a prefix to remove). */
  function TrimLeft(s: string, cutset: set<char>): (r: string)
    ensures |r| <= |s| && r == s[|s| - |r|..]
    ensures r == "" || r[0] !in cutset
    ensures forall i :: 0 <= i < |s| - |r| ==> s[i] in cutset
  {
    if |s| == 0 || s[0] !in cutset then s
    else TrimLeft(s[1..], cutset)
  }

  /** A leading run of cutset characters is dropped whatever follows it. */
  lemma {:induction false} TrimLeftDropsPrefix(p: string, rest: string, cutset: set<char>)
    requires forall i :: 0 <= i < |p| ==> p[i] in cutset
    ensures TrimLeft(p + rest, cutset) == TrimLeft(rest, cutset)
  {
    if |p| > 0 {
      var s := p + rest;
      assert s[0] == p[0];
      assert s[1..] == p[1..] + rest;
      TrimLeftDropsPrefix(p[1..], rest, cutset);
    } else {
      assert p + rest == rest;
    }
  }

  /** Trimming twice is trimming once. */
  lemma TrimLeftIdempotent(s: string, cutset: set<char>)
    ensures TrimLeft(TrimLeft(s, cutset), cutset) == TrimLeft(s, cutset)
  {
  }

  /** `strings.Split(s, string(c))`: the fields between the `c`s. There is
      always at least one, and none holds a `c`. */
  function Split(s: string, c: char): (r: seq<string>)
    ensures |r| >= 1
    ensures forall i :: 0 <= i < |r| ==> c !in r[i]
    decreases |s|
  {
    var k := IndexOf(s, c);
    if k == -1 then [s] else [s[..k]] + Split(s[k + 1..], c)
  }

  /** The first field of `a + [c] + b`, where `a` has no `c`, is `a`. */
  lemma SplitAfter(a: string, c: char, b: string)
    requires c !in a
    ensures Split(a + [c] + b, c) == [a] + Split(b, c)
  {
    IndexOfAfter(a, c, b);
    assert (a + [c] + b)[|a| + 1..] == b;
  }

  /** Splitting at a separator splits each side. */
  lemma {:induction false} SplitConcat(a: string, c: char, b: string)
    ensures Split(a + [c] + b, c) == Split(a, c) + Split(b, c)
    decreases |a|, 1
  {
    if c !in a {
      SplitAfter(a, c, b);
    } else {
      SplitConcatAtFirst(a, c, b);
    }
  }

  /** The same when `a` holds a separator: its first field comes first,
      and the rest of `a` is split with `b`. */
  lemma {:induction false} SplitConcatAtFirst(a: string, c: char, b: string)
    requires c in a
    ensures Split(a + [c] + b, c) == Split(a, c) + Split(b, c)
    decreases |a|, 0
  {
    var k := IndexOf(a, c);
    var a1, a2 := a[..k], a[k + 1..];
    assert Split(a, c) == [a1] + Split(a2, c);
    SplitFirstField(a, c, b, k);
    SplitConcat(a2, c, b);
    ConcatAssoc([a1], Split(a2, c), Split(b, c));
  }

  /** When the first separator of `a` is at `k`, the text before it is
      also the first field of `a + [c] + b`. */
  lemma SplitFirstField(a: string, c: char, b: string, k: int)
    requires 0 <= k < |a| && a[k] == c && c !in a[..k]
    ensures Split(a + [c] + b, c) == [a[..k]] + Split(a[k + 1..] + [c] + b, c)
  {
    var rest := a[k + 1..] + [c] + b;
    Regroup(a, k, c, b);
    SplitAfter(a[..k], c, rest);
  }

  /** Cutting `a` at the separator at position `k`. */
  lemma Regroup(a: string, k: int, c: char, b: string)
    requires 0 <= k < |a| && a[k] == c
    ensures a + [c] + b == a[..k] + [c] + (a[k + 1..] + [c] + b)
  {
    assert a == a[..k] + [c] + a[k + 1..];
  }

  /** Equal texts with the same parts around them: the middles agree. */
  lemma SameMiddle(pre: string, x: string, y: string, post: string)
    requires pre + x + post == pre + y + post
    ensures x == y
  {
    assert |x| == |y|;
    assert x == (pre + x + post)[|pre|..|pre| + |x|];
    assert y == (pre + y + post)[|pre|..|pre| + |y|];
  }

  /** Concatenation is associative. */
  lemma ConcatAssoc<T>(x: seq<T>, y: seq<T>, z: seq<T>)
    ensures x + (y + z) == (x + y) + z
  {
  }

  /** Appending nothing. */
  lemma AppendNothing<T>(s: seq<T>)
    ensures s + [] == s
  {
  }

  /** A join of one part followed by more parts. */
  lemma JoinCons(x: string, rest: seq<string>, sep: string)
    requires |rest| > 0
    ensures Join([x] + rest, sep) == x + sep + Join(rest, sep)
  {
    assert ([x] + rest)[1..] == rest;
  }

  /** Joining the fields with the separator gives the string back. */
  lemma {:induction false} JoinSplit(s: string, c: char)
    ensures Join(Split(s, c), [c]) == s
    decreases |s|
  {
    var k := IndexOf(s, c);
    if k != -1 {
      JoinSplit(s[k + 1..], c);
      JoinCons(s[..k], Split(s[k + 1..], c), [c]);
      assert s == s[..k] + [c] + s[k + 1..];
    }
  }

  /** The join of two non-empty lists of parts. */
  lemma {:induction false} JoinAppend(xs: seq<string>, ys: seq<string>, sep: string)
    requires |xs| > 0 && |ys| > 0
    ensures Join(xs + ys, sep) == Join(xs, sep) + sep + Join(ys, sep)
    decreases |xs|
  {
    if |xs| == 1 {
      JoinCons(xs[0], ys, sep);
      assert xs + ys == [xs[0]] + ys;
    } else {
      JoinAppend(xs[1..], ys, sep);
      JoinCons(xs[0], xs[1..] + ys, sep);
      JoinCons(xs[0], xs[1..], sep);
      assert xs + ys == [xs[0]] + (xs[1..] + ys);
      assert xs == [xs[0]] + xs[1..];
    }
  }

  // ------------------------------------------------------------ filepath

  /** What `filepath.Clean` does with one path element on top of the
      elements kept so far: "" and "." are dropped; ".." removes the last
      kept element unless that is itself "..", is dropped at the root, and
      is kept at the start of a relative path; any other element is kept. */
  function CleanStep(kept: seq<string>, elem: string, rooted: bool): seq<string>
  {
    if elem == "" || elem == "." then kept
    else if elem == ".." then
      if |kept| > 0 && kept[|kept| - 1] != ".." then kept[..|kept| - 1]
      else if rooted then kept
      else kept + [".."]
    else kept + [elem]
  }

  /** `CleanStep` over the elements in order. */
  function CleanElems(kept: seq<string>, elems: seq<string>, rooted: bool): seq<string>
    decreases |elems|
  {
    if |elems| == 0 then kept
    else CleanElems(CleanStep(kept, elems[0], rooted), elems[1..], rooted)
  }

  /** The path that `Clean` writes for the elements it kept: "/" before
      a rooted path, and "." for an empty relative one. */
  function Render(rooted: bool, kept: seq<string>): string
  {
    var body := Join(kept, "/");
    if rooted then "/" + body
    else if body == "" then "."
    else body
  }

  /** `filepath.Clean` with `/` as the separator: the shortest path naming
      the same file, found by reading the elements left to right. */
  function Clean(p: string): (r: string)
    ensures r != ""
  {
    if p == "" then "."
    else
      var rooted := p[0] == '/';
      Render(rooted, CleanElems([], Split(p, '/'), rooted))
  }

  /** `filepath.Join`: the elements from the first non-empty one on,
      joined with `/` and cleaned; "" when every element is empty. */
  function PathJoin(elems: seq<string>): (r: string)
    ensures r == "" <==> forall i :: 0 <= i < |elems| ==> elems[i] == ""
  {
    if |elems| == 0 then ""
    else if elems[0] == "" then PathJoin(elems[1..])
    else Clean(Join(elems, "/"))
  }

  /** `filepath.Join` of three elements whose middle one is not empty. */
  lemma PathJoinThree(a: string, b: string, c: string)
    requires b != ""
    ensures PathJoin([a, b, c]) == Clean(if a == "" then b + "/" + c else a + "/" + b + "/" + c)
  {
    var j := Join([a, b, c], "/");
    var jbc := Join([b, c], "/");
    assert [a, b, c][1..] == [b, c];
    assert j == a + "/" + jbc by {
      assert [a, b, c] == [a] + [b, c];
      JoinCons(a, [b, c], "/");
    }
    assert jbc == b + "/" + c by {
      JoinTwo(b, c, "/");
    }
    if a == "" {
      assert PathJoin([a, b, c]) == PathJoin([b, c]);
      assert PathJoin([b, c]) == Clean(jbc);
    } else {
      assert PathJoin([a, b, c]) == Clean(j);
      ConcatAssoc(a + "/", b + "/", c);
      ConcatAssoc(a + "/", b, "/");
    }
  }

  /** An element that `Clean` keeps and that is not "..". */
  predicate PlainElem(e: string)
  {
    e != "" && e != "." && e != ".." && '/' !in e
  }

  /** A relative path made only of plain elements: "a/b", but not "a//b",
      "./a", "a/.." or "/a". */
  predicate PlainRel(rel: string)
  {
    var elems := Split(rel, '/');
    forall i :: 0 <= i < |elems| ==> PlainElem(elems[i])
  }

  /** `rel` inside the clean directory `dir`. */
  function Under(dir: string, rel: string): string
  {
    if dir == "." then rel
    else if dir == "/" then "/" + rel
    else dir + "/" + rel
  }

  /** An element that `Clean` may keep: ".." included. */
  predicate Kept(e: string)
  {
    e != "" && e != "." && '/' !in e
  }

  /** Cleaning a list is cleaning its first part and then its second. */
  lemma {:induction false} CleanElemsAppend(kept: seq<string>, xs: seq<string>, ys: seq<string>, rooted: bool)
    ensures CleanElems(kept, xs + ys, rooted) == CleanElems(CleanElems(kept, xs, rooted), ys, rooted)
    decreases |xs|
  {
    if |xs| > 0 {
      assert (xs + ys)[1..] == xs[1..] + ys;
      CleanElemsAppend(CleanStep(kept, xs[0], rooted), xs[1..], ys, rooted);
    } else {
      assert xs + ys == ys;
    }
  }

  /** Plain elements are all kept, in order. */
  lemma {:induction false} CleanElemsPlain(kept: seq<string>, ys: seq<string>, rooted: bool)
    requires forall i :: 0 <= i < |ys| ==> PlainElem(ys[i])
    ensures CleanElems(kept, ys, rooted) == kept + ys
    decreases |ys|
  {
    if |ys| > 0 {
      CleanElemsPlain(kept + [ys[0]], ys[1..], rooted);
      assert kept + [ys[0]] + ys[1..] == kept + ys;
    }
  }

  /** Every element `Clean` keeps is non-empty, not "." and holds no `/`. */
  lemma {:induction false} CleanElemsKept(kept: seq<string>, ys: seq<string>, rooted: bool)
    requires forall i :: 0 <= i < |kept| ==> Kept(kept[i])
    requires forall i :: 0 <= i < |ys| ==> '/' !in ys[i]
    ensures forall i :: 0 <= i < |CleanElems(kept, ys, rooted)| ==> Kept(CleanElems(kept, ys, rooted)[i])
    decreases |ys|
  {
    if |ys| > 0 {
      var next := CleanStep(kept, ys[0], rooted);
      assert forall i :: 0 <= i < |next| ==> Kept(next[i]);
      CleanElemsKept(next, ys[1..], rooted);
    }
  }

  /** The join of kept elements is empty only for no elements, and is then
      neither "." nor "/". */
  lemma JoinKept(kept: seq<string>)
    requires forall i :: 0 <= i < |kept| ==> Kept(kept[i])
    requires |kept| > 0
    ensures Join(kept, "/") != "" && Join(kept, "/") != "." && Join(kept, "/") != "/"
  {
    JoinStartsWithFirst(kept, "/");
    var j := Join(kept, "/");
    assert kept[0] == j[..|kept[0]|];
    assert Kept(kept[0]);
  }

  /** The elements of a relative path placed after a separator. */
  lemma SplitUnder(a: string, rel: string)
    requires a != ""
    ensures (a + "/" + rel)[0] == a[0]
    ensures Split(a + "/" + rel, '/') == Split(a, '/') + Split(rel, '/')
  {
    assert a + "/" + rel == a + ['/'] + rel;
    SplitConcat(a, '/', rel);
  }

  /** Cleaning `a/t` reads the elements of `a` and then those of `t`. */
  lemma CleanThen(a: string, t: string)
    requires a != ""
    ensures var rooted := a[0] == '/';
      Clean(a + "/" + t) == Render(rooted, CleanElems(CleanElems([], Split(a, '/'), rooted), Split(t, '/'), rooted))
  {
    SplitUnder(a, t);
    CleanElemsAppend([], Split(a, '/'), Split(t, '/'), a[0] == '/');
  }

  /** The elements of a plain relative path, rendered after kept ones. */
  lemma RenderUnder(rooted: bool, st: seq<string>, rel: string)
    requires forall i :: 0 <= i < |st| ==> Kept(st[i])
    requires PlainRel(rel)
    ensures Render(rooted, st + Split(rel, '/')) == Under(Render(rooted, st), rel)
  {
    var sr := Split(rel, '/');
    JoinSplit(rel, '/');
    assert rel != "" by {
      JoinStartsWithFirst(sr, "/");
    }
    if |st| == 0 {
      assert st + sr == sr;
    } else {
      JoinKept(st);
      JoinAppend(st, sr, "/");
    }
  }

  /** A separator after a path adds one empty element. */
  lemma SplitTrailing(rel: string)
    ensures Split(rel + "/", '/') == Split(rel, '/') + [""]
  {
    assert rel + "/" == rel + ['/'] + "";
    SplitConcat(rel, '/', "");
    assert Split("", '/') == [""];
  }

  /** Cleaning `a/rel`, for a plain relative `rel`, puts `rel` under the
      cleaned `a`. */
  lemma CleanUnder(a: string, rel: string)
    requires a != "" && PlainRel(rel)
    ensures Clean(a + "/" + rel) == Under(Clean(a), rel)
  {
    var rooted := a[0] == '/';
    var st := CleanElems([], Split(a, '/'), rooted);
    assert Clean(a) == Render(rooted, st);
    CleanElemsKept([], Split(a, '/'), rooted);
    CleanElemsPlain(st, Split(rel, '/'), rooted);
    RenderUnder(rooted, st, rel);
    CleanThen(a, rel);
  }

  /** A separator after a plain relative `rel` changes nothing. */
  lemma CleanUnderTrailing(a: string, rel: string)
    requires a != "" && PlainRel(rel)
    ensures Clean(a + "/" + rel + "/") == Under(Clean(a), rel)
  {
    var rooted := a[0] == '/';
    var st := CleanElems([], Split(a, '/'), rooted);
    assert Clean(a) == Render(rooted, st);
    CleanElemsKept([], Split(a, '/'), rooted);
    ConcatAssoc(a + "/", rel, "/");
    CleanElemsTrailing(st, rel, rooted);
    RenderUnder(rooted, st, rel);
    CleanThen(a, rel + "/");
  }

  /** The plain elements of `rel/` are kept, and the empty one at the end
      is dropped. */
  lemma CleanElemsTrailing(st: seq<string>, rel: string, rooted: bool)
    requires PlainRel(rel)
    ensures CleanElems(st, Split(rel + "/", '/'), rooted) == st + Split(rel, '/')
  {
    var sr := Split(rel, '/');
    SplitTrailing(rel);
    CleanElemsAppend(st, sr, [""], rooted);
    CleanElemsPlain(st, sr, rooted);
    assert [""][1..] == [];
  }

  /** The elements of `e/rest` for an element `e` without a separator. */
  lemma SplitCons(e: string, rest: string)
    requires '/' !in e
    ensures Split(e + "/" + rest, '/') == [e] + Split(rest, '/')
  {
    assert e + "/" + rest == e + ['/'] + rest;
    SplitAfter(e, '/', rest);
  }

  /** A plain element alone is a plain relative path. */
  lemma PlainRelOne(e: string)
    requires PlainElem(e)
    ensures PlainRel(e)
  {
  }

  /** A plain element in front of a plain relative path. */
  lemma PlainRelCons(e: string, rel: string)
    requires PlainElem(e) && PlainRel(rel)
    ensures PlainRel(e + "/" + rel)
  {
    SplitCons(e, rel);
  }

  /** A plain relative path is not empty and does not start at the root. */
  lemma PlainRelShape(rel: string)
    requires PlainRel(rel)
    ensures rel != "" && rel[0] != '/'
  {
    var sr := Split(rel, '/');
    JoinSplit(rel, '/');
    JoinStartsWithFirst(sr, "/");
    assert PlainElem(sr[0]);
    assert rel[0] == sr[0][0];
  }

  /** A plain relative path is already clean. */
  lemma CleanPlainRel(rel: string)
    requires PlainRel(rel)
    ensures Clean(rel) == rel
  {
    var sr := Split(rel, '/');
    JoinSplit(rel, '/');
    PlainRelShape(rel);
    CleanElemsPlain([], sr, false);
    assert [] + sr == sr;
  }

  /** `/rel`, with or without a separator after it, cleans to `/rel`. */
  lemma CleanRooted(rel: string)
    requires PlainRel(rel)
    ensures Clean("/" + rel) == "/" + rel
    ensures Clean("/" + rel + "/") == "/" + rel
  {
    var sr := Split(rel, '/');
    JoinSplit(rel, '/');
    assert [] + sr == sr;
    CleanRootedThen(rel);
    CleanElemsPlain([], sr, true);
    CleanRootedThen(rel + "/");
    CleanElemsTrailing([], rel, true);
    ConcatAssoc("/", rel, "/");
  }

  /** Cleaning `/t` reads the elements of `t` from the root. */
  lemma CleanRootedThen(t: string)
    ensures Clean("/" + t) == Render(true, CleanElems([], Split(t, '/'), true))
  {
    SplitCons("", t);
    assert "" + "/" + t == "/" + t;
    assert ([""] + Split(t, '/'))[1..] == Split(t, '/');
  }

  /** An empty element, as the one `//` makes, is dropped. */
  lemma CleanDropsEmpty(a: string, t: string)
    requires a != ""
    ensures Clean(a + "/" + ("/" + t)) == Clean(a + "/" + t)
  {
    CleanThen(a, "/" + t);
    CleanThen(a, t);
    SplitCons("", t);
    assert "" + "/" + t == "/" + t;
    assert ([""] + Split(t, '/'))[1..] == Split(t, '/');
  }

  /** `e/..` cancels out after a non-empty path. */
  lemma CleanParent(a: string, e: string, t: string)
    requires a != "" && PlainElem(e)
    ensures Clean(a + "/" + (e + "/" + ("../" + t))) == Clean(a + "/" + t)
  {
    var rooted := a[0] == '/';
    var st := CleanElems([], Split(a, '/'), rooted);
    CleanThen(a, e + "/" + ("../" + t));
    CleanThen(a, t);
    SplitParent(e, t);
    CleanElemsParent(st, e, Split(t, '/'), rooted);
  }

  /** The elements of `e/../t`. */
  lemma SplitParent(e: string, t: string)
    requires PlainElem(e)
    ensures Split(e + "/" + ("../" + t), '/') == [e] + ([".."] + Split(t, '/'))
  {
    SplitCons(e, "../" + t);
    assert "../" + t == ".." + "/" + t;
    SplitCons("..", t);
  }

  /** A kept element followed by ".." leaves the kept elements as they were. */
  lemma CleanElemsParent(st: seq<string>, e: string, ts: seq<string>, rooted: bool)
    requires PlainElem(e)
    ensures CleanElems(st, [e] + ([".."] + ts), rooted) == CleanElems(st, ts, rooted)
  {
    var es := [e] + ([".."] + ts);
    assert es[0] == e && es[1..] == [".."] + ts;
    assert ([".."] + ts)[0] == ".." && ([".."] + ts)[1..] == ts;
    assert CleanStep(st, e, rooted) == st + [e];
    assert CleanStep(st + [e], "..", rooted) == st by {
      assert (st + [e])[..|st|] == st;
    }
  }

  /** A plain relative path with a separator after it cleans to itself. */
  lemma CleanRelTrailing(rel: string)
    requires PlainRel(rel)
    ensures Clean(rel + "/") == rel
  {
    var sr := Split(rel, '/');
    CleanPlainRel(rel);
    SplitTrailing(rel);
    CleanElemsPlain([], sr, false);
    CleanElemsAppend([], sr, [""], false);
    assert [""][1..] == [];
    assert [] + sr == sr;
    assert (rel + "/")[0] == rel[0];
  }

  /** The path from the directory `d` to `rel`, for an empty or plain
      relative `rel`. */
  function Child(d: string, rel: string): string
  {
    if rel == "" then d else d + "/" + rel
  }

  /** `filepath.Join(home, d, rel)` for a plain element `d` and an empty or
      plain relative `rel`: `d/rel` under the cleaned `home`. */
  lemma PathJoinChild(home: string, d: string, rel: string)
    requires PlainElem(d)
    ensures rel == "" || PlainRel(rel) ==>
      PathJoin([home, d, rel]) == if home == "" then Child(d, rel) else Under(Clean(home), Child(d, rel))
  {
    if rel == "" {
      PathJoinEmptyLast(home, d);
    } else if PlainRel(rel) {
      PathJoinPlain(home, d, rel);
    }
  }

  /** `filepath.Join(home, d, rel)` for a plain element `d` and a plain
      relative `rel`: `d/rel` under the cleaned `home`. */
  lemma PathJoinPlain(home: string, d: string, rel: string)
    requires PlainElem(d) && PlainRel(rel)
    ensures home != "" ==> PathJoin([home, d, rel]) == Under(Clean(home), d + "/" + rel)
    ensures home == "" ==> PathJoin([home, d, rel]) == d + "/" + rel
  {
    PathJoinThree(home, d, rel);
    PlainRelCons(d, rel);
    if home != "" {
      CleanUnder(home, d + "/" + rel);
      ConcatAssoc(home + "/", d + "/", rel);
      ConcatAssoc(home + "/", d, "/");
    } else {
      CleanPlainRel(d + "/" + rel);
    }
  }

  /** `filepath.Join(home, d, "")` for a plain element `d`: `d` under the
      cleaned `home`. */
  lemma PathJoinEmptyLast(home: string, d: string)
    requires PlainElem(d)
    ensures home != "" ==> PathJoin([home, d, ""]) == Under(Clean(home), d)
    ensures home == "" ==> PathJoin([home, d, ""]) == d
  {
    PathJoinThree(home, d, "");
    PlainRelOne(d);
    if home != "" {
      CleanUnderTrailing(home, d);
      AppendNothing(home + "/" + d + "/");
    } else {
      CleanRelTrailing(d);
      AppendNothing(d + "/");
    }
  }

  /** The elements `Clean` can end with: kept elements, no ".." at the
      root, and every ".." before every other element. */
  predicate Normal(kept: seq<string>, rooted: bool)
  {
    && (forall i :: 0 <= i < |kept| ==> Kept(kept[i]))
    && (rooted ==> forall i :: 0 <= i < |kept| ==> kept[i] != "..")
    && (forall i, j :: 0 <= i < j < |kept| && kept[j] == ".." ==> kept[i] == "..")
  }

  /** Each step keeps the elements normal. */
  lemma CleanStepNormal(kept: seq<string>, e: string, rooted: bool)
    requires Normal(kept, rooted) && '/' !in e
    ensures Normal(CleanStep(kept, e, rooted), rooted)
  {
  }

  /** `Clean` ends with normal elements. */
  lemma {:induction false} CleanElemsNormal(kept: seq<string>, ys: seq<string>, rooted: bool)
    requires Normal(kept, rooted)
    requires forall i :: 0 <= i < |ys| ==> '/' !in ys[i]
    ensures Normal(CleanElems(kept, ys, rooted), rooted)
    decreases |ys|
  {
    if |ys| > 0 {
      CleanStepNormal(kept, ys[0], rooted);
      CleanElemsNormal(CleanStep(kept, ys[0], rooted), ys[1..], rooted);
    }
  }

  /** Normal elements after normal ones are read back unchanged. */
  lemma {:induction false} CleanElemsOfNormal(pre: seq<string>, ys: seq<string>, rooted: bool)
    requires Normal(pre + ys, rooted)
    ensures CleanElems(pre, ys, rooted) == pre + ys
    decreases |ys|
  {
    if |ys| > 0 {
      var all := pre + ys;
      assert all[|pre|] == ys[0];
      if ys[0] == ".." && |pre| > 0 {
        assert all[|pre| - 1] == pre[|pre| - 1];
      }
      assert CleanStep(pre, ys[0], rooted) == pre + [ys[0]];
      assert pre + [ys[0]] + ys[1..] == all;
      CleanElemsOfNormal(pre + [ys[0]], ys[1..], rooted);
    } else {
      assert pre + ys == pre;
    }
  }

  /** Splitting a join of separator-free parts gives the parts back. */
  lemma {:induction false} SplitJoin(parts: seq<string>)
    requires |parts| > 0
    requires forall i :: 0 <= i < |parts| ==> '/' !in parts[i]
    ensures Split(Join(parts, "/"), '/') == parts
    decreases |parts|
  {
    if |parts| > 1 {
      SplitJoin(parts[1..]);
      SplitCons(parts[0], Join(parts[1..], "/"));
      assert parts == [parts[0]] + parts[1..];
    }
  }

  /** A rooted path written from normal elements is clean. */
  lemma CleanRenderRooted(st: seq<string>)
    requires Normal(st, true)
    ensures Clean(Render(true, st)) == Render(true, st)
  {
    var j := Join(st, "/");
    SplitCons("", j);
    assert "" + "/" + j == "/" + j;
    assert ([""] + Split(j, '/'))[1..] == Split(j, '/');
    if |st| == 0 {
      assert Split("", '/') == [""];
      assert [""][1..] == [];
    } else {
      SplitJoin(st);
      CleanElemsOfNormal([], st, true);
      assert [] + st == st;
    }
  }

  /** A relative path written from normal elements is clean. */
  lemma CleanRenderRelative(st: seq<string>)
    requires Normal(st, false)
    ensures Clean(Render(false, st)) == Render(false, st)
  {
    if |st| == 0 {
      assert Split(".", '/') == ["."];
    } else {
      SplitJoin(st);
      JoinKept(st);
      JoinNotRooted(st);
      CleanElemsOfNormal([], st, false);
      assert [] + st == st;
    }
  }

  /** The join of kept elements does not start at the root. */
  lemma JoinNotRooted(st: seq<string>)
    requires |st| > 0 && forall i :: 0 <= i < |st| ==> Kept(st[i])
    ensures Join(st, "/") != "" && Join(st, "/")[0] != '/'
  {
    JoinKept(st);
    JoinStartsWithFirst(st, "/");
    assert Join(st, "/")[0] == st[0][0];
  }

  /** Cleaning a clean path changes nothing. */
  lemma CleanIdempotent(p: string)
    ensures Clean(Clean(p)) == Clean(p)
  {
    if p != "" {
      var rooted := p[0] == '/';
      CleanElemsNormal([], Split(p, '/'), rooted);
      if rooted {
        CleanRenderRooted(CleanElems([], Split(p, '/'), rooted));
      } else {
        CleanRenderRelative(CleanElems([], Split(p, '/'), rooted));
      }
    } else {
      assert Split(".", '/') == ["."];
    }
  }

  /** What `filepath.Join` gives is clean, unless it is empty. */
  lemma PathJoinClean(elems: seq<string>)
    ensures PathJoin(elems) != "" ==> Clean(PathJoin(elems)) == PathJoin(elems)
  {
    if |elems| > 0 {
      if elems[0] == "" {
        PathJoinClean(elems[1..]);
      } else {
        CleanIdempotent(Join(elems, "/"));
      }
    }
  }
}
