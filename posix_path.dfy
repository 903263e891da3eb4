/**
 * The POSIX path operations the extraction guard relies on: `os.path.join`,
 * `os.path.normpath`, `os.path.abspath` (with the working directory as a
 * parameter) and `os.path.commonprefix` on two strings.
 */
module PosixPath {

  predicate IsAbs(p: string) {
    |p| > 0 && p[0] == '/'
  }

  /** `os.path.join(a, b)`: an absolute `b` replaces `a`; otherwise `b` follows `a`,
      with a separator in between unless `a` is empty or already ends in one. */
  function Join(a: string, b: string): string {
    if IsAbs(b) then b else a + Sep(a) + b
  }

  /** The separator `join` inserts after `a`: none when `a` is empty or ends in one. */
  function Sep(a: string): string {
    if a == [] || a[|a| - 1] == '/' then "" else "/"
  }

  /** `s.split('/')`: the pieces between separators, empty pieces included. */
  function Split(s: string): (r: seq<string>)
    ensures |r| >= 1
  {
    if s == [] then [[]]
    else
      var rest := Split(s[1..]);
      if s[0] == '/' then [[]] + rest else [[s[0]] + rest[0]] + rest[1..]
  }

  /** `'/'.join(cs)`. */
  function JoinComps(cs: seq<string>): string {
    if cs == [] then []
    else if |cs| == 1 then cs[0]
    else cs[0] + "/" + JoinComps(cs[1..])
  }

  predicate NoSlash(c: string) {
    '/' !in c
  }

  /** Joining the pieces of a split gives back the string, and no piece holds a separator. */
  lemma {:induction false} SplitRoundTrip(s: string)
    ensures JoinComps(Split(s)) == s
    ensures forall i :: 0 <= i < |Split(s)| ==> NoSlash(Split(s)[i])
  {
    if s != [] {
      SplitRoundTrip(s[1..]);
      var rest := Split(s[1..]);
      if s[0] == '/' {
        assert s == "/" + s[1..];
      } else if |rest| == 1 {
        assert s == [s[0]] + s[1..];
      } else {
        assert JoinComps(rest) == rest[0] + "/" + JoinComps(rest[1..]);
        assert s == [s[0]] + s[1..];
      }
    }
  }

  /** The number of leading separators `normpath` keeps: POSIX gives exactly two
      leading slashes an implementation-defined meaning, so `//` is kept while a
      single slash or three or more collapse to one. */
  function RootSlashes(p: string): (n: nat)
    ensures n <= 2 && (n == 0 <==> !IsAbs(p))
  {
    if !IsAbs(p) then 0
    else if |p| >= 2 && p[1] == '/' && !(|p| >= 3 && p[2] == '/') then 2
    else 1
  }

  function Slashes(n: nat): (r: string)
    requires n <= 2
    ensures |r| == n && forall i :: 0 <= i < n ==> r[i] == '/'
  {
    if n == 0 then "" else if n == 1 then "/" else "//"
  }

  /** One iteration of `normpath`'s component loop: skip empty and `.` pieces; push
      a name; `..` pops a name, is dropped at the root of an absolute path, and is
      kept at the front of a relative one. */
  function Step(stack: seq<string>, comp: string, rooted: bool): seq<string> {
    if comp == "" || comp == "." then stack
    else if comp != ".." || (!rooted && stack == []) || (stack != [] && stack[|stack| - 1] == "..") then
      stack + [comp]
    else if stack != [] then stack[..|stack| - 1]
    else stack
  }

  function Collapse(stack: seq<string>, comps: seq<string>, rooted: bool): seq<string>
    decreases |comps|
  {
    if comps == [] then stack else Collapse(Step(stack, comps[0], rooted), comps[1..], rooted)
  }

  /** `os.path.normpath(p)`. */
  function NormPath(p: string): (r: string)
    ensures r != []
  {
    if p == [] then "."
    else
      var n := RootSlashes(p);
      var path := Slashes(n) + JoinComps(Collapse([], Split(p), n > 0));
      if path == [] then "." else path
  }

  /** `os.path.abspath(p)` with the working directory `cwd` given. */
  function AbsPath(cwd: string, p: string): string {
    NormPath(if IsAbs(p) then p else Join(cwd, p))
  }

  /** `os.path.commonprefix([a, b])`: the longest common character prefix. For two
      strings the min/max ordering the library applies first does not matter,
      because the longest common prefix is symmetric. */
  function CommonPrefix(a: string, b: string): (r: string)
    ensures r <= a && r <= b
    ensures |r| == |a| || |r| == |b| || a[|r|] != b[|r|]
  {
    if a == [] || b == [] || a[0] != b[0] then [] else [a[0]] + CommonPrefix(a[1..], b[1..])
  }

  /** `commonprefix([a, b]) == a` holds exactly when `a` is a character prefix of `b`. */
  lemma CommonPrefixIsPrefix(a: string, b: string)
    ensures CommonPrefix(a, b) == a <==> a <= b
  {
  }

  lemma {:induction false} CommonPrefixSymmetric(a: string, b: string)
    ensures CommonPrefix(a, b) == CommonPrefix(b, a)
  {
    if a != [] && b != [] && a[0] == b[0] {
      CommonPrefixSymmetric(a[1..], b[1..]);
    }
  }

  // ---- Structural facts used by the guard's proofs ----

  lemma {:induction false} SplitAroundSlash(a: string, b: string)
    ensures Split(a + "/" + b) == Split(a) + Split(b)
  {
    if a == [] {
      assert a + "/" + b == "/" + b;
      assert ("/" + b)[1..] == b;
    } else {
      var s := a + "/" + b;
      assert s[0] == a[0] && s[1..] == a[1..] + "/" + b;
      SplitAroundSlash(a[1..], b);
      var ra, rb := Split(a[1..]), Split(b);
      if a[0] != '/' {
        assert (ra + rb)[0] == ra[0] && (ra + rb)[1..] == ra[1..] + rb;
      }
    }
  }

  lemma {:induction false} SplitWithoutSlash(s: string)
    requires NoSlash(s)
    ensures Split(s) == [s]
  {
    if s != [] {
      assert s == [s[0]] + s[1..];
      SplitWithoutSlash(s[1..]);
    }
  }

  /** Splitting the join of separator-free pieces gives the pieces back. */
  lemma {:induction false} SplitOfJoinComps(cs: seq<string>)
    requires |cs| >= 1 && forall i :: 0 <= i < |cs| ==> NoSlash(cs[i])
    ensures Split(JoinComps(cs)) == cs
  {
    if |cs| == 1 {
      SplitWithoutSlash(cs[0]);
    } else {
      SplitOfJoinComps(cs[1..]);
      SplitAroundSlash(cs[0], JoinComps(cs[1..]));
      SplitWithoutSlash(cs[0]);
    }
  }

  lemma {:induction false} CollapseAppend(st: seq<string>, xs: seq<string>, ys: seq<string>, rooted: bool)
    ensures Collapse(st, xs + ys, rooted) == Collapse(Collapse(st, xs, rooted), ys, rooted)
    decreases |xs|
  {
    if xs == [] {
      assert xs + ys == ys;
    } else {
      assert (xs + ys)[1..] == xs[1..] + ys;
      CollapseAppend(Step(st, xs[0], rooted), xs[1..], ys, rooted);
    }
  }

  /** The pieces that survive when no `..` is present. */
  function Names(comps: seq<string>): seq<string> {
    if comps == [] then []
    else (if comps[0] == "" || comps[0] == "." then [] else [comps[0]]) + Names(comps[1..])
  }

  lemma {:induction false} CollapseWithoutParent(st: seq<string>, comps: seq<string>, rooted: bool)
    requires ".." !in comps
    ensures Collapse(st, comps, rooted) == st + Names(comps)
    decreases |comps|
  {
    if comps != [] {
      assert ".." !in comps[1..];
      CollapseWithoutParent(Step(st, comps[0], rooted), comps[1..], rooted);
    }
  }

  lemma {:induction false} JoinCompsPrefix(st: seq<string>, more: seq<string>)
    ensures JoinComps(st) <= JoinComps(st + more)
    decreases |st|
  {
    if |st| == 1 {
      if more != [] {
        assert (st + more)[1..] == more;
      }
    } else if |st| > 1 {
      assert (st + more)[1..] == st[1..] + more;
      JoinCompsPrefix(st[1..], more);
    }
  }

  /** `join` is associative when the later pieces are relative. */
  lemma JoinAssociative(a: string, b: string, c: string)
    requires !IsAbs(b) && !IsAbs(c)
    ensures Join(a, Join(b, c)) == Join(Join(a, b), c)
  {
    if b == [] {
      assert Join(b, c) == c;
      assert Join(a, b) == a + Sep(a);
      assert Sep(a + Sep(a)) == "";
    } else {
      var bc := b + Sep(b) + c;
      assert Join(b, c) == bc;
      assert bc[0] == b[0];
      var ab := a + Sep(a) + b;
      assert Join(a, b) == ab;
      assert ab[|ab| - 1] == b[|b| - 1];
      assert Sep(ab) == Sep(b);
      assert a + Sep(a) + bc == ab + Sep(b) + c;
    }
  }

  /** Appending a relative piece to a non-empty path keeps its leading separators. */
  lemma RootSlashesOfJoin(p: string, n: string)
    requires p != [] && !IsAbs(n)
    ensures RootSlashes(Join(p, n)) == RootSlashes(p)
  {
    var j := Join(p, n);
    assert j[..|p|] == p;
    if |p| < 3 && IsAbs(p) {
      if p[|p| - 1] == '/' {
        assert j == p + n;
        assert |n| > 0 ==> j[|p|] == n[0];
      } else {
        assert j == p + "/" + n;
      }
    }
  }

  /** Joining a relative, `..`-free piece onto `p` adds its names after the
      components that `normpath` keeps of `p`. */
  lemma CollapseOfJoin(p: string, n: string)
    requires p != [] && !IsAbs(n) && ".." !in Split(n)
    ensures Collapse([], Split(Join(p, n)), true) == Collapse([], Split(p), true) + Names(Split(n))
  {
    var base: string;
    if p[|p| - 1] == '/' {
      base := p[..|p| - 1];
      assert p == base + "/" + "";
      assert Join(p, n) == base + "/" + n;
      SplitAroundSlash(base, "");
      CollapseAppend([], Split(base), [[]], true);
    } else {
      base := p;
      assert Join(p, n) == p + "/" + n;
    }
    var st := Collapse([], Split(base), true);
    assert Collapse([], Split(p), true) == st;
    SplitAroundSlash(base, n);
    CollapseAppend([], Split(base), Split(n), true);
    CollapseWithoutParent(st, Split(n), true);
  }

  /** Appending a relative, `..`-free piece to an absolute path extends its normal
      form: the normal form of the base is a character prefix of the result. */
  lemma NormPathExtends(p: string, n: string)
    requires IsAbs(p) && !IsAbs(n) && ".." !in Split(n)
    ensures NormPath(p) <= NormPath(Join(p, n))
  {
    var j := Join(p, n);
    RootSlashesOfJoin(p, n);
    CollapseOfJoin(p, n);
    var k := RootSlashes(p);
    var st := Collapse([], Split(p), true);
    assert NormPath(p) == Slashes(k) + JoinComps(st);
    assert NormPath(j) == Slashes(k) + JoinComps(st + Names(Split(n)));
    JoinCompsPrefix(st, Names(Split(n)));
  }

  /** A plain file or directory name: non-empty, no separator, neither `.` nor `..`. */
  predicate IsName(c: string) {
    c != "" && c != "." && c != ".." && NoSlash(c)
  }

  lemma SplitOfTwoNames(a: string, b: string)
    requires IsName(a) && IsName(b)
    ensures Split("/" + a + "/" + b) == ["", a, b]
  {
    assert "/" + a + "/" + b == [] + "/" + (a + "/" + b);
    SplitAroundSlash([], a + "/" + b);
    SplitAroundSlash(a, b);
    SplitWithoutSlash(a);
    SplitWithoutSlash(b);
  }

  /** An absolute path of two plain names is already normal. */
  lemma NormPathOfTwoNames(a: string, b: string)
    requires IsName(a) && IsName(b)
    ensures NormPath("/" + a + "/" + b) == "/" + a + "/" + b
  {
    var p := "/" + a + "/" + b;
    SplitOfTwoNames(a, b);
    assert RootSlashes(p) == 1 by {
      assert p[1] == a[0] && a[0] in a;
    }
    assert Collapse([], ["", a, b], true) == [a, b] by {
      assert ["", a, b][1..] == [a, b] && [a, b][1..] == [b];
      assert Step([], a, true) == [a];
      assert Step([a], b, true) == [a, b];
      calc {
        Collapse([], ["", a, b], true);
        Collapse([], [a, b], true);
        Collapse([a], [b], true);
        Collapse([a, b], [], true);
      }
    }
    assert JoinComps([a, b]) == a + "/" + b by {
      assert [a, b][1..] == [b];
    }
    assert NormPath(p) == Slashes(1) + JoinComps([a, b]);
  }

  lemma SplitOfParentStep(a: string, b: string, c: string)
    requires IsName(a) && IsName(b) && IsName(c)
    ensures var p := Join("/" + a + "/" + b, "../" + c);
      Split(p) == ["", a, b, "..", c] && RootSlashes(p) == 1
  {
    var base := "/" + a + "/" + b;
    var p := Join(base, "../" + c);
    assert base[|base| - 1] == b[|b| - 1];
    assert p == base + "/" + ("../" + c);
    SplitAroundSlash(base, "../" + c);
    SplitOfTwoNames(a, b);
    assert "../" + c == ".." + "/" + c;
    SplitAroundSlash("..", c);
    SplitWithoutSlash("..");
    SplitWithoutSlash(c);
    assert p[1] == a[0];
  }

  lemma CollapseParentStep(a: string, b: string, c: string)
    requires IsName(a) && IsName(b) && IsName(c)
    ensures Collapse([], ["", a, b, "..", c], true) == [a, c]
  {
    var cs := ["", a, b, "..", c];
    assert Collapse([], cs, true) == Collapse([], cs[1..], true);
    assert cs[1..] == [a, b, "..", c];
    assert Step([], a, true) == [a];
    assert [a, b, "..", c][1..] == [b, "..", c];
    assert Collapse([], [a, b, "..", c], true) == Collapse([a], [b, "..", c], true);
    assert Step([a], b, true) == [a, b];
    assert [b, "..", c][1..] == ["..", c];
    assert Collapse([a], [b, "..", c], true) == Collapse([a, b], ["..", c], true);
    assert Step([a, b], "..", true) == [a];
    assert ["..", c][1..] == [c];
    assert Collapse([a, b], ["..", c], true) == Collapse([a], [c], true);
    assert Collapse([a], [c], true) == [a, c];
  }

  /** `normpath` resolves a `..` member against the last name of the base: joining
      `../c` onto `/a/b` lands on `/a/c`. */
  lemma NormPathParentStep(a: string, b: string, c: string)
    requires IsName(a) && IsName(b) && IsName(c)
    ensures NormPath(Join("/" + a + "/" + b, "../" + c)) == "/" + a + "/" + c
  {
    var p := Join("/" + a + "/" + b, "../" + c);
    SplitOfParentStep(a, b, c);
    CollapseParentStep(a, b, c);
    assert JoinComps([a, c]) == a + "/" + c;
    assert NormPath(p) == "/" + JoinComps([a, c]);
  }

  lemma SplitOfDoubleParentStep(a: string, b: string, c: string)
    requires IsName(a) && IsName(b) && IsName(c)
    ensures var p := Join("/" + a + "/" + b, "../../" + c);
      Split(p) == ["", a, b, "..", "..", c] && RootSlashes(p) == 1
  {
    var base := "/" + a + "/" + b;
    var p := Join(base, "../../" + c);
    assert base[|base| - 1] == b[|b| - 1];
    assert p == base + "/" + ("../../" + c);
    SplitAroundSlash(base, "../../" + c);
    SplitOfTwoNames(a, b);
    assert "../../" + c == ".." + "/" + (".." + "/" + c);
    SplitAroundSlash("..", ".." + "/" + c);
    SplitAroundSlash("..", c);
    SplitWithoutSlash("..");
    SplitWithoutSlash(c);
    assert p[1] == a[0];
  }

  lemma CollapseDoubleParentStep(a: string, b: string, c: string)
    requires IsName(a) && IsName(b) && IsName(c)
    ensures Collapse([], ["", a, b, "..", "..", c], true) == [c]
  {
    var cs := ["", a, b, "..", "..", c];
    assert cs[1..] == [a, b, "..", "..", c];
    assert Collapse([], cs, true) == Collapse([], cs[1..], true);
    assert [a, b, "..", "..", c][1..] == [b, "..", "..", c];
    assert Step([], a, true) == [a];
    assert Collapse([], [a, b, "..", "..", c], true) == Collapse([a], [b, "..", "..", c], true);
    assert [b, "..", "..", c][1..] == ["..", "..", c];
    assert Step([a], b, true) == [a, b];
    assert Collapse([a], [b, "..", "..", c], true) == Collapse([a, b], ["..", "..", c], true);
    assert Step([a, b], "..", true) == [a];
    assert ["..", "..", c][1..] == ["..", c];
    assert Collapse([a, b], ["..", "..", c], true) == Collapse([a], ["..", c], true);
    assert Step([a], "..", true) == [];
    assert ["..", c][1..] == [c];
    assert Collapse([a], ["..", c], true) == Collapse([], [c], true);
    assert Collapse([], [c], true) == [c];
  }

  /** Two `..` pieces climb two levels: joining `../../c` onto `/a/b` lands on `/c`. */
  lemma NormPathDoubleParentStep(a: string, b: string, c: string)
    requires IsName(a) && IsName(b) && IsName(c)
    ensures NormPath(Join("/" + a + "/" + b, "../../" + c)) == "/" + c
  {
    var p := Join("/" + a + "/" + b, "../../" + c);
    SplitOfDoubleParentStep(a, b, c);
    CollapseDoubleParentStep(a, b, c);
    assert NormPath(p) == "/" + JoinComps([c]);
  }

  /** On a rooted path, collapsing pieces without separators onto a stack of names
      leaves only names: no empty piece, no `.` and no `..` survives. */
  lemma {:induction false} CollapseRootedKeepsNames(stack: seq<string>, comps: seq<string>)
    requires forall i :: 0 <= i < |stack| ==> IsName(stack[i])
    requires forall i :: 0 <= i < |comps| ==> NoSlash(comps[i])
    ensures forall i :: 0 <= i < |Collapse(stack, comps, true)| ==> IsName(Collapse(stack, comps, true)[i])
    decreases |comps|
  {
    if comps != [] {
      var next := Step(stack, comps[0], true);
      assert forall i :: 0 <= i < |next| ==> IsName(next[i]);
      assert forall i :: 0 <= i < |comps[1..]| ==> NoSlash(comps[1..][i]) by {
        forall i | 0 <= i < |comps[1..]|
          ensures NoSlash(comps[1..][i])
        {
          assert comps[1..][i] == comps[i + 1];
        }
      }
      CollapseRootedKeepsNames(next, comps[1..]);
      assert Collapse(stack, comps, true) == Collapse(next, comps[1..], true);
    } else {
      assert Collapse(stack, comps, true) == stack;
    }
  }

  /** The normal form of an absolute path: its one or two root slashes followed by
      plain names joined by single separators. */
  lemma NormPathAbsoluteForm(p: string)
    requires IsAbs(p)
    ensures var cs := Collapse([], Split(p), true);
      NormPath(p) == Slashes(RootSlashes(p)) + JoinComps(cs)
      && (RootSlashes(p) == 1 || RootSlashes(p) == 2)
      && forall i :: 0 <= i < |cs| ==> IsName(cs[i])
  {
    SplitRoundTrip(p);
    CollapseRootedKeepsNames([], Split(p));
  }
}
