/**
 * `os.path.abspath` as both stores apply it to a recorded path (POSIX
 * `posixpath` of Python 2): a relative path is joined to the working
 * directory, then `normpath` splits it at '/', drops empty and "."
 * components, lets ".." cancel the component before it, and keeps one
 * leading slash, or exactly two.  The working directory (`os.getcwd()`)
 * is a parameter.
 */
module Paths {

  predicate IsAbs(p: string)
  {
    |p| > 0 && p[0] == '/'
  }

  /** `s.split('/')`: at least one component, none containing '/'. */
  function Split(s: string): (r: seq<string>)
    ensures |r| >= 1
    ensures forall i :: 0 <= i < |r| ==> '/' !in r[i]
  {
    if s == [] then [""]
    else if s[0] == '/' then [""] + Split(s[1..])
    else
      var rest := Split(s[1..]);
      [[s[0]] + rest[0]] + rest[1..]
  }

  /** `'/'.join(comps)`. */
  function JoinSlash(comps: seq<string>): string
  {
    if comps == [] then ""
    else if |comps| == 1 then comps[0]
    else comps[0] + "/" + JoinSlash(comps[1..])
  }

  /** `posixpath.join(a, b)` for two arguments. */
  function Join(a: string, b: string): string
  {
    if IsAbs(b) then b
    else if a == "" || a[|a| - 1] == '/' then a + b
    else a + "/" + b
  }

  /** The number of leading slashes `normpath` keeps: none, one, or exactly two. */
  function InitialSlashes(p: string): nat
  {
    if !IsAbs(p) then 0
    else if |p| >= 2 && p[1] == '/' && !(|p| >= 3 && p[2] == '/') then 2
    else 1
  }

  /** One turn of `normpath`'s loop over the components. */
  function NormStep(initial: bool, acc: seq<string>, comp: string): seq<string>
  {
    if comp == "" || comp == "." then acc
    else if comp != ".." || (!initial && acc == []) || (acc != [] && acc[|acc| - 1] == "..") then acc + [comp]
    else if acc != [] then acc[..|acc| - 1]
    else acc
  }

  /** `normpath`'s loop, from `acc`, over `comps`. */
  function NormComps(initial: bool, acc: seq<string>, comps: seq<string>): seq<string>
    decreases |comps|
  {
    if comps == [] then acc else NormComps(initial, NormStep(initial, acc, comps[0]), comps[1..])
  }

  function Slashes(n: nat): string
  {
    if n == 0 then "" else "/" + Slashes(n - 1)
  }

  /** `posixpath.normpath`. */
  function NormPath(p: string): string
  {
    if p == "" then "."
    else
      var k := InitialSlashes(p);
      var q := Slashes(k) + JoinSlash(NormComps(k > 0, [], Split(p)));
      if q == "" then "." else q
  }

  /** `posixpath.abspath(path)` with `cwd` standing for `os.getcwd()`. */
  function AbsPath(cwd: string, path: string): string
  {
    if IsAbs(path) then NormPath(path) else NormPath(Join(cwd, path))
  }

  /** A component `normpath` of an absolute path can leave: no '/', not empty, not "." or "..". */
  predicate Clean(c: string)
  {
    '/' !in c && c != "" && c != "." && c != ".."
  }

  predicate AllClean(comps: seq<string>)
  {
    forall i :: 0 <= i < |comps| ==> Clean(comps[i])
  }

  // ----- lemmas -----

  lemma {:induction false} NormCompsClean(acc: seq<string>, comps: seq<string>)
    requires AllClean(acc)
    requires forall i :: 0 <= i < |comps| ==> '/' !in comps[i]
    ensures AllClean(NormComps(true, acc, comps))
    decreases |comps|
  {
    if comps != [] {
      var next := NormStep(true, acc, comps[0]);
      assert AllClean(next) by {
        if comps[0] == "" || comps[0] == "." {
        } else if comps[0] != ".." {
          assert forall i :: 0 <= i < |next| ==> next[i] == (acc + [comps[0]])[i];
        } else if acc != [] {
          assert acc[|acc| - 1] != "..";
        }
      }
      NormCompsClean(next, comps[1..]);
    }
  }

  /** Clean components pass through `normpath`'s loop unchanged. */
  lemma {:induction false} NormCompsKeepsClean(acc: seq<string>, comps: seq<string>)
    requires AllClean(comps)
    ensures NormComps(true, acc, comps) == acc + comps
    decreases |comps|
  {
    if comps != [] {
      NormCompsKeepsClean(acc + [comps[0]], comps[1..]);
      assert acc + [comps[0]] + comps[1..] == acc + comps;
    }
  }

  /** Splitting `c + s` where `c` has no slash glues `c` to the first component of `s`. */
  lemma {:induction false} SplitPrefix(c: string, s: string)
    requires '/' !in c
    ensures Split(c + s) == [c + Split(s)[0]] + Split(s)[1..]
    decreases |c|
  {
    var t := Split(s);
    if c == [] {
      assert c + s == s && c + t[0] == t[0];
      assert [t[0]] + t[1..] == t;
    } else {
      assert (c + s)[1..] == c[1..] + s;
      assert (c + s)[0] == c[0];
      SplitPrefix(c[1..], s);
      var rest := Split(c[1..] + s);
      assert rest[0] == c[1..] + t[0] && rest[1..] == t[1..];
      assert [c[0]] + (c[1..] + t[0]) == c + t[0];
    }
  }

  /** `'/'.join` then `split('/')` gives back components without slashes. */
  lemma {:induction false} SplitJoin(comps: seq<string>)
    requires comps != []
    requires forall i :: 0 <= i < |comps| ==> '/' !in comps[i]
    ensures Split(JoinSlash(comps)) == comps
    decreases |comps|
  {
    if |comps| == 1 {
      SplitPrefix(comps[0], "");
      assert comps[0] + "" == comps[0];
      assert Split(JoinSlash(comps)) == [comps[0]];
    } else {
      var rest := JoinSlash(comps[1..]);
      SplitJoin(comps[1..]);
      assert comps[0] + "/" + rest == comps[0] + ("/" + rest);
      SplitPrefix(comps[0], "/" + rest);
      assert ("/" + rest)[1..] == rest;
      assert Split("/" + rest) == [""] + comps[1..];
      assert comps[0] + "" == comps[0];
      assert [comps[0]] + comps[1..] == comps;
    }
  }

  function Empties(n: nat): seq<string>
  {
    if n == 0 then [] else [""] + Empties(n - 1)
  }

  lemma {:induction false} SplitSlashes(n: nat, s: string)
    ensures Split(Slashes(n) + s) == Empties(n) + Split(s)
  {
    if n == 0 {
      assert Slashes(n) + s == s && Empties(n) + Split(s) == Split(s);
    } else {
      var t := Slashes(n) + s;
      assert t == "/" + (Slashes(n - 1) + s);
      SplitSlashes(n - 1, s);
      assert t[0] == '/' && t[1..] == Slashes(n - 1) + s;
      assert Split(t) == [""] + Split(t[1..]);
      assert [""] + (Empties(n - 1) + Split(s)) == Empties(n) + Split(s);
    }
  }

  lemma {:induction false} NormCompsSkipsEmpty(n: nat, comps: seq<string>)
    ensures NormComps(true, [], Empties(n) + comps) == NormComps(true, [], comps)
  {
    if n == 0 {
      assert Empties(n) + comps == comps;
    } else {
      var e := Empties(n) + comps;
      assert e[0] == "" && e[1..] == Empties(n - 1) + comps;
      NormCompsSkipsEmpty(n - 1, comps);
    }
  }

  lemma SlashesLength(n: nat)
    ensures |Slashes(n)| == n && forall i :: 0 <= i < n ==> Slashes(n)[i] == '/'
  {
  }

  /**
   * The result of `abspath` is absolute whenever the working directory
   * is, its components are clean, and applying `abspath` again changes
   * nothing.
   */
  lemma {:induction false} AbsPathNormal(cwd: string, path: string)
    requires IsAbs(cwd)
    ensures var a := AbsPath(cwd, path);
      && IsAbs(a)
      && (exists k: nat, comps :: 1 <= k <= 2 && AllClean(comps) && a == Slashes(k) + JoinSlash(comps))
      && AbsPath(cwd, a) == a
  {
    var p := if IsAbs(path) then path else Join(cwd, path);
    assert IsAbs(p) && AbsPath(cwd, path) == NormPath(p);
    var k := InitialSlashes(p);
    var comps := NormComps(true, [], Split(p));
    NormCompsClean([], Split(p));
    var a := Slashes(k) + JoinSlash(comps);
    SlashesLength(k);
    assert NormPath(p) == a;
    NormIdempotent(k, comps);
  }

  /** `normpath` of its own output is that output. */
  lemma {:induction false} NormIdempotent(k: nat, comps: seq<string>)
    requires 1 <= k <= 2 && AllClean(comps)
    ensures NormPath(Slashes(k) + JoinSlash(comps)) == Slashes(k) + JoinSlash(comps)
  {
    var a := Slashes(k) + JoinSlash(comps);
    SlashesLength(k);
    var j := JoinSlash(comps);
    assert j == [] || j[0] != '/' by {
      if comps != [] {
        JoinSlashHead(comps);
      }
    }
    assert InitialSlashes(a) == k by {
      assert a[0] == '/';
      if k == 2 {
        assert a[1] == '/';
        assert |a| >= 3 ==> a[2] == j[0];
      } else {
        assert |a| >= 2 ==> a[1] == j[0];
      }
    }
    SplitSlashes(k, j);
    if comps == [] {
      assert Split(j) == [""];
      NormCompsSkipsEmpty(k + 1, []);
      EmptiesSnoc(k);
    } else {
      SplitJoin(comps);
      NormCompsSkipsEmpty(k, comps);
      NormCompsKeepsClean([], comps);
      assert [] + comps == comps;
    }
  }

  lemma {:induction false} EmptiesSnoc(n: nat)
    ensures Empties(n) + [""] == Empties(n + 1) + []
  {
    if n > 0 {
      EmptiesSnoc(n - 1);
      assert Empties(n) + [""] == [""] + (Empties(n - 1) + [""]);
    }
  }

  lemma JoinSlashHead(comps: seq<string>)
    requires comps != [] && Clean(comps[0])
    ensures JoinSlash(comps) != [] && JoinSlash(comps)[0] == comps[0][0]
  {
  }

  /** `abspath` of an absolute path does not consult the working directory. */
  lemma AbsPathOfAbsolute(cwd1: string, cwd2: string, path: string)
    requires IsAbs(path)
    ensures AbsPath(cwd1, path) == AbsPath(cwd2, path) == NormPath(path)
  {
  }

  /** `..` cancels the working directory's last component: `abspath("../b")` in "/w" is "/b". */
  lemma AbsPathExample()
    ensures AbsPath("/w", "../b") == "/b"
  {
    var comps := ["w", "..", "b"];
    assert Join("/w", "../b") == Slashes(1) + JoinSlash(comps);
    SplitSlashes(1, JoinSlash(comps));
    SplitJoin(comps);
    assert NormComps(true, [], [""] + comps) == ["b"];
  }
}
