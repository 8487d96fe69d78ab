/** POSIX paths as segment sequences, resolved lexically (no symbolic links). */
module Paths {
  import opened Text

  /** An absolute, resolved path: the names from the root downwards. */
  type Location = seq<string>

  predicate IsAbsolute(p: string) {
    StartsWith(p, "/")
  }

  /** The parts of `p`; empty parts and `.` disappear, `..` stays. */
  function Parts(p: string, cur: string): seq<string> {
    if p == [] then Part(cur)
    else if p[0] == '/' then Part(cur) + Parts(p[1..], [])
    else Parts(p[1..], cur + [p[0]])
  }

  function Part(s: string): seq<string> {
    if s == "" || s == "." then [] else [s]
  }

  function Segments(p: string): seq<string> {
    Parts(p, [])
  }

  /** `Path(p).name` */
  function Name(p: string): string {
    var segs := Segments(p);
    if segs == [] then "" else segs[|segs| - 1]
  }

  /** Follow `segs` from `at`; `..` goes up and stays put at the root. */
  function Walk(at: Location, segs: seq<string>): Location
    decreases |segs|
  {
    if segs == [] then at
    else if segs[0] == ".." then Walk(if at == [] then [] else at[..|at| - 1], segs[1..])
    else Walk(at + [segs[0]], segs[1..])
  }

  /** `(base / p).resolve()` */
  function Resolve(base: Location, p: string): Location {
    Walk(if IsAbsolute(p) then [] else base, Segments(p))
  }

  /** `p == root or p.is_relative_to(root)` */
  predicate Within(p: Location, root: Location) {
    root <= p
  }

  // ---------------------------------------------------------------- resolved paths

  /** A name a resolved path can hold. */
  predicate IsName(s: string) {
    s != "" && s != "." && s != ".." && '/' !in s
  }

  predicate IsResolved(at: Location) {
    forall i | 0 <= i < |at| :: IsName(at[i])
  }

  /** How a location is written. */
  function Written(at: Location): string {
    if at == [] then "/" else Names(at)
  }

  function Names(at: Location): string {
    if at == [] then "" else "/" + at[0] + Names(at[1..])
  }

  lemma {:induction false} PartsAreNames(p: string, cur: string)
    requires '/' !in cur
    ensures forall i | 0 <= i < |Parts(p, cur)| :: Parts(p, cur)[i] == ".." || IsName(Parts(p, cur)[i])
    decreases |p|
  {
    if p != [] {
      PartsAreNames(p[1..], if p[0] == '/' then [] else cur + [p[0]]);
    }
  }

  lemma {:induction false} WalkResolves(at: Location, segs: seq<string>)
    requires IsResolved(at) && forall i | 0 <= i < |segs| :: segs[i] == ".." || IsName(segs[i])
    ensures IsResolved(Walk(at, segs))
    decreases |segs|
  {
    if segs != [] {
      WalkResolves(if segs[0] != ".." then at + [segs[0]] else if at == [] then [] else at[..|at| - 1], segs[1..]);
    }
  }

  lemma {:induction false} WalkDown(at: Location, segs: seq<string>)
    requires IsResolved(segs)
    ensures Walk(at, segs) == at + segs
    decreases |segs|
  {
    if segs != [] {
      WalkDown(at + [segs[0]], segs[1..]);
    }
  }

  lemma {:induction false} PartsName(w: string, rest: string, cur: string)
    requires '/' !in w && (rest == "" || rest[0] == '/')
    ensures Parts(w + rest, cur) == Part(cur + w) + Parts(rest, [])
    decreases |w|
  {
    if w == [] {
      assert w + rest == rest && cur + w == cur;
    } else {
      assert (w + rest)[1..] == w[1..] + rest && cur + [w[0]] + w[1..] == cur + w;
      PartsName(w[1..], rest, cur + [w[0]]);
    }
  }

  lemma {:induction false} SegmentsOfNames(at: Location)
    requires IsResolved(at)
    ensures Segments(Names(at)) == at
    decreases |at|
  {
    if at != [] {
      assert Names(at)[1..] == at[0] + Names(at[1..]);
      PartsName(at[0], Names(at[1..]), []);
      assert [] + at[0] == at[0];
      SegmentsOfNames(at[1..]);
    }
  }

  /**
   * Resolving from a resolved directory gives a resolved path, without `.` or `..` left in it, and resolving that path
   * again, from anywhere, gives it back.
   */
  lemma ResolveIsFinal(base: Location, p: string, other: Location)
    requires IsResolved(base)
    ensures IsResolved(Resolve(base, p))
    ensures Resolve(other, Written(Resolve(base, p))) == Resolve(base, p)
  {
    PartsAreNames(p, []);
    WalkResolves(if IsAbsolute(p) then [] else base, Segments(p));
    var at := Resolve(base, p);
    if at == [] {
      assert Segments("/") == [];
    } else {
      SegmentsOfNames(at);
      WalkDown([], at);
    }
  }

  /** A path that never goes up stays inside the directory it is resolved from. */
  lemma DownStaysInside(base: Location, p: string)
    requires !IsAbsolute(p) && ".." !in Segments(p)
    ensures Within(Resolve(base, p), base)
  {
    PartsAreNames(p, []);
    assert forall i | 0 <= i < |Segments(p)| :: Segments(p)[i] in Segments(p);
    WalkDown(base, Segments(p));
  }

  // ---------------------------------------------------------------- step by step

  lemma {:induction false} PartsConcat(p: string, q: string, cur: string)
    ensures Parts(p + "/" + q, cur) == Parts(p, cur) + Parts(q, [])
    decreases |p|
  {
    var s := p + "/" + q;
    if p == [] {
      assert s[0] == '/' && s[1..] == q;
    } else {
      assert s[0] == p[0] && s[1..] == p[1..] + "/" + q;
      PartsConcat(p[1..], q, if p[0] == '/' then [] else cur + [p[0]]);
    }
  }

  lemma {:induction false} WalkConcat(at: Location, a: seq<string>, b: seq<string>)
    ensures Walk(at, a + b) == Walk(Walk(at, a), b)
    decreases |a|
  {
    if a == [] {
      assert a + b == b;
    } else {
      assert (a + b)[0] == a[0] && (a + b)[1..] == a[1..] + b;
      WalkConcat(if a[0] != ".." then at + [a[0]] else if at == [] then [] else at[..|at| - 1], a[1..], b);
    }
  }

  /** A relative path is followed part by part: first what is before a slash, then the rest from there. */
  lemma ResolveInSteps(base: Location, p: string, q: string)
    requires !IsAbsolute(p) && !IsAbsolute(q) && p != ""
    ensures Resolve(base, p + "/" + q) == Resolve(Resolve(base, p), q)
  {
    assert (p + "/" + q)[0] == p[0];
    PartsConcat(p, q, []);
    WalkConcat(base, Segments(p), Segments(q));
  }

  lemma {:induction false} OneSegment(n: string)
    requires '/' !in n
    ensures Segments(n) == Part(n)
  {
    PartsName(n, "", []);
    assert n + "" == n && [] + n == n;
    assert Parts("", []) == [];
  }

  /**
   * What the single parts of a relative path do: a name goes down, `..` goes up and stays put at the root, `.` and the
   * empty path stay; and an absolute path does not depend on where it is taken from.
   */
  lemma ResolveParts(base: Location, n: string, q: string, other: Location)
    ensures IsName(n) ==> Resolve(base, n) == base + [n]
    ensures Resolve(base + [n], "..") == base && Resolve([], "..") == []
    ensures Resolve(base, ".") == base && Resolve(base, "") == base
    ensures IsAbsolute(q) ==> Resolve(base, q) == Resolve(other, q)
  {
    if IsName(n) {
      OneSegment(n);
      assert n[0] != '/';
      assert Walk(base, [n]) == Walk(base + [n], [n][1..]);
    }
    OneSegment("..");
    OneSegment(".");
    assert Segments("..") == [".."] && [".."][1..] == [];
    assert Walk(base + [n], [".."]) == Walk((base + [n])[..|base|], []);
    assert (base + [n])[..|base|] == base;
  }

  /** Going into a name and back out is the same as not going, and from a child one level up is its parent. */
  lemma UpUndoesDown(base: Location, n: string, q: string)
    requires IsName(n) && !IsAbsolute(q)
    ensures Resolve(base, n + "/../" + q) == Resolve(base, q)
    ensures Resolve(base + [n], "../" + q) == Resolve(base, q)
    ensures Resolve([], "../" + q) == Resolve([], q)
  {
    assert n[0] != '/';
    assert n + "/../" + q == n + "/" + (".." + "/" + q) && "../" + q == ".." + "/" + q;
    assert (".." + "/" + q)[0] == '.';
    ResolveInSteps(base, n, ".." + "/" + q);
    ResolveInSteps(base + [n], "..", q);
    ResolveInSteps([], "..", q);
    ResolveParts(base, n, q, []);
  }

  // ---------------------------------------------------------------- inside and outside

  /** A relative path in its shortest form: so many levels up, then these names down. */
  datatype Shortest = Shortest(ups: nat, names: seq<string>)

  function Shorten(segs: seq<string>): Shortest {
    if segs == [] then Shortest(0, [])
    else
      var s, last := Shorten(segs[..|segs| - 1]), segs[|segs| - 1];
      if last != ".." then s.(names := s.names + [last])
      else if s.names == [] then s.(ups := s.ups + 1)
      else s.(names := s.names[..|s.names| - 1])
  }

  function Up(at: Location, n: nat): Location {
    if n >= |at| then [] else at[..|at| - n]
  }

  lemma {:induction false} WalkShortest(at: Location, segs: seq<string>)
    ensures var s := Shorten(segs); Walk(at, segs) == Up(at, s.ups) + s.names
    decreases |segs|
  {
    if segs == [] {
      assert Up(at, 0) + [] == at;
    } else {
      var k := |segs| - 1;
      var s, last := Shorten(segs[..k]), segs[k];
      WalkShortest(at, segs[..k]);
      assert segs == segs[..k] + [last];
      WalkConcat(at, segs[..k], [last]);
      var here := Up(at, s.ups) + s.names;
      assert [last][1..] == [];
      if last != ".." {
        assert Walk(here, [last]) == here + [last];
      } else if s.names == [] {
        assert here == Up(at, s.ups);
        assert Walk(here, [last]) == Up(at, s.ups + 1);
      } else {
        assert here[..|here| - 1] == Up(at, s.ups) + s.names[..|s.names| - 1];
      }
    }
  }

  /**
   * A relative path stays inside the directory it is taken from exactly when its shortest form goes up no level, or
   * comes back down through the very names it went up.
   */
  lemma InsideIff(at: Location, p: string)
    requires !IsAbsolute(p)
    ensures
      var s := Shorten(Segments(p));
      var left := if s.ups >= |at| then at else at[|at| - s.ups..];
      Within(Resolve(at, p), at) <==> left <= s.names
  {
    var s := Shorten(Segments(p));
    WalkShortest(at, Segments(p));
    var top := Up(at, s.ups);
    var left := if s.ups >= |at| then at else at[|at| - s.ups..];
    assert at == top + left;
    var here := Resolve(at, p);
    assert here == top + s.names;
    if at <= here {
      assert here[|top|..] == s.names;
      assert here[..|at|] == at;
      assert left == s.names[..|left|];
    }
  }

  /** In particular a path whose `..` outnumber the names before them escapes unless its last names re-enter. */
  lemma GoingUpEscapes(at: Location, p: string)
    requires !IsAbsolute(p) && at != []
    requires var s := Shorten(Segments(p)); s.ups > 0 && at[|at| - 1] !in s.names
    ensures !Within(Resolve(at, p), at)
  {
    InsideIff(at, p);
    var s := Shorten(Segments(p));
    var left := if s.ups >= |at| then at else at[|at| - s.ups..];
    assert left[|left| - 1] == at[|at| - 1];
  }

  /** The name of a path is what follows its last slash, if that is a name. */
  lemma NameIsLast(p: string, n: string)
    requires n != "" && n != "." && '/' !in n
    ensures Name(p + "/" + n) == n && Name(n) == n
  {
    PartsConcat(p, n, []);
    OneSegment(n);
  }
}
