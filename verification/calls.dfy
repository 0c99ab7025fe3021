/**
  Which functions call which: the functions a term mentions, call paths, what is reachable
  along them, and when every call cycle stays among annotated functions.
 */
module Calls {
  import opened Syntax

  /** The user functions a term mentions. */
  function Refs(e: Expr): set<string> {
    match e
    case FnRef(fn) => {fn}
    case App(head, args) => Refs(head) + set i, x | 0 <= i < |args| && x in Refs(args[i]) :: x
    case Guards(cases) => set i, x | 0 <= i < |cases| && x in CaseRefs(cases[i]) :: x
    case StructLit(inits) => set i, x | 0 <= i < |inits| && x in Refs(inits[i].value) :: x
    case Field(target, _) => Refs(target)
    case Reduce(fold, init, vec) => Refs(fold) + Refs(init) + Refs(vec)
    case _ => {}
  }

  function CaseRefs(c: GuardCase): set<string> {
    match c
    case When(cond, result) => Refs(cond) + Refs(result)
    case Otherwise(result) => Refs(result)
  }

  lemma PartRefs(e: Expr, i: nat)
    ensures e.App? ==> Refs(e.head) <= Refs(e) && (i < |e.args| ==> Refs(e.args[i]) <= Refs(e))
    ensures e.Guards? && i < |e.cases| ==>
      Refs(e.cases[i].result) <= Refs(e) && (e.cases[i].When? ==> Refs(e.cases[i].cond) <= Refs(e))
    ensures e.StructLit? && i < |e.inits| ==> Refs(e.inits[i].value) <= Refs(e)
    ensures e.Field? ==> Refs(e.target) <= Refs(e)
    ensures e.Reduce? ==> Refs(e.fold) <= Refs(e) && Refs(e.init) <= Refs(e) && Refs(e.vec) <= Refs(e)
  {
    if e.Guards? && i < |e.cases| {
      assert CaseRefs(e.cases[i]) <= Refs(e);
    }
  }

  lemma OnlyItself(fn: string)
    ensures Refs(FnRef(fn)) == {fn}
  {
  }

  predicate CallsTo(p: Program, f: string, g: string) {
    f in p && g in p && g in Refs(p[f].body)
  }

  /** Each function on the path calls the next. */
  ghost predicate CallPath(p: Program, path: seq<string>) {
    path != [] && forall i :: 0 <= i < |path| - 1 ==> CallsTo(p, path[i], path[i + 1])
  }

  ghost predicate Reaches(p: Program, f: string, g: string) {
    exists path: seq<string> :: CallPath(p, path) && path[0] == f && path[|path| - 1] == g
  }

  /** Some call path leaves f and returns to it. */
  ghost predicate OnCycle(p: Program, f: string) {
    exists g :: CallsTo(p, f, g) && Reaches(p, g, f)
  }

  // ----- what is reachable -----

  function Callees(p: Program, s: set<string>): set<string> {
    set f, g | f in s && f in p && g in Refs(p[f].body) && g in p :: g
  }

  /** All functions reachable from s, s included. */
  function Closure(p: Program, s: set<string>): (r: set<string>)
    requires s <= p.Keys
    ensures s <= r <= p.Keys
    decreases |p.Keys - s|
  {
    var next := s + Callees(p, s);
    if next == s then s
    else
      Fewer(p.Keys, s, next);
      Closure(p, next)
  }

  lemma Fewer<T>(all: set<T>, a: set<T>, b: set<T>)
    requires a < b <= all
    ensures |all - b| < |all - a|
  {
    assert all - a == (all - b) + (b - a);
    assert b - a != {};
  }

  /** The closure is closed under calls. */
  lemma {:induction false} ClosureClosed(p: Program, s: set<string>, f: string, g: string)
    requires s <= p.Keys && f in Closure(p, s) && CallsTo(p, f, g)
    ensures g in Closure(p, s)
    decreases |p.Keys - s|
  {
    var next := s + Callees(p, s);
    if next == s {
      assert g in Callees(p, s);
    } else {
      Fewer(p.Keys, s, next);
      ClosureClosed(p, next, f, g);
    }
  }

  /** It is the least such set. */
  lemma {:induction false} ClosureLeast(p: Program, s: set<string>, r: set<string>)
    requires s <= p.Keys && s <= r && forall f, g :: f in r && CallsTo(p, f, g) ==> g in r
    ensures Closure(p, s) <= r
    decreases |p.Keys - s|
  {
    var next := s + Callees(p, s);
    if next != s {
      assert next <= r;
      Fewer(p.Keys, s, next);
      ClosureLeast(p, next, r);
    }
  }

  lemma ReachesStep(p: Program, f: string, g: string, h: string)
    requires Reaches(p, f, g) && CallsTo(p, g, h)
    ensures Reaches(p, f, h)
  {
    var path :| CallPath(p, path) && path[0] == f && path[|path| - 1] == g;
    var longer := path + [h];
    assert CallPath(p, longer) && longer[0] == f && longer[|longer| - 1] == h;
  }

  lemma ReachesItself(p: Program, f: string)
    ensures Reaches(p, f, f)
  {
    assert CallPath(p, [f]);
  }

  lemma {:induction false} PathStays(p: Program, path: seq<string>, s: set<string>, i: nat)
    requires s <= p.Keys && CallPath(p, path) && path[0] in Closure(p, s) && i < |path|
    ensures path[i] in Closure(p, s)
  {
    if i > 0 {
      PathStays(p, path, s, i - 1);
      ClosureClosed(p, s, path[i - 1], path[i]);
    }
  }

  /** The closure of a function holds exactly what call paths from it reach. */
  lemma ClosureIsReachable(p: Program, f: string, g: string)
    requires f in p
    ensures g in Closure(p, {f}) <==> Reaches(p, f, g)
  {
    if Reaches(p, f, g) {
      var path :| CallPath(p, path) && path[0] == f && path[|path| - 1] == g;
      PathStays(p, path, {f}, |path| - 1);
    }
    var r := set x | x in p && Reaches(p, f, x);
    ReachesItself(p, f);
    forall x, y | x in r && CallsTo(p, x, y)
      ensures y in r
    {
      ReachesStep(p, f, x, y);
    }
    ClosureLeast(p, {f}, r);
  }

  // ----- cycles and annotations -----

  /** A mentioned function ranks below `bound`, or level with it if it is annotated. */
  ghost predicate Below(p: Program, rank: map<string, nat>, refs: set<string>, bound: nat) {
    forall g :: g in refs && g in p ==> g in rank && (rank[g] < bound || (rank[g] == bound && p[g].ret.Some?))
  }

  /**
    Every function on a call cycle is annotated: some ranking never rises along a
    call, and stays level only between annotated functions.
   */
  ghost predicate CyclesAnnotated(p: Program, rank: map<string, nat>) {
    forall f :: f in p ==>
      f in rank && Below(p, rank, Refs(p[f].body), rank[f])
      && (p[f].ret.None? ==> forall g :: g in Refs(p[f].body) && g in p ==> rank[g] < rank[f])
  }

  /** The ranking by how much a function reaches. */
  function ReachRank(p: Program): map<string, nat> {
    map f | f in p :: |Closure(p, {f})|
  }

  lemma CallShrinks(p: Program, f: string, g: string)
    requires CallsTo(p, f, g)
    ensures Closure(p, {g}) <= Closure(p, {f})
  {
    hide CallsTo;
    assert f in p && g in p by { Known(p, f, g); }
    var a := Closure(p, {f});
    ClosureClosed(p, {f}, f, g);
    forall x, y | x in a && CallsTo(p, x, y)
      ensures y in a
    {
      ClosureClosed(p, {f}, x, y);
    }
    ClosureLeast(p, {g}, a);
  }

  lemma Known(p: Program, f: string, g: string)
    requires CallsTo(p, f, g)
    ensures f in p && g in p
  {
  }

  lemma CallLowers(p: Program, f: string, g: string)
    requires CallsTo(p, f, g)
    ensures Closure(p, {g}) <= Closure(p, {f})
    ensures !Reaches(p, g, f) ==> |Closure(p, {g})| < |Closure(p, {f})|
  {
    hide Closure, Reaches;
    CallShrinks(p, f, g);
    if !Reaches(p, g, f) {
      ClosureIsReachable(p, g, f);
      StrictSubsetSize(Closure(p, {g}), Closure(p, {f}));
    }
  }

  lemma StrictSubsetSize<T>(a: set<T>, b: set<T>)
    requires a < b
    ensures |a| < |b|
  {
    assert b == a + (b - a) && b - a != {};
  }

  /** Along a call path ranks never rise, and they fall at an unannotated function. */
  lemma {:induction false} PathFalls(p: Program, rank: map<string, nat>, path: seq<string>)
    requires CyclesAnnotated(p, rank) && CallPath(p, path) && path[0] in p
    ensures forall i :: 0 <= i < |path| ==> path[i] in p
    ensures rank[path[|path| - 1]] <= rank[path[0]]
    decreases |path|
  {
    if |path| > 1 {
      var rest := path[1..];
      assert CallsTo(p, path[0], path[1]);
      assert CallPath(p, rest) by {
        forall i | 0 <= i < |rest| - 1
          ensures CallsTo(p, rest[i], rest[i + 1])
        {
          assert CallsTo(p, path[i + 1], path[i + 2]);
        }
      }
      PathFalls(p, rank, rest);
      assert forall i :: 0 < i < |path| ==> path[i] == rest[i - 1];
    }
  }

  /** A ranking exists exactly when no call path returns to an unannotated function. */
  lemma RankExists(p: Program)
    ensures (exists rank :: CyclesAnnotated(p, rank)) <==> forall f :: f in p && p[f].ret.None? ==> !OnCycle(p, f)
  {
    if rank :| CyclesAnnotated(p, rank) {
      forall f | f in p && p[f].ret.None?
        ensures !OnCycle(p, f)
      {
        if OnCycle(p, f) {
          var g :| CallsTo(p, f, g) && Reaches(p, g, f);
          var path :| CallPath(p, path) && path[0] == g && path[|path| - 1] == f;
          PathFalls(p, rank, path);
        }
      }
    }
    if forall f :: f in p && p[f].ret.None? ==> !OnCycle(p, f) {
      RanksByReach(p);
    }
  }

  /** A call lowers the rank, or stays level between two annotated functions. */
  ghost predicate CallRanked(p: Program, rank: map<string, nat>, f: string, g: string) {
    f in rank && g in rank && f in p && g in p
    && (rank[g] < rank[f] || (rank[g] == rank[f] && p[f].ret.Some? && p[g].ret.Some?))
  }

  lemma CallRanks(p: Program, f: string, g: string)
    requires forall h :: h in p && p[h].ret.None? ==> !OnCycle(p, h)
    requires CallsTo(p, f, g)
    ensures CallRanked(p, ReachRank(p), f, g)
  {
    hide Closure, Reaches;
    CallLowers(p, f, g);
    if Reaches(p, g, f) {
      assert OnCycle(p, f);
      LastStep(p, f, g);
      SubsetSize(Closure(p, {g}), Closure(p, {f}));
    }
  }

  lemma SubsetSize<T>(a: set<T>, b: set<T>)
    requires a <= b
    ensures |a| <= |b|
  {
    assert b == a + (b - a);
  }

  lemma RanksByReach(p: Program)
    requires forall f :: f in p && p[f].ret.None? ==> !OnCycle(p, f)
    ensures CyclesAnnotated(p, ReachRank(p))
  {
    hide OnCycle, Closure, Refs, ReachRank;
    var rank := ReachRank(p);
    forall f | f in p
      ensures f in rank && Below(p, rank, Refs(p[f].body), rank[f])
      ensures p[f].ret.None? ==> forall g :: g in Refs(p[f].body) && g in p ==> rank[g] < rank[f]
    {
      FunctionRanked(p, f);
    }
  }

  lemma FunctionRanked(p: Program, f: string)
    requires f in p && forall h :: h in p && p[h].ret.None? ==> !OnCycle(p, h)
    ensures var rank := ReachRank(p);
      f in rank && Below(p, rank, Refs(p[f].body), rank[f])
      && (p[f].ret.None? ==> forall g :: g in Refs(p[f].body) && g in p ==> rank[g] < rank[f])
  {
    hide OnCycle, Closure, Refs;
    var rank := ReachRank(p);
    forall g | g in Refs(p[f].body) && g in p
      ensures CallRanked(p, rank, f, g)
    {
      CallRanks(p, f, g);
    }
  }

  /** If f calls g and g reaches f, g too is on a cycle. */
  lemma LastStep(p: Program, f: string, g: string)
    requires CallsTo(p, f, g) && Reaches(p, g, f)
    ensures OnCycle(p, g)
  {
    var path :| CallPath(p, path) && path[0] == g && path[|path| - 1] == f;
    if |path| == 1 {
      ReachesItself(p, g);
    } else {
      var rest := path[1..];
      assert CallPath(p, rest) by {
        forall i | 0 <= i < |rest| - 1
          ensures CallsTo(p, rest[i], rest[i + 1])
        {
          assert CallsTo(p, path[i + 1], path[i + 2]);
        }
      }
      assert CallsTo(p, path[0], path[1]) && rest[0] == path[1] && rest[|rest| - 1] == f;
      assert Reaches(p, path[1], f);
      ReachesStep(p, path[1], f, g);
    }
  }
}
