/**
  On-demand resolution of type definitions: structs, vectors and element aliases refer to
  one another in any order; each is resolved once, with one set of names in progress to
  catch cycles.
 */
module TypeReg {
  import opened Options
  import opened NumTypes
  import opened Syntax

  /** A type-position token: text, a numeric type, a declared name, `V.Elem`, or any other dotted form. */
  datatype Token = TokStr | TokNum(num: NumType) | TokName(name: string) | TokElem(base: string) | TokOther

  datatype FieldSpec = FieldSpec(name: string, tok: Token)

  /** A vector's element is an inline struct body or a token; an alias names some vector's element. */
  datatype Def =
    | StructDef(fields: seq<FieldSpec>)
    | VectorOfStruct(fields: seq<FieldSpec>)
    | VectorOf(elem: Token)
    | AliasDef(elem: Token)

  type Defs = map<string, Def>

  predicate IsVector(d: Def) {
    d.VectorOfStruct? || d.VectorOf?
  }

  /** The definition a token leads to, if it is one it may lead to: `V.Elem` to a vector, a bare name to anything else. */
  function Target(defs: Defs, tok: Token): (r: Option<string>)
    ensures r.Some? ==> r.value in defs
  {
    match tok
    case TokElem(base) => if base in defs && IsVector(defs[base]) then Some(base) else None
    case TokName(name) => if name in defs && !IsVector(defs[name]) then Some(name) else None
    case _ => None
  }

  // ----- what a definition denotes -----

  /** Unfolds a definition at most fuel levels deep. */
  function Unfold(defs: Defs, name: string, fuel: nat): Option<ElemT>
    requires name in defs
    decreases fuel, 2, 0
  {
    if fuel == 0 then None
    else match defs[name]
      case StructDef(fs) => UnfoldStruct(defs, fs, fuel - 1)
      case VectorOfStruct(fs) => UnfoldStruct(defs, fs, fuel - 1)
      case VectorOf(tok) => UnfoldToken(defs, tok, fuel - 1)
      case AliasDef(tok) => UnfoldToken(defs, tok, fuel - 1)
  }

  function UnfoldToken(defs: Defs, tok: Token, fuel: nat): Option<ElemT>
    decreases fuel, 3, 0
  {
    match tok
    case TokStr => Some(EStr)
    case TokNum(n) => Some(ENum(n))
    case _ =>
      match Target(defs, tok) {
        case Some(name) => Unfold(defs, name, fuel)
        case None => None
      }
  }

  function UnfoldStruct(defs: Defs, fs: seq<FieldSpec>, fuel: nat): Option<ElemT>
    decreases fuel, 5, 0
  {
    var fields :- UnfoldFields(defs, fs, fuel);
    Some(EStruct(fields))
  }

  /** All fields, if their names are distinct. */
  function UnfoldFields(defs: Defs, fs: seq<FieldSpec>, fuel: nat): (r: Option<seq<ElemField>>)
    decreases fuel, 4, |fs|
  {
    if fs == [] then Some([])
    else
      var last := fs[|fs| - 1];
      var init :- UnfoldFields(defs, fs[..|fs| - 1], fuel);
      if exists i :: 0 <= i < |fs| - 1 && fs[i].name == last.name then None else
      var t :- UnfoldToken(defs, last.tok, fuel);
      Some(init + [ElemField(last.name, t)])
  }

  ghost predicate Denotes(defs: Defs, name: string, t: ElemT) {
    name in defs && exists fuel: nat :: Unfold(defs, name, fuel) == Some(t)
  }

  /** The definition has a finite unfolding. */
  ghost predicate Finite(defs: Defs, name: string) {
    name in defs && exists fuel: nat :: Unfold(defs, name, fuel).Some?
  }

  lemma {:induction false} UnfoldMore(defs: Defs, name: string, a: nat, b: nat)
    requires name in defs && a <= b && Unfold(defs, name, a).Some?
    ensures Unfold(defs, name, b) == Unfold(defs, name, a)
    decreases a, 2, 0
  {
    match defs[name]
    case StructDef(fs) => UnfoldFieldsMore(defs, fs, a - 1, b - 1);
    case VectorOfStruct(fs) => UnfoldFieldsMore(defs, fs, a - 1, b - 1);
    case VectorOf(tok) => UnfoldTokenMore(defs, tok, a - 1, b - 1);
    case AliasDef(tok) => UnfoldTokenMore(defs, tok, a - 1, b - 1);
  }

  lemma {:induction false} UnfoldTokenMore(defs: Defs, tok: Token, a: nat, b: nat)
    requires a <= b && UnfoldToken(defs, tok, a).Some?
    ensures UnfoldToken(defs, tok, b) == UnfoldToken(defs, tok, a)
    decreases a, 3, 0
  {
    if Target(defs, tok).Some? {
      UnfoldMore(defs, Target(defs, tok).value, a, b);
    }
  }

  lemma {:induction false} UnfoldFieldsMore(defs: Defs, fs: seq<FieldSpec>, a: nat, b: nat)
    requires a <= b && UnfoldFields(defs, fs, a).Some?
    ensures UnfoldFields(defs, fs, b) == UnfoldFields(defs, fs, a)
    decreases a, 4, |fs|
  {
    if fs != [] {
      UnfoldFieldsMore(defs, fs[..|fs| - 1], a, b);
      UnfoldTokenMore(defs, fs[|fs| - 1].tok, a, b);
    }
  }

  /** A definition denotes at most one element type. */
  lemma DenotesOne(defs: Defs, name: string, t: ElemT, u: ElemT)
    requires Denotes(defs, name, t) && Denotes(defs, name, u)
    ensures t == u
  {
    var a: nat :| Unfold(defs, name, a) == Some(t);
    var b: nat :| Unfold(defs, name, b) == Some(u);
    UnfoldMore(defs, name, a, if a <= b then b else a);
    UnfoldMore(defs, name, b, if a <= b then b else a);
  }

  // ----- references and cycles -----

  function Tokens(d: Def): seq<Token> {
    match d
    case StructDef(fs) => seq(|fs|, i requires 0 <= i < |fs| => fs[i].tok)
    case VectorOfStruct(fs) => seq(|fs|, i requires 0 <= i < |fs| => fs[i].tok)
    case VectorOf(tok) => [tok]
    case AliasDef(tok) => [tok]
  }

  /** Definition a mentions definition b. */
  predicate Refers(defs: Defs, a: string, b: string) {
    a in defs && exists i :: 0 <= i < |Tokens(defs[a])| && Target(defs, Tokens(defs[a])[i]) == Some(b)
  }

  ghost predicate Path(defs: Defs, path: seq<string>) {
    forall i :: 0 <= i < |path| - 1 ==> Refers(defs, path[i], path[i + 1])
  }

  /** A definition reaches itself through one or more references. */
  ghost predicate Cyclic(defs: Defs, name: string) {
    exists path :: |path| >= 2 && path[0] == name == path[|path| - 1] && Path(defs, path)
  }

  lemma UnfoldsTokens(defs: Defs, a: string, fuel: nat, i: nat)
    requires a in defs && Unfold(defs, a, fuel).Some? && i < |Tokens(defs[a])|
    ensures fuel > 0 && UnfoldToken(defs, Tokens(defs[a])[i], fuel - 1).Some?
  {
    match defs[a]
    case StructDef(fs) => UnfoldsField(defs, fs, fuel - 1, i);
    case VectorOfStruct(fs) => UnfoldsField(defs, fs, fuel - 1, i);
    case _ =>
  }

  lemma {:induction false} UnfoldsField(defs: Defs, fs: seq<FieldSpec>, fuel: nat, i: nat)
    requires UnfoldFields(defs, fs, fuel).Some? && i < |fs|
    ensures UnfoldToken(defs, fs[i].tok, fuel).Some?
    decreases |fs|
  {
    if i < |fs| - 1 {
      UnfoldsField(defs, fs[..|fs| - 1], fuel, i);
    }
  }

  /** What a finitely unfolding definition mentions unfolds in fewer levels. */
  lemma ReferenceSmaller(defs: Defs, a: string, b: string, fuel: nat)
    requires Refers(defs, a, b) && Unfold(defs, a, fuel).Some?
    ensures fuel > 0 && b in defs && Unfold(defs, b, fuel - 1).Some?
  {
    var i :| 0 <= i < |Tokens(defs[a])| && Target(defs, Tokens(defs[a])[i]) == Some(b);
    UnfoldsTokens(defs, a, fuel, i);
  }

  lemma {:induction false} PathSmaller(defs: Defs, path: seq<string>, fuel: nat)
    requires Path(defs, path) && path != [] && path[0] in defs && Unfold(defs, path[0], fuel).Some?
    ensures fuel >= |path| - 1 && path[|path| - 1] in defs && Unfold(defs, path[|path| - 1], fuel - (|path| - 1)).Some?
    decreases |path|
  {
    hide Unfold;
    if |path| > 1 {
      assert Refers(defs, path[0], path[1]);
      ReferenceSmaller(defs, path[0], path[1], fuel);
      var rest := path[1..];
      forall i | 0 <= i < |rest| - 1
        ensures Refers(defs, rest[i], rest[i + 1])
      {
        assert rest[i] == path[i + 1] && rest[i + 1] == path[i + 2];
        assert Refers(defs, path[i + 1], path[(i + 1) + 1]);
      }
      PathSmaller(defs, rest, fuel - 1);
    }
  }

  /** A definition on a cycle has no finite unfolding. */
  lemma CyclicNotFinite(defs: Defs, name: string)
    requires Cyclic(defs, name)
    ensures !Finite(defs, name)
  {
    var path :| |path| >= 2 && path[0] == name == path[|path| - 1] && Path(defs, path);
    if Finite(defs, name) {
      var fuel: nat :| Unfold(defs, name, fuel).Some?;
      CycleDescends(defs, path, fuel);
    }
  }

  lemma {:induction false} CycleDescends(defs: Defs, path: seq<string>, fuel: nat)
    requires |path| >= 2 && path[0] == path[|path| - 1] && Path(defs, path) && path[0] in defs
    ensures Unfold(defs, path[0], fuel).None?
    decreases fuel
  {
    if Unfold(defs, path[0], fuel).Some? {
      PathSmaller(defs, path, fuel);
      CycleDescends(defs, path, fuel - (|path| - 1));
    }
  }

  // ----- the resolver -----

  /** Resolution yields a type, meets a name in progress, or meets any other error. */
  datatype Resolved<T> = Good(value: T) | Recursive(name: string) | Bad

  /** Names in progress are the chain of definitions being resolved, each mentioning the next. */
  ghost predicate Chain(defs: Defs, stack: seq<string>, resolving: set<string>) {
    Path(defs, stack) && (forall n :: n in resolving <==> n in stack) && forall n :: n in stack ==> n in defs
  }

  /** The definition being resolved mentions the name about to be, if there is one. */
  ghost predicate Follows(defs: Defs, stack: seq<string>, name: string) {
    stack != [] ==> Refers(defs, stack[|stack| - 1], name)
  }

  ghost predicate MemoOk(defs: Defs, memo: map<string, ElemT>) {
    forall n :: n in memo ==> Denotes(defs, n, memo[n])
  }

  /** A name in progress that is reached again closes a cycle. */
  lemma ChainCycle(defs: Defs, stack: seq<string>, resolving: set<string>, name: string)
    requires Chain(defs, stack, resolving) && Follows(defs, stack, name) && name in resolving
    ensures Cyclic(defs, name)
  {
    var i :| 0 <= i < |stack| && stack[i] == name;
    var path := stack[i..] + [name];
    forall k | 0 <= k < |path| - 1
      ensures Refers(defs, path[k], path[k + 1])
    {
      if k < |path| - 2 {
        assert path[k] == stack[i + k] && path[k + 1] == stack[i + k + 1];
      }
    }
    assert path[0] == name == path[|path| - 1] && Path(defs, path);
  }

  lemma ChainGrows(defs: Defs, stack: seq<string>, resolving: set<string>, name: string)
    requires Chain(defs, stack, resolving) && Follows(defs, stack, name) && name in defs
    ensures Chain(defs, stack + [name], resolving + {name})
  {
  }

  /** Each of the fields so far denotes its type, all at one depth. */
  ghost predicate FieldsSoFar(defs: Defs, fs: seq<FieldSpec>, n: nat, fields: seq<ElemField>) {
    n <= |fs| && exists fuel: nat :: UnfoldFields(defs, fs[..n], fuel) == Some(fields)
  }

  lemma FieldsNone(defs: Defs, fs: seq<FieldSpec>)
    ensures FieldsSoFar(defs, fs, 0, [])
  {
    assert UnfoldFields(defs, fs[..0], 0) == Some([]);
  }

  lemma FieldsNext(defs: Defs, fs: seq<FieldSpec>, n: nat, fields: seq<ElemField>, t: ElemT, fuel: nat)
    requires n < |fs| && FieldsSoFar(defs, fs, n, fields) && UnfoldToken(defs, fs[n].tok, fuel) == Some(t)
    requires forall i :: 0 <= i < n ==> fs[i].name != fs[n].name
    ensures FieldsSoFar(defs, fs, n + 1, fields + [ElemField(fs[n].name, t)])
  {
    var a: nat :| UnfoldFields(defs, fs[..n], a) == Some(fields);
    var b := if a <= fuel then fuel else a;
    UnfoldFieldsMore(defs, fs[..n], a, b);
    UnfoldTokenMore(defs, fs[n].tok, fuel, b);
    assert fs[..n + 1][..n] == fs[..n];
    assert UnfoldFields(defs, fs[..n + 1], b) == Some(fields + [ElemField(fs[n].name, t)]);
  }

  /** The tokens of a definition whose fields are fs. */
  lemma FieldReference(defs: Defs, name: string, fs: seq<FieldSpec>, i: nat)
    requires name in defs && (defs[name] == StructDef(fs) || defs[name] == VectorOfStruct(fs)) && i < |fs|
    ensures Tokens(defs[name])[i] == fs[i].tok
    ensures Target(defs, fs[i].tok).Some? ==> Refers(defs, name, Target(defs, fs[i].tok).value)
    ensures Finite(defs, name) ==> FiniteToken(defs, fs[i].tok)
    ensures Finite(defs, name) ==> forall j :: 0 <= j < i ==> fs[j].name != fs[i].name
  {
    assert Tokens(defs[name])[i] == fs[i].tok;
    if Finite(defs, name) {
      var fuel: nat :| Unfold(defs, name, fuel).Some?;
      UnfoldsTokens(defs, name, fuel, i);
      DistinctFields(defs, fs, fuel - 1, i);
    }
  }

  lemma {:induction false} DistinctFields(defs: Defs, fs: seq<FieldSpec>, fuel: nat, i: nat)
    requires UnfoldFields(defs, fs, fuel).Some? && i < |fs|
    ensures forall j :: 0 <= j < i ==> fs[j].name != fs[i].name
    decreases |fs|
  {
    if i < |fs| - 1 {
      DistinctFields(defs, fs[..|fs| - 1], fuel, i);
    }
  }

  lemma ElemReference(defs: Defs, name: string, tok: Token)
    requires name in defs && (defs[name] == VectorOf(tok) || defs[name] == AliasDef(tok))
    ensures Target(defs, tok).Some? ==> Refers(defs, name, Target(defs, tok).value)
    ensures Finite(defs, name) ==> FiniteToken(defs, tok)
  {
    assert Tokens(defs[name])[0] == tok;
    if Finite(defs, name) {
      var fuel: nat :| Unfold(defs, name, fuel).Some?;
      UnfoldsTokens(defs, name, fuel, 0);
    }
  }

  ghost predicate FiniteToken(defs: Defs, tok: Token) {
    exists fuel: nat :: UnfoldToken(defs, tok, fuel).Some?
  }

  lemma FiniteTarget(defs: Defs, tok: Token)
    requires FiniteToken(defs, tok) && !tok.TokStr? && !tok.TokNum?
    ensures Target(defs, tok).Some? && Finite(defs, Target(defs, tok).value)
  {
    var fuel: nat :| UnfoldToken(defs, tok, fuel).Some?;
    assert Unfold(defs, Target(defs, tok).value, fuel).Some?;
  }

  lemma StructDenotes(defs: Defs, name: string, fs: seq<FieldSpec>, fields: seq<ElemField>)
    requires name in defs && (defs[name] == StructDef(fs) || defs[name] == VectorOfStruct(fs))
    requires FieldsSoFar(defs, fs, |fs|, fields)
    ensures Denotes(defs, name, EStruct(fields))
  {
    assert fs[..|fs|] == fs;
    var fuel: nat :| UnfoldFields(defs, fs, fuel) == Some(fields);
    assert Unfold(defs, name, fuel + 1) == Some(EStruct(fields));
  }

  lemma ElemDenotes(defs: Defs, name: string, tok: Token, t: ElemT, fuel: nat)
    requires name in defs && (defs[name] == VectorOf(tok) || defs[name] == AliasDef(tok))
    requires UnfoldToken(defs, tok, fuel) == Some(t)
    ensures Denotes(defs, name, t)
  {
    assert Unfold(defs, name, fuel + 1) == Some(t);
  }

  // ----- progress -----

  /** What the resolver has done: types resolved, names in progress, and the chain of definitions in progress. */
  datatype Progress = Progress(memo: map<string, ElemT>, resolving: set<string>, stack: seq<string>)

  ghost predicate Valid(defs: Defs, g: Progress) {
    g.memo.Keys <= defs.Keys && g.resolving <= defs.Keys && g.memo.Keys !! g.resolving
    && MemoOk(defs, g.memo) && Chain(defs, g.stack, g.resolving)
  }

  /** Marks are restored, and memo entries are only added. */
  ghost predicate Kept(defs: Defs, a: Progress, b: Progress) {
    Valid(defs, b) && b.resolving == a.resolving && b.stack == a.stack
    && a.memo.Keys <= b.memo.Keys && forall n :: n in a.memo ==> b.memo[n] == a.memo[n]
  }

  lemma KeptSame(defs: Defs, a: Progress)
    requires Valid(defs, a)
    ensures Kept(defs, a, a)
  {
  }

  lemma KeptThen(defs: Defs, a: Progress, b: Progress, c: Progress)
    requires Kept(defs, a, b) && Kept(defs, b, c)
    ensures Kept(defs, a, c)
  {
    hide Valid;
  }

  function Unvisited(defs: Defs, g: Progress): nat {
    |defs.Keys - g.memo.Keys - g.resolving|
  }

  lemma KeptFacts(defs: Defs, a: Progress, b: Progress)
    requires Kept(defs, a, b)
    ensures Valid(defs, b) && b.stack == a.stack && a.memo.Keys <= b.memo.Keys && Unvisited(defs, b) <= Unvisited(defs, a)
  {
    hide Valid;
    var x, y := defs.Keys - b.memo.Keys - b.resolving, defs.Keys - a.memo.Keys - a.resolving;
    assert x <= y && y == x + (y - x);
  }

  /** Putting a definition in progress. */
  lemma Entered(defs: Defs, a: Progress, b: Progress, name: string)
    requires Valid(defs, a) && Follows(defs, a.stack, name) && name in defs
    requires name !in a.memo && name !in a.resolving
    requires b == Progress(a.memo, a.resolving + {name}, a.stack + [name])
    ensures Valid(defs, b) && Unvisited(defs, b) < Unvisited(defs, a)
  {
    hide MemoOk, Refers;
    ChainGrows(defs, a.stack, a.resolving, name);
    var x, y := defs.Keys - b.memo.Keys - b.resolving, defs.Keys - a.memo.Keys - a.resolving;
    assert y == x + {name} && name !in x;
  }

  /** Taking it out of progress, resolved or not. */
  lemma Left(defs: Defs, a: Progress, b: Progress, c: Progress, name: string, memo: map<string, ElemT>)
    requires Valid(defs, a) && name in defs && name !in a.memo && name !in a.resolving
    requires b == Progress(a.memo, a.resolving + {name}, a.stack + [name]) && Kept(defs, b, c)
    requires memo == c.memo || exists t :: Denotes(defs, name, t) && memo == c.memo[name := t]
    ensures Kept(defs, a, Progress(memo, a.resolving, a.stack))
  {
    hide Denotes, Chain;
  }

  class Resolver {
    const defs: Defs
    var memo: map<string, ElemT>
    var resolving: set<string>
    /** The definitions in progress, outermost first. */
    ghost var stack: seq<string>

    constructor (defs: Defs)
      ensures this.defs == defs && Now() == Progress(map[], {}, [])
    {
      this.defs := defs;
      memo, resolving, stack := map[], {}, [];
    }

    ghost function Now(): Progress
      reads this
    {
      Progress(memo, resolving, stack)
    }

    /** Resolves a token of the definition on top of the chain. */
    method ResolveToken(tok: Token) returns (r: Resolved<ElemT>)
      requires Valid(defs, Now()) && (Target(defs, tok).Some? ==> Follows(defs, stack, Target(defs, tok).value))
      modifies this
      ensures Kept(defs, old(Now()), Now())
      ensures r.Good? ==> exists fuel: nat :: UnfoldToken(defs, tok, fuel) == Some(r.value)
      ensures r.Recursive? ==> Cyclic(defs, r.name)
      ensures FiniteToken(defs, tok) ==> r.Good?
      decreases Unvisited(defs, Now()), 1
    {
      hide Valid, Kept, Cyclic, Finite, Unfold, Follows;
      KeptSame(defs, Now());
      if tok.TokStr? {
        assert UnfoldToken(defs, tok, 0) == Some(EStr);
        return Good(EStr);
      }
      if tok.TokNum? {
        assert UnfoldToken(defs, tok, 0) == Some(ENum(tok.num));
        return Good(ENum(tok.num));
      }
      if FiniteToken(defs, tok) {
        FiniteTarget(defs, tok);
      }
      var target := Target(defs, tok);
      if target.None? {
        return Bad;
      }
      r := ResolveDef(target.value);
      if r.Good? {
        ghost var fuel: nat :| Unfold(defs, target.value, fuel) == Some(r.value);
        assert UnfoldToken(defs, tok, fuel) == Some(r.value);
      }
    }

    /** Resolves the fields of the struct or vector on top of the chain, in order; names are distinct. */
    method ResolveFields(name: string, fs: seq<FieldSpec>) returns (r: Resolved<seq<ElemField>>)
      requires Valid(defs, Now()) && name in defs && (defs[name] == StructDef(fs) || defs[name] == VectorOfStruct(fs))
      requires stack != [] && stack[|stack| - 1] == name
      modifies this
      ensures Kept(defs, old(Now()), Now())
      ensures r.Good? ==> FieldsSoFar(defs, fs, |fs|, r.value)
      ensures r.Recursive? ==> Cyclic(defs, r.name)
      ensures Finite(defs, name) ==> r.Good?
      decreases Unvisited(defs, Now()), 2
    {
      hide Valid, Kept, FieldsSoFar, Finite, FiniteToken, Cyclic, UnfoldToken, Unfold, Refers, Unvisited, Target;
      var fields: seq<ElemField> := [];
      var seen: set<string> := {};
      FieldsNone(defs, fs);
      ghost var start := Now();
      KeptSame(defs, start);
      for i := 0 to |fs|
        invariant Kept(defs, start, Now()) && FieldsSoFar(defs, fs, i, fields)
        invariant forall x :: x in seen <==> exists j :: 0 <= j < i && fs[j].name == x
      {
        ghost var mid := Now();
        KeptFacts(defs, start, mid);
        FieldReference(defs, name, fs, i);
        if fs[i].name in seen {
          return Bad;
        }
        seen := seen + {fs[i].name};
        var t := ResolveToken(fs[i].tok);
        KeptThen(defs, start, mid, Now());
        match t {
          case Good(ft) =>
            ghost var fuel: nat :| UnfoldToken(defs, fs[i].tok, fuel) == Some(ft);
            FieldsNext(defs, fs, i, fields, ft, fuel);
            fields := fields + [ElemField(fs[i].name, ft)];
          case Recursive(n) => return Recursive(n);
          case Bad => return Bad;
        }
      }
      r := Good(fields);
    }

    /** Resolves a definition once, marking it in progress meanwhile. */
    method ResolveDef(name: string) returns (r: Resolved<ElemT>)
      requires Valid(defs, Now()) && name in defs && Follows(defs, stack, name)
      modifies this
      ensures Kept(defs, old(Now()), Now())
      ensures r.Good? ==> name in memo && memo[name] == r.value
      ensures r.Good? ==> exists fuel: nat :: Unfold(defs, name, fuel) == Some(r.value)
      ensures r.Recursive? ==> Cyclic(defs, r.name)
      ensures Finite(defs, name) ==> r.Good?
      decreases Unvisited(defs, Now()), 0
    {
      hide Valid, Kept, Finite, FiniteToken, Cyclic, UnfoldToken, Unfold, FieldsSoFar, Refers, Unvisited, Target;
      ghost var start := Now();
      KeptSame(defs, start);
      if name in memo {
        Remembered(defs, start, name);
        return Good(memo[name]);
      }
      if name in resolving {
        Revisited(defs, start, name);
        return Recursive(name);
      }
      resolving, stack := resolving + {name}, stack + [name];
      ghost var inside := Now();
      Entered(defs, start, inside, name);
      match defs[name] {
      case StructDef(fs) =>
        var fields := ResolveFields(name, fs);
        r := StructOf(fields);
        if r.Good? {
          StructDenotes(defs, name, fs, fields.value);
        }
      case VectorOfStruct(fs) =>
        var fields := ResolveFields(name, fs);
        r := StructOf(fields);
        if r.Good? {
          StructDenotes(defs, name, fs, fields.value);
        }
      case VectorOf(tok) =>
        ElemReference(defs, name, tok);
        r := ResolveToken(tok);
        if r.Good? {
          ghost var fuel: nat :| UnfoldToken(defs, tok, fuel) == Some(r.value);
          ElemDenotes(defs, name, tok, r.value, fuel);
        }
      case AliasDef(tok) =>
        ElemReference(defs, name, tok);
        r := ResolveToken(tok);
        if r.Good? {
          ghost var fuel: nat :| UnfoldToken(defs, tok, fuel) == Some(r.value);
          ElemDenotes(defs, name, tok, r.value, fuel);
        }
      }
      ghost var last := Now();
      resolving, stack := resolving - {name}, start.stack;
      NotInside(defs, start, inside, last, name);
      if r.Good? {
        memo := memo[name := r.value];
        DenotesFuel(defs, name, r.value);
      }
      Left(defs, start, inside, last, name, memo);
    }

    /**
      Resolves every definition, in the order given. It succeeds exactly when every definition
      has a finite unfolding, and the table then gives each name what it denotes; an error that
      blames recursion names a definition on a cycle.
     */
    method ResolveAll(order: seq<string>) returns (r: Resolved<map<string, ElemT>>)
      requires Now() == Progress(map[], {}, []) && forall n :: n in order <==> n in defs
      modifies this
      ensures r.Good? <==> forall n :: n in defs ==> Finite(defs, n)
      ensures r.Good? ==> r.value.Keys == defs.Keys && forall n :: n in defs ==> Denotes(defs, n, r.value[n])
      ensures r.Recursive? ==> Cyclic(defs, r.name)
    {
      hide Cyclic, Finite, Denotes, Unfold, Valid, Kept, Refers, Unvisited;
      ghost var start := Now();
      Fresh(defs);
      KeptSame(defs, start);
      for i := 0 to |order|
        invariant Kept(defs, start, Now())
        invariant forall j :: 0 <= j < i ==> order[j] in memo
      {
        ghost var mid := Now();
        KeptFacts(defs, start, mid);
        assert order[i] in order;
        var t := ResolveDef(order[i]);
        KeptThen(defs, start, mid, Now());
        KeptFacts(defs, mid, Now());
        match t {
          case Good(_) =>
          case Recursive(n) => return Recursive(n);
          case Bad => return Bad;
        }
      }
      KeptFacts(defs, start, Now());
      Everything(defs, Now(), order);
      r := Good(memo);
    }
  }

  lemma Fresh(defs: Defs)
    ensures Valid(defs, Progress(map[], {}, []))
  {
  }

  lemma Everything(defs: Defs, g: Progress, order: seq<string>)
    requires Valid(defs, g) && (forall n :: n in order <==> n in defs) && forall j :: 0 <= j < |order| ==> order[j] in g.memo
    ensures g.memo.Keys == defs.Keys && forall n :: n in defs ==> Denotes(defs, n, g.memo[n]) && Finite(defs, n)
  {
    hide Chain, Unfold;
    forall n | n in defs
      ensures n in g.memo
    {
      assert n in order;
    }
    forall n | n in defs
      ensures Finite(defs, n)
    {
      assert Denotes(defs, n, g.memo[n]);
      var fuel: nat :| Unfold(defs, n, fuel) == Some(g.memo[n]);
      assert Unfold(defs, n, fuel).Some?;
    }
  }

  lemma NotInside(defs: Defs, start: Progress, inside: Progress, last: Progress, name: string)
    requires name !in start.resolving && inside.resolving == start.resolving + {name} && Kept(defs, inside, last)
    ensures last.resolving - {name} == start.resolving
  {
  }

  lemma DenotesFuel(defs: Defs, name: string, t: ElemT)
    requires Denotes(defs, name, t)
    ensures exists fuel: nat :: Unfold(defs, name, fuel) == Some(t)
  {
  }

  /** Whatever the order of declaration, a successful resolution gives the same table. */
  lemma OrderIrrelevant(defs: Defs, a: map<string, ElemT>, b: map<string, ElemT>)
    requires a.Keys == b.Keys == defs.Keys
    requires forall n :: n in defs ==> Denotes(defs, n, a[n]) && Denotes(defs, n, b[n])
    ensures a == b
  {
    forall n | n in defs
      ensures a[n] == b[n]
    {
      DenotesOne(defs, n, a[n], b[n]);
    }
  }

  function StructOf(fields: Resolved<seq<ElemField>>): Resolved<ElemT> {
    match fields
    case Good(fs) => Good(EStruct(fs))
    case Recursive(n) => Recursive(n)
    case Bad => Bad
  }

  lemma Remembered(defs: Defs, g: Progress, name: string)
    requires Valid(defs, g) && name in g.memo
    ensures name in defs && exists fuel: nat :: Unfold(defs, name, fuel) == Some(g.memo[name])
  {
    hide Chain;
    assert Denotes(defs, name, g.memo[name]);
  }

  lemma Revisited(defs: Defs, g: Progress, name: string)
    requires Valid(defs, g) && Follows(defs, g.stack, name) && name in g.resolving
    ensures Cyclic(defs, name) && !Finite(defs, name)
  {
    hide Chain, MemoOk, Follows, Cyclic;
    ChainCycle(defs, g.stack, g.resolving, name);
    CyclicNotFinite(defs, name);
  }
}
