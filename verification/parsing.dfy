/**
  The parser combinators and the grammar of plans. A parser is the combinator term that
  builds it, so that its recursion is visible; running one needs every call of a grammar
  rule to come at a later position or at a lower rank, which is why parsing terminates.
 */
module Parsing {

  /** The classes of letters and digits an identifier is made of. */
  datatype Chars = Chars(letter: char -> bool, digit: char -> bool)

  /** The recursive rules: exprP, atomP, reduceFormP and structLitP. */
  datatype Rule = ExprRule | AtomRule | ReduceRule | StructRule

  datatype P =
    | Succeed
    | Eof
    | Abort
    | Satisfy(pred: char -> bool)
    | StringLit
    | Seq(first: P, second: P)
    | Or(left: P, right: P)
    | Try(inner: P)
    | Many(item: P)
    | Call(rule: Rule)

  /** Success with the next position, or failure; both say whether input was consumed. */
  datatype Result = Good(next: nat, consumed: bool) | Bad(consumed: bool)

  // ----- the grammar -----

  function Rune(c: char): P {
    Satisfy(x => x == c)
  }

  function Many1(p: P): P {
    Seq(p, Many(p))
  }

  function Word(s: string): P {
    if s == "" then Succeed else Seq(Rune(s[0]), Word(s[1..]))
  }

  function Opt(p: P): P {
    Or(Try(p), Succeed)
  }

  const Space := Satisfy(x => x == ' ' || x == '\t')

  const Comment := Seq(Rune('#'), Many(Satisfy(x => x != '\n')))

  /** Whitespace inside braces: spaces, newlines and comments. */
  const Ws := Many(Or(Satisfy(x => x == ' ' || x == '\t' || x == '\n'), Comment))

  const Digits := Many1(Satisfy(x => '0' <= x <= '9'))

  function Number(): P {
    Seq(Opt(Rune('-')), Seq(Digits, Opt(Seq(Rune('.'), Digits))))
  }

  function Ident(c: Chars): P {
    Seq(Satisfy(x => x == '_' || c.letter(x)), Many(Satisfy(x => x == '_' || c.letter(x) || c.digit(x))))
  }

  function Literals(ws: seq<string>): P
    requires ws != []
  {
    if |ws| == 1 then Try(Word(ws[0])) else Or(Try(Word(ws[0])), Literals(ws[1..]))
  }

  function Operator(): P {
    Literals(["+", "*", "-", ">=", "<=", "==", "/=", ">", "<"])
  }

  function StructField(c: Chars): P {
    Seq(Ident(c), Seq(Seq(Ws, Rune(':')), Seq(Ws, Call(ExprRule))))
  }

  const Comma := Seq(Ws, Rune(','))

  function BaseAtom(c: Chars): P {
    var paren := Seq(Rune('('), Seq(Seq(Many(Space), Call(ExprRule)), Seq(Many(Space), Rune(')'))));
    Or(Try(Number()), Or(StringLit, Or(Try(Call(ReduceRule)), Or(Try(Call(StructRule)), Or(paren, Or(Operator(), Ident(c)))))))
  }

  function Body(c: Chars, rule: Rule): P {
    match rule
    case ExprRule => Seq(Call(AtomRule), Many(Try(Seq(Many1(Space), Call(AtomRule)))))
    case AtomRule => Seq(BaseAtom(c), Many(Try(Seq(Rune('.'), Ident(c)))))
    case ReduceRule =>
      Seq(Seq(Seq(Word("reduce"), Many1(Space)), Call(AtomRule)),
        Seq(Many1(Space), Seq(Call(AtomRule), Seq(Many1(Space), Call(AtomRule)))))
    case StructRule =>
      var more := Many(Try(Seq(Comma, Seq(Ws, StructField(c)))));
      Seq(Rune('{'), Seq(Seq(Ws, StructField(c)), Seq(more, Seq(Seq(Opt(Comma), Ws), Rune('}')))))
  }

  // ----- the statements -----

  const Spaces := Many(Space)

  const Spaces1 := Many1(Space)

  const EndOfLine := Seq(Or(Comment, Succeed), Or(Rune('\n'), Eof))

  /** The rest of a line with nothing more on it. */
  const End := Seq(Spaces, EndOfLine)

  const Equals := Seq(Spaces, Seq(Rune('='), Spaces))

  function Keyword(s: string): P {
    Seq(Word(s), Spaces1)
  }

  function TypeName(c: Chars): P {
    Seq(Ident(c), Or(Try(Seq(Rune('.'), Ident(c))), Or(Try(Rune('+')), Opt(Rune('-')))))
  }

  function ParamSpec(c: Chars): P {
    Seq(Ident(c), Seq(Seq(Rune(':'), Rune(':')), TypeName(c)))
  }

  function ParamItem(c: Chars): P {
    Try(Seq(Spaces1, ParamSpec(c)))
  }

  function StructType(c: Chars): P {
    var field := Seq(Ident(c), Seq(Spaces1, TypeName(c)));
    var ws1 := Many1(Or(Satisfy(x => x == ' ' || x == '\t' || x == '\n'), Comment));
    Seq(Rune('{'), Seq(Seq(Ws, field), Seq(Many(Try(Seq(ws1, field))), Seq(Ws, Rune('}')))))
  }

  function ElemType(c: Chars): P {
    Or(StructType(c), Or(Try(Seq(Keyword("vector"), Or(StructType(c), TypeName(c)))), Seq(Ident(c), Seq(Rune('.'), Ident(c)))))
  }

  /** ` = ` and a right-hand side that ends its line. */
  function Defined(rhs: P): P {
    Seq(Equals, Seq(rhs, End))
  }

  function TypeLine(c: Chars): P {
    Seq(Try(Keyword("type")), Seq(Ident(c), Defined(ElemType(c))))
  }

  function GuardLine(): P {
    Seq(Seq(Seq(Spaces, Rune('|')), Spaces),
      Or(Try(Seq(Word("otherwise"), Defined(Call(ExprRule)))), Seq(Call(ExprRule), Defined(Call(ExprRule)))))
  }

  function FnLine(c: Chars): P {
    var ret := Opt(Seq(Seq(Spaces1, Word("->")), Seq(Spaces1, TypeName(c))));
    var guarded := Seq(End, Many1(Try(Seq(Many(Try(End)), GuardLine()))));
    Seq(Try(Keyword("fn")),
      Seq(Seq(Ident(c), Many1(ParamItem(c))), Seq(ret, Or(Try(Defined(Call(ExprRule))), guarded))))
  }

  function MergeLine(c: Chars): P {
    Seq(Try(Keyword("merge")), Seq(Ident(c), Defined(Seq(Keyword("zip"), Call(AtomRule)))))
  }

  function MethodHead(c: Chars): P {
    Seq(Ident(c), Seq(Rune('.'), Seq(Ident(c), Many(ParamItem(c)))))
  }

  function QueryLine(c: Chars): P {
    Seq(Try(Keyword("query")), Seq(MethodHead(c), Defined(Call(ExprRule))))
  }

  function UpdateLine(c: Chars): P {
    var body := Or(Try(Seq(Keyword("local"), Call(AtomRule))), Seq(Keyword("write"), Call(AtomRule)));
    Seq(Try(Keyword("update")), Seq(MethodHead(c), Defined(body)))
  }

  function CollectionLine(c: Chars): P {
    var key := Opt(Seq(Rune('['), Seq(ParamSpec(c), Rune(']'))));
    Seq(Try(Keyword("collection")), Seq(Ident(c), Seq(key, Defined(Ident(c)))))
  }

  /** A stray guard line is an error, as is anything no other statement matches. */
  const BarLine := Seq(Try(Seq(Spaces, Rune('|'))), Abort)

  function Line(c: Chars): P {
    Or(TypeLine(c), Or(FnLine(c), Or(MergeLine(c), Or(QueryLine(c), Or(UpdateLine(c), Or(CollectionLine(c),
      Or(BarLine, Or(Try(End), Abort))))))))
  }

  function Plan(c: Chars): P {
    Seq(Many(Line(c)), Eof)
  }

  // ----- which parsers may be run where -----

  const TOP: nat := 4

  function Rank(rule: Rule): (k: nat)
    ensures k < TOP
  {
    match rule
    case ExprRule => 3
    case AtomRule => 2
    case ReduceRule => 1
    case StructRule => 1
  }

  /** The parser might succeed without consuming. */
  predicate Nullable(p: P) {
    match p
    case Seq(a, b) => Nullable(a) && Nullable(b)
    case Or(a, b) => Nullable(a) || Nullable(b)
    case Try(q) => Nullable(q)
    case Satisfy(_) => false
    case StringLit => false
    case Abort => false
    case Call(_) => false
    case _ => true
  }

  /** Every rule it might call before consuming anything ranks below k. */
  predicate Guarded(p: P, k: nat) {
    match p
    case Seq(a, b) => Guarded(a, k) && (Nullable(a) ==> Guarded(b, k))
    case Or(a, b) => Guarded(a, k) && Guarded(b, k)
    case Try(q) => Guarded(q, k)
    case Many(q) => Guarded(q, k)
    case Call(rule) => Rank(rule) < k
    case _ => true
  }

  /** After something has been consumed any parser may run. */
  lemma GuardedTop(p: P)
    ensures Guarded(p, TOP)
  {
  }

  lemma WordShape(s: string)
    ensures Guarded(Word(s), 0) && (s != "" ==> !Nullable(Word(s)))
  {
  }

  lemma LiteralsShape(ws: seq<string>)
    requires ws != [] && forall i :: 0 <= i < |ws| ==> ws[i] != ""
    ensures Guarded(Literals(ws), 0) && !Nullable(Literals(ws))
    decreases |ws|
  {
    WordShape(ws[0]);
    if |ws| > 1 {
      LiteralsShape(ws[1..]);
    }
  }

  lemma OperatorShape()
    ensures Guarded(Operator(), 2) && !Nullable(Operator())
  {
    LiteralsShape(["+", "*", "-", ">=", "<=", "==", "/=", ">", "<"]);
    GuardedMore(Operator(), 0, 2);
  }

  lemma NumberShape()
    ensures Guarded(Number(), 2) && !Nullable(Number())
  {
  }

  lemma BaseAtomShape(c: Chars)
    ensures Guarded(BaseAtom(c), 2) && !Nullable(BaseAtom(c))
  {
    hide Operator, Number;
    OperatorShape();
    NumberShape();
  }

  lemma ReduceShape(c: Chars)
    ensures Guarded(Body(c, ReduceRule), 1) && !Nullable(Body(c, ReduceRule))
  {
    hide Word;
    WordShape("reduce");
    GuardedMore(Word("reduce"), 0, 1);
  }

  /** The grammar has no left recursion, and no rule succeeds without consuming. */
  lemma RulesGuarded(c: Chars, rule: Rule)
    ensures Guarded(Body(c, rule), Rank(rule)) && !Nullable(Body(c, rule))
  {
    hide BaseAtom;
    match rule
    case ExprRule =>
    case AtomRule => BaseAtomShape(c);
    case ReduceRule => ReduceShape(c);
    case StructRule =>
  }

  lemma {:induction false} GuardedMore(p: P, j: nat, k: nat)
    requires Guarded(p, j) && j <= k
    ensures Guarded(p, k)
  {
    match p
    case Seq(a, b) =>
      GuardedMore(a, j, k);
      if Nullable(a) {
        GuardedMore(b, j, k);
      }
    case Or(a, b) =>
      GuardedMore(a, j, k);
      GuardedMore(b, j, k);
    case Try(q) => GuardedMore(q, j, k);
    case Many(q) => GuardedMore(q, j, k);
    case _ =>
  }

  // ----- running a parser -----

  /** The position after a string literal's closing quote, from within it; None if it never closes or escapes badly. */
  function ScanString(items: string, cur: nat): (r: nat)
    requires cur <= |items|
    ensures r == 0 || cur < r <= |items|
    decreases |items| - cur
  {
    if cur == |items| then 0
    else if items[cur] == '"' then cur + 1
    else if items[cur] == '\\' then
      if cur + 1 == |items| || items[cur + 1] !in {'"', '\\', 'n', 't'} then 0 else ScanString(items, cur + 2)
    else ScanString(items, cur + 1)
  }

  /** A later step's flag, with what came before. */
  function After(r: Result, consumed: bool): Result {
    match r
    case Good(next, c) => Good(next, consumed || c)
    case Bad(c) => Bad(consumed || c)
  }

  /**
    Runs a parser at a position. It never moves backwards, reports consumption exactly when
    it has moved, and stands still only if it may.
   */
  function Run(c: Chars, p: P, items: string, pos: nat, k: nat): (r: Result)
    requires pos <= |items| && Guarded(p, k)
    ensures r.Good? ==> pos <= r.next <= |items| && (r.consumed <==> r.next > pos) && (r.next == pos ==> Nullable(p))
    decreases |items| - pos, k, p
  {
    match p
    case Succeed => Good(pos, false)
    case Eof => if pos == |items| then Good(pos, false) else Bad(false)
    case Abort => Bad(true)
    case Satisfy(pred) => if pos < |items| && pred(items[pos]) then Good(pos + 1, true) else Bad(false)
    case StringLit =>
      if pos == |items| || items[pos] != '"' then Bad(false)
      else
        var next := ScanString(items, pos + 1);
        if next == 0 then Bad(true) else Good(next, true)
    case Seq(a, b) =>
      (match Run(c, a, items, pos, k)
       case Bad(consumed) => Bad(consumed)
       case Good(next, consumed) =>
         if next > pos then
           GuardedTop(b);
           After(Run(c, b, items, next, TOP), true)
         else Run(c, b, items, pos, k))
    case Or(a, b) =>
      var r := Run(c, a, items, pos, k);
      if r.Good? || r.consumed then r else Run(c, b, items, pos, k)
    case Try(q) =>
      var r := Run(c, q, items, pos, k);
      if r.Bad? then Bad(false) else r
    case Many(q) =>
      (match Run(c, q, items, pos, k)
       case Bad(consumed) => if consumed then Bad(true) else Good(pos, false)
       case Good(next, _) =>
         if next == pos then Good(pos, false)
         else
           GuardedTop(p);
           After(Run(c, p, items, next, TOP), true))
    case Call(rule) =>
      RulesGuarded(c, rule);
      Run(c, Body(c, rule), items, pos, Rank(rule))
  }

  /** The rank only bounds the recursion: it does not change the result. */
  lemma {:induction false} RankIrrelevant(c: Chars, p: P, items: string, pos: nat, j: nat, k: nat)
    requires pos <= |items| && Guarded(p, j) && Guarded(p, k)
    ensures Run(c, p, items, pos, j) == Run(c, p, items, pos, k)
    decreases p
  {
    match p
    case Seq(a, b) =>
      RankIrrelevant(c, a, items, pos, j, k);
      var r := Run(c, a, items, pos, j);
      if r.Good? && r.next == pos {
        RankIrrelevant(c, b, items, pos, j, k);
      }
    case Or(a, b) =>
      RankIrrelevant(c, a, items, pos, j, k);
      RankIrrelevant(c, b, items, pos, j, k);
    case Try(q) => RankIrrelevant(c, q, items, pos, j, k);
    case Many(q) => RankIrrelevant(c, q, items, pos, j, k);
    case _ =>
  }

  /** A parser at a position, with nothing to guard against. */
  function Parse(c: Chars, p: P, items: string, pos: nat): (r: Result)
    requires pos <= |items|
    ensures r.Good? ==> pos <= r.next <= |items| && (r.consumed <==> r.next > pos) && (r.next == pos ==> Nullable(p))
  {
    GuardedTop(p);
    Run(c, p, items, pos, TOP)
  }

  lemma ParseSeq(c: Chars, a: P, b: P, items: string, pos: nat)
    requires pos <= |items|
    ensures Parse(c, Seq(a, b), items, pos)
      == match Parse(c, a, items, pos)
         case Bad(consumed) => Bad(consumed)
         case Good(next, consumed) => After(Parse(c, b, items, next), consumed)
  {
    GuardedTop(a);
    GuardedTop(b);
    GuardedTop(Seq(a, b));
  }

  lemma ParseTry(c: Chars, p: P, items: string, pos: nat)
    requires pos <= |items|
    ensures Parse(c, Try(p), items, pos) == var r := Parse(c, p, items, pos); if r.Bad? then Bad(false) else r
  {
    GuardedTop(p);
    GuardedTop(Try(p));
  }

  lemma ParseOr(c: Chars, p: P, q: P, items: string, pos: nat)
    requires pos <= |items|
    ensures Parse(c, Or(p, q), items, pos)
      == var r := Parse(c, p, items, pos); if r.Good? || r.consumed then r else Parse(c, q, items, pos)
  {
    GuardedTop(p);
    GuardedTop(q);
    GuardedTop(Or(p, q));
  }

  /** The repetition loop: it stops at the first failure, or at an item that consumes nothing. */
  method RunMany(c: Chars, p: P, items: string, pos: nat) returns (r: Result)
    requires pos <= |items|
    ensures r == Parse(c, Many(p), items, pos)
  {
    GuardedTop(p);
    GuardedTop(Many(p));
    var cur, consumed := pos, false;
    while true
      invariant pos <= cur <= |items| && (consumed <==> cur > pos)
      invariant Parse(c, Many(p), items, pos) == After(Parse(c, Many(p), items, cur), consumed)
      decreases |items| - cur
    {
      var item := Parse(c, p, items, cur);
      if item.Bad? {
        return if item.consumed then Bad(true) else Good(cur, consumed);
      }
      consumed := consumed || item.consumed;
      if item.next == cur {
        return Good(item.next, consumed);
      }
      cur := item.next;
    }
  }

  lemma ParseRune(c: Chars, x: char, items: string, pos: nat)
    requires pos <= |items|
    ensures Parse(c, Rune(x), items, pos)
      == if pos < |items| && items[pos] == x then Good(pos + 1, true) else Bad(false)
  {
  }

  /** The string loop: one word, rune by rune. */
  method RunWord(c: Chars, s: string, items: string, pos: nat) returns (r: Result)
    requires pos <= |items|
    ensures r == Parse(c, Word(s), items, pos)
  {
    var cur, consumed := pos, false;
    assert s[0..] == s;
    for i := 0 to |s|
      invariant pos <= cur <= |items| && (consumed <==> cur > pos)
      invariant Parse(c, Word(s), items, pos) == After(Parse(c, Word(s[i..]), items, cur), consumed)
    {
      assert Word(s[i..]) == Seq(Rune(s[i]), Word(s[i + 1..])) by { assert s[i..][1..] == s[i + 1..]; }
      ParseSeq(c, Rune(s[i]), Word(s[i + 1..]), items, cur);
      ParseRune(c, s[i], items, cur);
      if cur == |items| || items[cur] != s[i] {
        return Bad(consumed);
      }
      cur, consumed := cur + 1, true;
    }
    r := Good(cur, consumed);
  }

  // ----- statements and lines -----

  predicate AtLine(items: string, pos: nat)
    requires pos <= |items|
  {
    pos == 0 || pos == |items| || items[pos - 1] == '\n'
  }

  /** Wherever the parser succeeds, it stops at the end of a line. */
  ghost predicate Ends(p: P) {
    match p
    case Satisfy(pred) => forall x :: pred(x) ==> x == '\n'
    case Eof => true
    case Abort => true
    case Seq(a, b) => Ends(b) || (Ends(a) && Keeps(b))
    case Or(a, b) => Ends(a) && Ends(b)
    case Try(q) => Ends(q)
    case _ => false
  }

  /** If the parser starts at the start of a line, it stops at the end of one. */
  ghost predicate Keeps(p: P) {
    match p
    case Satisfy(pred) => forall x :: pred(x) ==> x == '\n'
    case Succeed => true
    case Eof => true
    case Abort => true
    case Seq(a, b) => Ends(b) || (Keeps(a) && Keeps(b))
    case Or(a, b) => Keeps(a) && Keeps(b)
    case Try(q) => Keeps(q)
    case Many(q) => Keeps(q)
    case _ => false
  }

  lemma {:induction false} EndsKeeps(p: P)
    requires Ends(p)
    ensures Keeps(p)
  {
    match p
    case Seq(a, b) =>
      if !Ends(b) {
        EndsKeeps(a);
      }
    case Or(a, b) =>
      EndsKeeps(a);
      EndsKeeps(b);
    case Try(q) => EndsKeeps(q);
    case _ =>
  }

  lemma {:induction false} RunEnds(c: Chars, p: P, items: string, pos: nat, k: nat)
    requires pos <= |items| && Guarded(p, k)
    ensures var r := Run(c, p, items, pos, k);
      r.Good? ==> (Ends(p) ==> AtLine(items, r.next)) && (Keeps(p) && AtLine(items, pos) ==> AtLine(items, r.next))
    decreases |items| - pos, k, p
  {
    match p
    case Seq(a, b) =>
      RunEnds(c, a, items, pos, k);
      var r := Run(c, a, items, pos, k);
      if r.Good? {
        if r.next > pos {
          GuardedTop(b);
          RunEnds(c, b, items, r.next, TOP);
        } else {
          RunEnds(c, b, items, pos, k);
        }
        if Ends(a) {
          EndsKeeps(a);
        }
      }
    case Or(a, b) =>
      RunEnds(c, a, items, pos, k);
      RunEnds(c, b, items, pos, k);
    case Try(q) => RunEnds(c, q, items, pos, k);
    case Many(q) =>
      RunEnds(c, q, items, pos, k);
      var r := Run(c, q, items, pos, k);
      if r.Good? && r.next > pos {
        GuardedTop(p);
        RunEnds(c, p, items, r.next, TOP);
      }
    case _ =>
  }

  lemma EndEnds()
    ensures Ends(End)
  {
    assert Ends(Rune('\n'));
    assert Ends(EndOfLine);
  }

  lemma DefinedEnds(rhs: P)
    ensures Ends(Defined(rhs))
  {
    hide Ends;
    EndEnds();
    SeqEnds(rhs, End);
    SeqEnds(Equals, Seq(rhs, End));
  }

  lemma SeqEnds(a: P, b: P)
    requires Ends(b)
    ensures Ends(Seq(a, b))
  {
  }

  lemma OrEnds(a: P, b: P)
    requires Ends(a) && Ends(b)
    ensures Ends(Or(a, b))
  {
  }

  lemma GuardEnds()
    ensures Ends(GuardLine())
  {
    hide Word, Defined;
    DefinedEnds(Call(ExprRule));
  }

  lemma FnEnds(c: Chars)
    ensures Ends(FnLine(c))
  {
    hide Ends, Keeps, Word, Defined, Ident, TypeName, ParamItem, GuardLine;
    DefinedEnds(Call(ExprRule));
    GuardsEnd();
    TryEnds(Defined(Call(ExprRule)));
    var ret := Opt(Seq(Seq(Spaces1, Word("->")), Seq(Spaces1, TypeName(c))));
    var guarded := Seq(End, Many1(Try(Seq(Many(Try(End)), GuardLine()))));
    OrEnds(Try(Defined(Call(ExprRule))), guarded);
    var body := Or(Try(Defined(Call(ExprRule))), guarded);
    SeqEnds(ret, body);
    SeqEnds(Seq(Ident(c), Many1(ParamItem(c))), Seq(ret, body));
    SeqEnds(Try(Keyword("fn")), Seq(Seq(Ident(c), Many1(ParamItem(c))), Seq(ret, body)));
  }

  lemma TryEnds(a: P)
    requires Ends(a)
    ensures Ends(Try(a))
  {
  }

  lemma GuardsEnd()
    ensures Ends(Seq(End, Many1(Try(Seq(Many(Try(End)), GuardLine())))))
  {
    hide GuardLine;
    GuardEnds();
    var guard := Try(Seq(Many(Try(End)), GuardLine()));
    assert Ends(guard);
    EndsKeeps(guard);
    assert Ends(Many1(guard));
  }

  /** A statement that ends with a defined right-hand side. */
  lemma StatementEnds(head: P, name: P, rhs: P)
    ensures Ends(Seq(head, Seq(name, Defined(rhs))))
  {
    hide Ends, Defined;
    DefinedEnds(rhs);
    SeqEnds(name, Defined(rhs));
    SeqEnds(head, Seq(name, Defined(rhs)));
  }

  lemma CollectionEnds(c: Chars)
    ensures Ends(CollectionLine(c))
  {
    hide Ends, Defined, Ident, ParamSpec;
    var key := Opt(Seq(Rune('['), Seq(ParamSpec(c), Rune(']'))));
    StatementEnds(Ident(c), key, Ident(c));
    SeqEnds(Try(Keyword("collection")), Seq(Ident(c), Seq(key, Defined(Ident(c)))));
  }

  lemma AbortEnds()
    ensures Ends(Abort) && Ends(BarLine)
  {
  }

  /** Every kind of statement ends its line. */
  lemma LineEnds(c: Chars)
    ensures Ends(Line(c))
  {
    hide Ends, Keyword, Defined, Ident, MethodHead, ElemType, FnLine, CollectionLine;
    StatementEnds(Try(Keyword("type")), Ident(c), ElemType(c));
    FnEnds(c);
    StatementEnds(Try(Keyword("merge")), Ident(c), Seq(Keyword("zip"), Call(AtomRule)));
    StatementEnds(Try(Keyword("query")), MethodHead(c), Call(ExprRule));
    StatementEnds(Try(Keyword("update")), MethodHead(c),
      Or(Try(Seq(Keyword("local"), Call(AtomRule))), Seq(Keyword("write"), Call(AtomRule))));
    CollectionEnds(c);
    EndEnds();
    TryEnds(End);
    AbortEnds();
    OrEnds(Try(End), Abort);
    OrEnds(BarLine, Or(Try(End), Abort));
    var rest := Or(BarLine, Or(Try(End), Abort));
    OrEnds(CollectionLine(c), rest);
    OrEnds(UpdateLine(c), Or(CollectionLine(c), rest));
    var methods := Or(UpdateLine(c), Or(CollectionLine(c), rest));
    OrEnds(QueryLine(c), methods);
    OrEnds(MergeLine(c), Or(QueryLine(c), methods));
    OrEnds(FnLine(c), Or(MergeLine(c), Or(QueryLine(c), methods)));
    OrEnds(TypeLine(c), Or(FnLine(c), Or(MergeLine(c), Or(QueryLine(c), methods))));
  }

  /** A line is a statement, blank, or an error that no later alternative can undo. */
  lemma LineDecides(c: Chars, items: string, pos: nat)
    requires pos <= |items|
    ensures var r := Parse(c, Line(c), items, pos); if r.Good? then AtLine(items, r.next) else r.consumed
  {
    LineEnds(c);
    GuardedTop(Line(c));
    RunEnds(c, Line(c), items, pos, TOP);
    LastResort(c, items, pos);
  }

  lemma LastResort(c: Chars, items: string, pos: nat)
    requires pos <= |items|
    ensures Parse(c, Line(c), items, pos).Good? || Parse(c, Line(c), items, pos).consumed
  {
    hide TypeLine, FnLine, MergeLine, QueryLine, UpdateLine, CollectionLine, Run;
    var blank := Or(Try(End), Abort);
    var collection := Or(CollectionLine(c), Or(BarLine, blank));
    var update := Or(UpdateLine(c), collection);
    var query := Or(QueryLine(c), update);
    var merge := Or(MergeLine(c), query);
    ParseAbort(c, items, pos);
    ParseOr(c, Try(End), Abort, items, pos);
    ParseOr(c, BarLine, blank, items, pos);
    ParseOr(c, CollectionLine(c), Or(BarLine, blank), items, pos);
    ParseOr(c, UpdateLine(c), collection, items, pos);
    ParseOr(c, QueryLine(c), update, items, pos);
    ParseOr(c, MergeLine(c), query, items, pos);
    ParseOr(c, FnLine(c), merge, items, pos);
    ParseOr(c, TypeLine(c), Or(FnLine(c), merge), items, pos);
  }

  lemma ParseAbort(c: Chars, items: string, pos: nat)
    requires pos <= |items|
    ensures Parse(c, Abort, items, pos) == Bad(true)
  {
  }

  /** One match of the parser, from one position to the next. */
  predicate Piece(c: Chars, p: P, items: string, from: nat, to: nat) {
    from < to <= |items| && var r := Parse(c, p, items, from); r.Good? && r.next == to
  }

  /** The positions between the items a repetition has matched. */
  ghost predicate Cuts(c: Chars, p: P, items: string, cuts: seq<nat>) {
    cuts != [] && (forall i :: 0 <= i < |cuts| ==> cuts[i] <= |items|)
    && forall i :: 0 <= i < |cuts| - 1 ==> Piece(c, p, items, cuts[i], cuts[i + 1])
  }

  lemma {:induction false} ManyCuts(c: Chars, p: P, items: string, pos: nat) returns (cuts: seq<nat>)
    requires pos <= |items| && Parse(c, Many(p), items, pos).Good?
    ensures Cuts(c, p, items, cuts) && cuts[0] == pos && cuts[|cuts| - 1] == Parse(c, Many(p), items, pos).next
    decreases |items| - pos
  {
    GuardedTop(p);
    GuardedTop(Many(p));
    cuts := [pos];
    var r := Parse(c, p, items, pos);
    if r.Good? && r.next > pos {
      var rest := ManyCuts(c, p, items, r.next);
      cuts := cuts + rest;
      CutsCons(c, p, items, pos, rest);
    }
  }

  lemma CutsCons(c: Chars, p: P, items: string, pos: nat, rest: seq<nat>)
    requires pos <= |items| && Cuts(c, p, items, rest) && pos < rest[0]
    requires var r := Parse(c, p, items, pos); r.Good? && r.next == rest[0]
    ensures Cuts(c, p, items, [pos] + rest)
  {
    var cuts := [pos] + rest;
    forall i | 0 <= i < |cuts| - 1
      ensures Piece(c, p, items, cuts[i], cuts[i + 1])
    {
      if i == 0 {
        assert cuts[1] == rest[0];
      } else {
        assert cuts[i] == rest[i - 1] && cuts[i + 1] == rest[i - 1 + 1];
      }
    }
  }

  /**
    An accepted plan consumed the whole input: it falls apart into lines, each of them one
    statement or blank, and each ending where a line of the text ends.
   */
  lemma AcceptedWhole(c: Chars, items: string) returns (cuts: seq<nat>)
    requires Parse(c, Plan(c), items, 0).Good?
    ensures Parse(c, Plan(c), items, 0).next == |items|
    ensures Cuts(c, Line(c), items, cuts) && cuts[0] == 0 && cuts[|cuts| - 1] == |items|
    ensures forall i :: 0 <= i < |cuts| ==> AtLine(items, cuts[i])
  {
    hide Line;
    ParseSeq(c, Many(Line(c)), Eof, items, 0);
    ParseEof(c, items);
    cuts := ManyCuts(c, Line(c), items, 0);
    forall i | 0 <= i < |cuts|
      ensures AtLine(items, cuts[i])
    {
      if i > 0 {
        LineDecides(c, items, cuts[i - 1]);
      }
    }
  }

  lemma ParseEof(c: Chars, items: string)
    ensures forall pos: nat :: pos <= |items| && Parse(c, Eof, items, pos).Good? ==> pos == |items|
    ensures forall pos: nat :: pos <= |items| && Parse(c, Eof, items, pos).Good? ==> Parse(c, Eof, items, pos).next == pos
  {
  }

  /** An expression or an atom, once recognised, has consumed something. */
  lemma RulesConsume(c: Chars, rule: Rule, items: string, pos: nat)
    requires pos <= |items|
    ensures var r := Parse(c, Call(rule), items, pos); r.Good? ==> r.next > pos && r.consumed
  {
  }

  /** A failed Try leaves the alternative to its right as if it had not been attempted. */
  lemma TryBacktracks(c: Chars, p: P, q: P, items: string, pos: nat)
    requires pos <= |items|
    ensures Parse(c, Or(Try(p), q), items, pos)
      == if Parse(c, p, items, pos).Good? then Parse(c, p, items, pos) else Parse(c, q, items, pos)
  {
    ParseOr(c, Try(p), q, items, pos);
    ParseTry(c, p, items, pos);
  }

  /** A choice whose first branch has consumed input and failed is committed to that failure. */
  lemma OrCommits(c: Chars, p: P, q: P, items: string, pos: nat)
    requires pos <= |items| && Parse(c, p, items, pos) == Bad(true)
    ensures Parse(c, Or(p, q), items, pos) == Bad(true)
  {
    ParseOr(c, p, q, items, pos);
  }
}
