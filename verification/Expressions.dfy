/** The expression parser of eople_parse.cpp: nine levels of binary operators over one loop. */
module Expressions {
  import opened Options

  datatype Op =
    | MUL | DIV | MOD | ADD | SUB | SHL | SHR | GT | LT | EQ | NEQ | LEQ | GEQ | BAND | BXOR | BOR | AND | OR

  const TOP: nat := 9
  const INT_MAX := 0x7fff_ffff_ffff_ffff

  /** The level of the ladder that takes the operator, from ParseTerm (1) up to ParseExpression (9). */
  function LevelOf(op: Op): (k: nat)
    ensures 1 <= k <= TOP
  {
    match op
    case MUL => 1 case DIV => 1 case MOD => 1
    case ADD => 2 case SUB => 2
    case SHL => 3 case SHR => 3
    case GT => 4 case LT => 4 case EQ => 4 case NEQ => 4 case LEQ => 4 case GEQ => 4
    case BAND => 5
    case BXOR => 6
    case BOR => 7
    case AND => 8
    case OR => 9
  }

  /** `Postfix` are the tokens that make something else of an identifier before them: '[', '.', '->'.  `Prefix`
      are those that start a factor left out here: '[', '{', ':', a float or a string.  `Other` is any other
      token, and the end of the input. */
  datatype Token = LPar | RPar | Name(name: string) | Number(n: nat) | True | False | Newline | Sym(op: Op) | Postfix | Prefix | Other

  datatype Expr = Binary(op: Op, left: Expr, right: Expr) | Ident(name: string) | Int(n: int) | Bool(b: bool)

  /** What a parsing function returns, where the token position is then, whether it counted an error, and
      whether it met a construct that is left out. */
  datatype Out = Out(node: Option<Expr>, pos: nat, failed: bool, beyond: bool)

  function At(toks: seq<Token>, pos: nat): Token {
    if pos < |toks| then toks[pos] else Other
  }

  function Skip(toks: seq<Token>, pos: nat): (r: nat)
    ensures pos <= r && (pos <= |toks| ==> r <= |toks|)
    decreases |toks| - pos
  {
    if pos < |toks| && toks[pos].Newline? then Skip(toks, pos + 1) else pos
  }

  /** m_last_line when the tokens before pos have been consumed: every newline starts a line. */
  function Line(toks: seq<Token>, pos: nat): nat
    requires pos <= |toks|
    decreases pos
  {
    if pos == 0 then 1 else Line(toks, pos - 1) + if toks[pos - 1].Newline? then 1 else 0
  }

  lemma {:induction false} LineCounts(toks: seq<Token>, pos: nat)
    requires pos <= |toks|
    ensures Line(toks, pos) == 1 + multiset(toks[..pos])[Newline]
  {
    if pos == 0 {
      assert toks[..pos] == [];
    } else {
      LineCounts(toks, pos - 1);
      assert toks[..pos] == toks[..pos - 1] + [toks[pos - 1]];
    }
  }

  /** ParseInt: the literal as a 64-bit integer, with its sign; too large a number is an error but still a
      node. */
  function Literal(n: nat, minus: bool): int {
    var x := if n > INT_MAX then n - 0x1_0000_0000_0000_0000 else n;
    if minus then -x else x
  }

  /** ParseFactor after its attempt at a parenthesis: an identifier, or a literal with an optional sign. */
  function Primary(toks: seq<Token>, names: set<string>, pos: nat): (r: Out)
    ensures pos <= r.pos && (pos <= |toks| ==> r.pos <= |toks|)
  {
    match At(toks, pos)
    case Name(name) =>
      if At(toks, pos + 1).LPar? || At(toks, pos + 1).Postfix? then Out(None, pos + 1, false, true)
      else if name in names then Out(Some(Ident(name)), pos + 1, false, false)
      else Out(None, pos + 1, true, false)
    case Sym(op) => if op == SUB || op == ADD then Unsigned(toks, pos + 1, true, op == SUB) else Out(None, pos, false, false)
    case _ => Unsigned(toks, pos, false, false)
  }

  function Unsigned(toks: seq<Token>, pos: nat, sign: bool, minus: bool): (r: Out)
    ensures pos <= r.pos && (pos <= |toks| ==> r.pos <= |toks|)
  {
    match At(toks, pos)
    case Number(n) => Out(Some(Int(Literal(n, minus))), pos + 1, n > INT_MAX, false)
    case True => Out(if sign then None else Some(Bool(true)), pos + 1, sign, false)
    case False => Out(if sign then None else Some(Bool(false)), pos + 1, sign, false)
    case Prefix => Out(None, pos, false, true)
    case _ => Out(None, pos, false, false)
  }

  function Noting(r: Out, before: Out): Out {
    r.(failed := r.failed || before.failed, beyond := r.beyond || before.beyond)
  }

  /** ParseFactor.  A parenthesis that gave no node is forgotten, and the factor is looked for behind it. */
  function Factor(toks: seq<Token>, names: set<string>, former: nat, pos: nat): (r: Out)
    requires pos <= |toks|
    ensures pos <= r.pos <= |toks|
    decreases |toks| - pos, 0, 0
  {
    if At(toks, pos).LPar? then
      var inner := Level(toks, names, former, TOP, pos + 1);
      if At(toks, inner.pos).RPar? then
        if inner.node.Some? then inner.(pos := inner.pos + 1) else Noting(Primary(toks, names, inner.pos + 1), inner)
      else Noting(Primary(toks, names, inner.pos), inner).(failed := true)
    else Primary(toks, names, pos)
  }

  /** The functions of the ladder, from ParseFactor up to ParseExpression.  `former` is the line of the last error
      that was counted before, in the same text or in an earlier one. */
  function Level(toks: seq<Token>, names: set<string>, former: nat, k: nat, pos: nat): (r: Out)
    requires pos <= |toks|
    ensures pos <= r.pos <= |toks|
    decreases |toks| - pos, k, 3
  {
    if k == 0 then Factor(toks, names, former, pos) else Operators(toks, names, former, k, pos)
  }

  /** ParseOp with the operators of level k, over level k - 1. */
  function Operators(toks: seq<Token>, names: set<string>, former: nat, k: nat, pos: nat): (r: Out)
    requires pos <= |toks| && k > 0
    ensures pos <= r.pos <= |toks|
    decreases |toks| - pos, k, 2
  {
    var lhs := Level(toks, names, former, k - 1, pos);
    if lhs.node.None? then lhs else Rest(toks, names, former, k, lhs)
  }

  /** The loop of ParseOp, with what has been parsed so far. */
  function Rest(toks: seq<Token>, names: set<string>, former: nat, k: nat, lhs: Out): (r: Out)
    requires lhs.pos <= |toks| && lhs.node.Some? && k > 0
    ensures lhs.pos <= r.pos <= |toks|
    ensures (lhs.failed ==> r.failed) && (lhs.beyond ==> r.beyond)
    decreases |toks| - lhs.pos, k, 1
  {
    if At(toks, lhs.pos).Sym? && LevelOf(At(toks, lhs.pos).op) == k then Turn(toks, names, former, k, lhs) else lhs
  }

  /** One turn of it: an operator of the level and what it is applied to.  That there is nothing to apply it to is
      not counted as an error on the line of the last error, which may be one of an earlier text
      (eople_parse.cpp:1252-1258). */
  function Turn(toks: seq<Token>, names: set<string>, former: nat, k: nat, lhs: Out): (r: Out)
    requires lhs.pos < |toks| && lhs.node.Some? && k > 0 && toks[lhs.pos].Sym?
    ensures lhs.pos <= r.pos <= |toks|
    ensures (lhs.failed ==> r.failed) && (lhs.beyond ==> r.beyond)
    decreases |toks| - lhs.pos, k, 0
  {
    var rhs := Level(toks, names, former, k - 1, Skip(toks, lhs.pos + 1));
    if rhs.node.None? then Noting(rhs, lhs).(failed := lhs.failed || rhs.failed || Line(toks, rhs.pos) != former)
    else Rest(toks, names, former, k, Noting(rhs, lhs).(node := Some(Binary(toks[lhs.pos].op, lhs.node.value, rhs.node.value))))
  }

  // ---------------------------------------------------------------- spellings

  datatype Sign = Plus | Minus | NoSign

  /** What can stand between parentheses that hold no expression: perhaps another such pair, and perhaps a sign; or
      an expression that breaks off after an operator, on the line of the last error. */
  datatype Hollow =
    | Hollow(inner: Option<Hollow>, sign: Sign)
    | Broken(left: Spelling, op: Op, breaks: nat, rest: Hollow)

  /** A way to write an expression down: with any parentheses it has room for, any number of newlines after a
      binary operator, signs on numbers, and hollow parentheses before a name or a literal. */
  datatype Spelling =
    | Word(name: string)
    | Digits(sign: Sign, n: nat)
    | Truth(b: bool)
    | Paren(inner: Spelling)
    | Behind(hollow: Hollow, primary: Spelling)
    | Infix(op: Op, left: Spelling, breaks: nat, right: Spelling)

  function Tree(s: Spelling): Expr {
    match s
    case Word(name) => Ident(name)
    case Digits(sign, n) => Int(if sign == Minus then 0 - n else n)
    case Truth(b) => Bool(b)
    case Paren(inner) => Tree(inner)
    case Behind(_, primary) => Tree(primary)
    case Infix(op, left, _, right) => Binary(op, Tree(left), Tree(right))
  }

  predicate Simple(s: Spelling) {
    s.Word? || s.Digits? || s.Truth?
  }

  /** The spelling can stand where level k is expected: operators bind as the ladder says, to the left. */
  predicate Allowed(s: Spelling, names: set<string>, k: nat)
    decreases s, 1
  {
    match s
    case Word(name) => name in names
    case Digits(_, n) => n <= INT_MAX
    case Truth(_) => true
    case Paren(inner) => Allowed(inner, names, TOP)
    case Behind(hollow, primary) => HollowAllowed(hollow, names, TOP) && Simple(primary) && Allowed(primary, names, 0)
    case Infix(op, _, _, _) => LevelOf(op) <= k && OperandsAllowed(s, names)
  }

  predicate HollowAllowed(h: Hollow, names: set<string>, k: nat)
    decreases h, 1
  {
    match h
    case Hollow(inner, _) => inner.Some? ==> HollowAllowed(inner.value, names, TOP)
    case Broken(left, op, _, rest) =>
      LevelOf(op) <= k && Allowed(left, names, LevelOf(op)) && HollowAllowed(rest, names, LevelOf(op) - 1)
  }

  predicate OperandsAllowed(s: Spelling, names: set<string>)
    requires s.Infix?
    decreases s, 0
  {
    Allowed(s.left, names, LevelOf(s.op)) && Allowed(s.right, names, LevelOf(s.op) - 1)
  }

  function SignLength(sign: Sign): nat {
    if sign == NoSign then 0 else 1
  }

  function HollowLength(h: Hollow): nat
    decreases h, 2
  {
    2 + ContentLength(h)
  }

  /** Without the parentheses themselves. */
  function ContentLength(h: Hollow): nat
    decreases h, 1
  {
    match h
    case Hollow(inner, sign) => (if inner.Some? then HollowLength(inner.value) else 0) + SignLength(sign)
    case Broken(left, _, breaks, rest) => Length(left) + 1 + breaks + ContentLength(rest)
  }

  function Length(s: Spelling): nat
    decreases s, 0
  {
    match s
    case Word(_) => 1
    case Digits(sign, _) => SignLength(sign) + 1
    case Truth(_) => 1
    case Paren(inner) => Length(inner) + 2
    case Behind(hollow, primary) => HollowLength(hollow) + Length(primary)
    case Infix(_, left, breaks, right) => Length(left) + 1 + breaks + Length(right)
  }

  predicate SignWritten(toks: seq<Token>, pos: nat, sign: Sign) {
    match sign
    case NoSign => true
    case Plus => At(toks, pos) == Sym(ADD)
    case Minus => At(toks, pos) == Sym(SUB)
  }

  predicate HollowWritten(toks: seq<Token>, former: nat, pos: nat, h: Hollow)
    decreases h, 2
  {
    At(toks, pos) == LPar && ContentWritten(toks, former, pos + 1, h) && At(toks, pos + 1 + ContentLength(h)) == RPar
  }

  predicate ContentWritten(toks: seq<Token>, former: nat, pos: nat, h: Hollow)
    decreases h, 1
  {
    match h
    case Hollow(inner, sign) =>
      if inner.Some? then HollowWritten(toks, former, pos, inner.value) && SignWritten(toks, pos + HollowLength(inner.value), sign)
      else SignWritten(toks, pos, sign)
    case Broken(_, _, _, _) => BrokenWritten(toks, former, pos, h)
  }

  predicate BrokenWritten(toks: seq<Token>, former: nat, pos: nat, h: Hollow)
    requires h.Broken?
    decreases h, 0
  {
    var mid := pos + Length(h.left);
    && pos + ContentLength(h) <= |toks| && Line(toks, pos + ContentLength(h)) == former
    && Written(toks, former, pos, h.left) && toks[mid] == Sym(h.op)
    && Breaks(toks, mid + 1, h.breaks) && ContentWritten(toks, former, mid + 1 + h.breaks, h.rest)
  }

  /** The tokens of the spelling stand at pos. */
  predicate Written(toks: seq<Token>, former: nat, pos: nat, s: Spelling)
    decreases s, 1
  {
    pos + Length(s) <= |toks| && Stands(toks, former, pos, s)
  }

  predicate Stands(toks: seq<Token>, former: nat, pos: nat, s: Spelling)
    requires pos + Length(s) <= |toks|
    decreases s, 0
  {
    match s
    case Word(name) => toks[pos] == Name(name)
    case Digits(sign, n) => SignWritten(toks, pos, sign) && toks[pos + SignLength(sign)] == Number(n)
    case Truth(b) => toks[pos] == if b then True else False
    case Paren(inner) => toks[pos] == LPar && Written(toks, former, pos + 1, inner) && toks[pos + 1 + Length(inner)] == RPar
    case Behind(hollow, primary) =>
      HollowWritten(toks, former, pos, hollow) && Written(toks, former, pos + HollowLength(hollow), primary)
    case Infix(op, left, breaks, right) =>
      var mid := pos + Length(left);
      && Written(toks, former, pos, left) && toks[mid] == Sym(op)
      && Breaks(toks, mid + 1, breaks) && Written(toks, former, mid + 1 + breaks, right)
  }

  /** n newlines stand at pos. */
  predicate Breaks(toks: seq<Token>, pos: nat, n: nat)
    decreases n
  {
    n == 0 || (pos < |toks| && toks[pos] == Newline && Breaks(toks, pos + 1, n - 1))
  }

  /** The last token is a name, which some tokens after it would make something else of. */
  predicate EndsInWord(s: Spelling) {
    match s
    case Word(_) => true
    case Behind(_, primary) => EndsInWord(primary)
    case Infix(_, _, _, right) => EndsInWord(right)
    case _ => false
  }

  /** What follows an expression of level k for it to end there. */
  predicate Ends(t: Token, s: Spelling, k: nat) {
    && (t.Sym? ==> LevelOf(t.op) > k)
    && (EndsInWord(s) ==> !t.LPar? && !t.Postfix?)
  }

  lemma {:induction false} SkipBreaks(toks: seq<Token>, pos: nat, n: nat)
    requires pos + n < |toks| && !toks[pos + n].Newline? && Breaks(toks, pos, n)
    ensures Skip(toks, pos) == pos + n
    decreases n
  {
    if n > 0 { SkipBreaks(toks, pos + 1, n - 1); }
  }

  lemma {:induction false} FirstToken(toks: seq<Token>, former: nat, pos: nat, s: Spelling)
    requires Written(toks, former, pos, s)
    ensures Length(s) > 0 && !toks[pos].Newline?
  {
    assert Stands(toks, former, pos, s);
    if s.Infix? { FirstToken(toks, former, pos, s.left); }
    if s.Behind? { assert HollowWritten(toks, former, pos, s.hollow); }
  }

  /** Every spelling is parsed to its tree, and its tokens are consumed exactly. */
  lemma {:induction false} Parses(toks: seq<Token>, names: set<string>, former: nat, k: nat, pos: nat, s: Spelling)
    requires k <= TOP && Allowed(s, names, k) && Written(toks, former, pos, s) && Ends(At(toks, pos + Length(s)), s, k)
    ensures Level(toks, names, former, k, pos) == Out(Some(Tree(s)), pos + Length(s), false, false)
    decreases s, k, 2
  {
    if k == 0 {
      ParsesFactor(toks, names, former, pos, s);
    } else {
      var r := Out(Some(Tree(s)), pos + Length(s), false, false);
      assert Level(toks, names, former, k, pos) == Rest(toks, names, former, k, r) by {
        assert Ends(At(toks, r.pos), s, k - 1);
        Reaches(toks, names, former, k, pos, s);
      }
      assert Rest(toks, names, former, k, r) == r by { StopsAt(toks, names, former, k, r); }
    }
  }

  lemma {:induction false} StopsAt(toks: seq<Token>, names: set<string>, former: nat, k: nat, lhs: Out)
    requires k > 0 && lhs.pos <= |toks| && lhs.node.Some? && (At(toks, lhs.pos).Sym? ==> LevelOf(At(toks, lhs.pos).op) > k)
    ensures Rest(toks, names, former, k, lhs) == lhs
  {
  }

  lemma {:induction false} ParsesFactor(toks: seq<Token>, names: set<string>, former: nat, pos: nat, s: Spelling)
    requires Allowed(s, names, 0) && Written(toks, former, pos, s) && Ends(At(toks, pos + Length(s)), s, 0)
    ensures Level(toks, names, former, 0, pos) == Out(Some(Tree(s)), pos + Length(s), false, false)
    decreases s, 0, 1
  {
    assert Level(toks, names, former, 0, pos) == Factor(toks, names, former, pos);
    match s
    case Paren(inner) => Parses(toks, names, former, TOP, pos + 1, inner);
    case Behind(hollow, primary) => ParsesBehind(toks, names, former, pos, s);
    case _ => ParsesPrimary(toks, names, former, pos, s);
  }

  lemma {:induction false} ParsesBehind(toks: seq<Token>, names: set<string>, former: nat, pos: nat, s: Spelling)
    requires s.Behind? && Allowed(s, names, 0) && Written(toks, former, pos, s) && Ends(At(toks, pos + Length(s)), s, 0)
    ensures Factor(toks, names, former, pos) == Out(Some(Tree(s)), pos + Length(s), false, false)
    decreases s, 0, 0
  {
    assert Stands(toks, former, pos, s);
    assert HollowWritten(toks, former, pos, s.hollow);
    var mid := pos + HollowLength(s.hollow);
    assert At(toks, pos) == LPar && At(toks, mid - 1) == RPar;
    assert Level(toks, names, former, TOP, pos + 1) == Out(None, mid - 1, false, false) by { HollowIsNothing(toks, names, former, TOP, pos + 1, s.hollow); }
    assert Primary(toks, names, mid) == Out(Some(Tree(s.primary)), mid + Length(s.primary), false, false) by {
      ParsesPrimary(toks, names, former, mid, s.primary);
    }
    BehindHollow(toks, names, former, pos, mid, Primary(toks, names, mid));
  }

  lemma {:induction false} BehindHollow(toks: seq<Token>, names: set<string>, former: nat, pos: nat, mid: nat, r: Out)
    requires pos + 1 < mid <= |toks| && toks[pos] == LPar && toks[mid - 1] == RPar
    requires Level(toks, names, former, TOP, pos + 1) == Out(None, mid - 1, false, false) && Primary(toks, names, mid) == r
    ensures Factor(toks, names, former, pos) == r
  {
  }

  lemma {:induction false} ParsesPrimary(toks: seq<Token>, names: set<string>, former: nat, pos: nat, s: Spelling)
    requires Simple(s) && Allowed(s, names, 0) && Written(toks, former, pos, s) && Ends(At(toks, pos + Length(s)), s, 0)
    ensures Primary(toks, names, pos) == Out(Some(Tree(s)), pos + Length(s), false, false) && !At(toks, pos).LPar?
  {
  }

  /** No level finds an expression in the content of a hollow parenthesis, and none counts that as an error. */
  lemma {:induction false} HollowIsNothing(toks: seq<Token>, names: set<string>, former: nat, k: nat, pos: nat, h: Hollow)
    requires k <= TOP && HollowAllowed(h, names, k) && ContentWritten(toks, former, pos, h)
    requires At(toks, pos + ContentLength(h)) == RPar && pos + ContentLength(h) < |toks|
    ensures Level(toks, names, former, k, pos) == Out(None, pos + ContentLength(h), false, false)
    decreases h, k, 1
  {
    if h.Broken? && LevelOf(h.op) == k {
      BrokenIsNothing(toks, names, former, pos, h);
    } else if k > 0 {
      HollowIsNothing(toks, names, former, k - 1, pos, h);
      assert Level(toks, names, former, k, pos) == Operators(toks, names, former, k, pos);
    } else if h.inner.Some? {
      DeepIsNothing(toks, names, former, pos, h);
      assert Level(toks, names, former, 0, pos) == Factor(toks, names, former, pos);
    } else {
      SignIsNothing(toks, names, former, pos, h.sign);
      assert Level(toks, names, former, 0, pos) == Factor(toks, names, former, pos);
    }
  }

  lemma {:induction false} DeepIsNothing(toks: seq<Token>, names: set<string>, former: nat, pos: nat, h: Hollow)
    requires h.Hollow? && h.inner.Some? && HollowAllowed(h, names, 0) && ContentWritten(toks, former, pos, h)
    requires At(toks, pos + ContentLength(h)) == RPar && pos + ContentLength(h) < |toks|
    ensures Factor(toks, names, former, pos) == Out(None, pos + ContentLength(h), false, false)
    decreases h, 0, 0
  {
    var deep, next := h.inner.value, pos + HollowLength(h.inner.value);
    assert toks[pos] == LPar && toks[next - 1] == RPar;
    assert Level(toks, names, former, TOP, pos + 1) == Out(None, next - 1, false, false) by {
      HollowIsNothing(toks, names, former, TOP, pos + 1, deep);
    }
    assert Primary(toks, names, next) == Out(None, next + SignLength(h.sign), false, false) by {
      SignIsNothing(toks, names, former, next, h.sign);
    }
    BehindHollow(toks, names, former, pos, next, Out(None, next + SignLength(h.sign), false, false));
  }

  /** An expression that breaks off after an operator is given up, and that is no error on the line of the last
      one. */
  lemma {:induction false} BrokenIsNothing(toks: seq<Token>, names: set<string>, former: nat, pos: nat, h: Hollow)
    requires h.Broken? && HollowAllowed(h, names, LevelOf(h.op)) && ContentWritten(toks, former, pos, h)
    requires At(toks, pos + ContentLength(h)) == RPar && pos + ContentLength(h) < |toks|
    ensures Level(toks, names, former, LevelOf(h.op), pos) == Out(None, pos + ContentLength(h), false, false)
    decreases h, LevelOf(h.op), 0
  {
    var k, mid := LevelOf(h.op), pos + Length(h.left);
    var next, end := mid + 1 + h.breaks, pos + ContentLength(h);
    assert Level(toks, names, former, k, pos) == Rest(toks, names, former, k, Out(Some(Tree(h.left)), mid, false, false)) by {
      Reaches(toks, names, former, k, pos, h.left);
    }
    assert Level(toks, names, former, k - 1, next) == Out(None, end, false, false) by {
      HollowIsNothing(toks, names, former, k - 1, next, h.rest);
    }
    assert Skip(toks, mid + 1) == next by {
      ContentFirst(toks, former, next, h.rest);
      SkipBreaks(toks, mid + 1, h.breaks);
    }
    GivesUp(toks, names, former, k, Out(Some(Tree(h.left)), mid, false, false), next, end);
  }

  lemma {:induction false} GivesUp(toks: seq<Token>, names: set<string>, former: nat, k: nat, lhs: Out, next: nat, end: nat)
    requires 0 < k && lhs.node.Some? && lhs.pos < |toks| && toks[lhs.pos].Sym? && LevelOf(toks[lhs.pos].op) == k && Clean(lhs)
    requires next == Skip(toks, lhs.pos + 1) && end <= |toks| && Line(toks, end) == former
    requires Level(toks, names, former, k - 1, next) == Out(None, end, false, false)
    ensures Rest(toks, names, former, k, lhs) == Out(None, end, false, false)
  {
  }

  lemma {:induction false} ContentFirst(toks: seq<Token>, former: nat, pos: nat, h: Hollow)
    requires ContentWritten(toks, former, pos, h) && At(toks, pos + ContentLength(h)) == RPar && pos + ContentLength(h) < |toks|
    ensures !toks[pos].Newline?
  {
    if h.Broken? { FirstToken(toks, former, pos, h.left); }
  }

  lemma {:induction false} SignIsNothing(toks: seq<Token>, names: set<string>, former: nat, pos: nat, sign: Sign)
    requires SignWritten(toks, pos, sign) && At(toks, pos + SignLength(sign)) == RPar
    ensures Primary(toks, names, pos) == Out(None, pos + SignLength(sign), false, false) && !At(toks, pos).LPar?
  {
  }

  /** Parsing level k gets past the spelling into the loop of that level. */
  lemma {:induction false} Reaches(toks: seq<Token>, names: set<string>, former: nat, k: nat, pos: nat, s: Spelling)
    requires 0 < k <= TOP && Allowed(s, names, k) && Written(toks, former, pos, s) && Ends(At(toks, pos + Length(s)), s, k - 1)
    ensures Level(toks, names, former, k, pos) == Rest(toks, names, former, k, Out(Some(Tree(s)), pos + Length(s), false, false))
    decreases s, k, 0
  {
    if s.Infix? && LevelOf(s.op) == k {
      ReachesInfix(toks, names, former, pos, s);
    } else {
      AllowedLower(s, names, k);
      ReachesLower(toks, names, former, k, pos, s);
    }
  }

  lemma {:induction false} ReachesLower(toks: seq<Token>, names: set<string>, former: nat, k: nat, pos: nat, s: Spelling)
    requires 0 < k <= TOP && Allowed(s, names, k - 1) && Written(toks, former, pos, s) && Ends(At(toks, pos + Length(s)), s, k - 1)
    ensures Level(toks, names, former, k, pos) == Rest(toks, names, former, k, Out(Some(Tree(s)), pos + Length(s), false, false))
    decreases s, k - 1, 3
  {
    Parses(toks, names, former, k - 1, pos, s);
    LevelAbove(toks, names, former, k, pos, Out(Some(Tree(s)), pos + Length(s), false, false));
  }

  lemma {:induction false} LevelAbove(toks: seq<Token>, names: set<string>, former: nat, k: nat, pos: nat, lhs: Out)
    requires 0 < k && pos <= |toks| && Level(toks, names, former, k - 1, pos) == lhs && lhs.node.Some?
    ensures Level(toks, names, former, k, pos) == Rest(toks, names, former, k, lhs)
  {
    assert Level(toks, names, former, k, pos) == Operators(toks, names, former, k, pos);
  }

  lemma {:induction false} AllowedLower(s: Spelling, names: set<string>, k: nat)
    requires k > 0 && Allowed(s, names, k) && (s.Infix? ==> LevelOf(s.op) != k)
    ensures Allowed(s, names, k - 1)
  {
  }

  lemma {:induction false} ReachesInfix(toks: seq<Token>, names: set<string>, former: nat, pos: nat, s: Spelling)
    requires s.Infix? && Allowed(s, names, LevelOf(s.op)) && Written(toks, former, pos, s) && Ends(At(toks, pos + Length(s)), s, LevelOf(s.op) - 1)
    ensures var k := LevelOf(s.op);
      Level(toks, names, former, k, pos) == Rest(toks, names, former, k, Out(Some(Tree(s)), pos + Length(s), false, false))
    decreases s, 0, 0
  {
    var k, mid, next := LevelOf(s.op), pos + Length(s.left), pos + Length(s.left) + 1 + s.breaks;
    assert Level(toks, names, former, k, pos) == Rest(toks, names, former, k, Out(Some(Tree(s.left)), mid, false, false)) by {
      ReachesLeft(toks, names, former, pos, s);
    }
    assert Level(toks, names, former, k - 1, next) == Out(Some(Tree(s.right)), pos + Length(s), false, false) by {
      ParsesRight(toks, names, former, pos, s);
    }
    assert next == Skip(toks, mid + 1) by { ParsesRight(toks, names, former, pos, s); }
    Joins(toks, names, former, k, pos, s.op, Tree(s.left), mid, next, Tree(s.right), pos + Length(s));
  }

  lemma {:induction false} ReachesLeft(toks: seq<Token>, names: set<string>, former: nat, pos: nat, s: Spelling)
    requires s.Infix? && Allowed(s, names, LevelOf(s.op)) && Written(toks, former, pos, s)
    ensures var k, mid := LevelOf(s.op), pos + Length(s.left);
      && mid < |toks| && toks[mid] == Sym(s.op)
      && Level(toks, names, former, k, pos) == Rest(toks, names, former, k, Out(Some(Tree(s.left)), mid, false, false))
    decreases s.left, TOP, 2
  {
    Reaches(toks, names, former, LevelOf(s.op), pos, s.left);
  }

  lemma {:induction false} Joins(toks: seq<Token>, names: set<string>, former: nat, k: nat, pos: nat, op: Op, l: Expr, mid: nat, next: nat, r: Expr, end: nat)
    requires 0 < k && pos <= mid < |toks| && toks[mid] == Sym(op) && LevelOf(op) == k && next == Skip(toks, mid + 1) && end <= |toks|
    requires Level(toks, names, former, k, pos) == Rest(toks, names, former, k, Out(Some(l), mid, false, false))
    requires Level(toks, names, former, k - 1, next) == Out(Some(r), end, false, false)
    ensures Level(toks, names, former, k, pos) == Rest(toks, names, former, k, Out(Some(Binary(op, l, r)), end, false, false))
  {
    TakesOne(toks, names, former, k, op, l, mid, next, r, end);
  }

  lemma {:induction false} RightWritten(toks: seq<Token>, names: set<string>, former: nat, pos: nat, s: Spelling)
    requires s.Infix? && Allowed(s, names, LevelOf(s.op)) && Written(toks, former, pos, s)
    requires Ends(At(toks, pos + Length(s)), s, LevelOf(s.op) - 1)
    ensures var next := pos + Length(s.left) + 1 + s.breaks;
      && Allowed(s.right, names, LevelOf(s.op) - 1) && Written(toks, former, next, s.right) && next + Length(s.right) == pos + Length(s)
      && Ends(At(toks, next + Length(s.right)), s.right, LevelOf(s.op) - 1) && Breaks(toks, next - s.breaks, s.breaks)
  {
  }

  lemma {:induction false} ParsesRight(toks: seq<Token>, names: set<string>, former: nat, pos: nat, s: Spelling)
    requires s.Infix? && Allowed(s, names, LevelOf(s.op)) && Written(toks, former, pos, s)
    requires Ends(At(toks, pos + Length(s)), s, LevelOf(s.op) - 1)
    ensures var next := pos + Length(s.left) + 1 + s.breaks;
      && Skip(toks, pos + Length(s.left) + 1) == next <= |toks|
      && Level(toks, names, former, LevelOf(s.op) - 1, next) == Out(Some(Tree(s.right)), pos + Length(s), false, false)
    decreases s.right, TOP, 2
  {
    var next := pos + Length(s.left) + 1 + s.breaks;
    RightWritten(toks, names, former, pos, s);
    assert Skip(toks, next - s.breaks) == next by {
      FirstToken(toks, former, next, s.right);
      SkipBreaks(toks, next - s.breaks, s.breaks);
    }
    Parses(toks, names, former, LevelOf(s.op) - 1, next, s.right);
  }

  /** One turn of the loop. */
  lemma {:induction false} TakesOne(toks: seq<Token>, names: set<string>, former: nat, k: nat, op: Op, l: Expr, mid: nat, next: nat, r: Expr, end: nat)
    requires 0 < k && mid < |toks| && toks[mid] == Sym(op) && LevelOf(op) == k && next == Skip(toks, mid + 1) && end <= |toks|
    requires Level(toks, names, former, k - 1, next) == Out(Some(r), end, false, false)
    ensures Rest(toks, names, former, k, Out(Some(l), mid, false, false)) == Rest(toks, names, former, k, Out(Some(Binary(op, l, r)), end, false, false))
  {
  }

  // ---------------------------------------------------------------- precedence

  /** The token is a name or a number, and e is what it stands for. */
  predicate IsOperand(t: Token, names: set<string>, e: Expr) {
    match t
    case Name(name) => name in names && e == Ident(name)
    case Number(n) => n <= INT_MAX && e == Int(n)
    case _ => false
  }

  function OneToken(t: Token, names: set<string>, e: Expr): (s: Spelling)
    requires IsOperand(t, names, e)
    ensures Allowed(s, names, 0) && Length(s) == 1 && Tree(s) == e
    ensures forall toks: seq<Token>, former: nat, pos: nat :: pos < |toks| && toks[pos] == t ==> Written(toks, former, pos, s)
  {
    if t.Name? then Word(t.name) else Digits(NoSign, t.n)
  }

  /** An operator binds tighter than those of the next function up the ladder: `or`, `and`, `|`, `^`, `&`, the
      comparisons, the shifts, `+` and `-`, and last `*`, `/` and `%`, whichever of the two comes first. */
  lemma {:induction false} BindsTighter(toks: seq<Token>, names: set<string>, former: nat, a: Expr, b: Expr, c: Expr, lo: Op, hi: Op)
    requires || (lo == OR && hi == AND) || (lo == AND && hi == BOR) || (lo == BOR && hi == BXOR) || (lo == BXOR && hi == BAND)
             || (lo == BAND && (hi == GT || hi == LT || hi == EQ || hi == NEQ || hi == LEQ || hi == GEQ))
             || ((lo == GT || lo == LT || lo == EQ || lo == NEQ || lo == LEQ || lo == GEQ) && (hi == SHL || hi == SHR))
             || ((lo == SHL || lo == SHR) && (hi == ADD || hi == SUB))
             || ((lo == ADD || lo == SUB) && (hi == MUL || hi == DIV || hi == MOD))
    requires |toks| == 5 && IsOperand(toks[0], names, a) && IsOperand(toks[2], names, b) && IsOperand(toks[4], names, c)
    ensures toks[1] == Sym(lo) && toks[3] == Sym(hi) ==>
      Level(toks, names, former, TOP, 0) == Out(Some(Binary(lo, a, Binary(hi, b, c))), 5, false, false)
    ensures toks[1] == Sym(hi) && toks[3] == Sym(lo) ==>
      Level(toks, names, former, TOP, 0) == Out(Some(Binary(lo, Binary(hi, a, b), c)), 5, false, false)
  {
    assert LevelOf(hi) < LevelOf(lo) by { Tighter(lo, hi); }
    if toks[1] == Sym(lo) && toks[3] == Sym(hi) { GroupsRight(toks, names, former, a, b, c, lo, hi); }
    if toks[1] == Sym(hi) && toks[3] == Sym(lo) { GroupsLeft(toks, names, former, a, b, c, hi, lo); }
  }

  lemma Tighter(lo: Op, hi: Op)
    requires || (lo == OR && hi == AND) || (lo == AND && hi == BOR) || (lo == BOR && hi == BXOR) || (lo == BXOR && hi == BAND)
             || (lo == BAND && (hi == GT || hi == LT || hi == EQ || hi == NEQ || hi == LEQ || hi == GEQ))
             || ((lo == GT || lo == LT || lo == EQ || lo == NEQ || lo == LEQ || lo == GEQ) && (hi == SHL || hi == SHR))
             || ((lo == SHL || lo == SHR) && (hi == ADD || hi == SUB))
             || ((lo == ADD || lo == SUB) && (hi == MUL || hi == DIV || hi == MOD))
    ensures LevelOf(hi) < LevelOf(lo)
  {
  }

  /** Operators of the same function of the ladder group to the left. */
  lemma {:induction false} SameGroupsLeft(toks: seq<Token>, names: set<string>, former: nat, a: Expr, b: Expr, c: Expr, op: Op, op1: Op)
    requires || op == op1
             || ((op == GT || op == LT || op == EQ || op == NEQ || op == LEQ || op == GEQ)
                 && (op1 == GT || op1 == LT || op1 == EQ || op1 == NEQ || op1 == LEQ || op1 == GEQ))
             || ((op == SHL || op == SHR) && (op1 == SHL || op1 == SHR))
             || ((op == ADD || op == SUB) && (op1 == ADD || op1 == SUB))
             || ((op == MUL || op == DIV || op == MOD) && (op1 == MUL || op1 == DIV || op1 == MOD))
    requires |toks| == 5 && IsOperand(toks[0], names, a) && IsOperand(toks[2], names, b) && IsOperand(toks[4], names, c)
    requires toks[1] == Sym(op) && toks[3] == Sym(op1)
    ensures Level(toks, names, former, TOP, 0) == Out(Some(Binary(op1, Binary(op, a, b), c)), 5, false, false)
  {
    GroupsLeft(toks, names, former, a, b, c, op, op1);
  }

  lemma {:induction false} GroupsRight(toks: seq<Token>, names: set<string>, former: nat, a: Expr, b: Expr, c: Expr, op: Op, op1: Op)
    requires |toks| == 5 && IsOperand(toks[0], names, a) && IsOperand(toks[2], names, b) && IsOperand(toks[4], names, c)
    requires toks[1] == Sym(op) && toks[3] == Sym(op1) && LevelOf(op1) < LevelOf(op)
    ensures Level(toks, names, former, TOP, 0) == Out(Some(Binary(op, a, Binary(op1, b, c))), 5, false, false)
  {
    var sa, sb, sc := OneToken(toks[0], names, a), OneToken(toks[2], names, b), OneToken(toks[4], names, c);
    var right := InfixOf(toks, names, former, 2, op1, sb, sc);
    var s := InfixOf(toks, names, former, 0, op, sa, right);
    Parses(toks, names, former, TOP, 0, s);
  }

  lemma {:induction false} GroupsLeft(toks: seq<Token>, names: set<string>, former: nat, a: Expr, b: Expr, c: Expr, op: Op, op1: Op)
    requires |toks| == 5 && IsOperand(toks[0], names, a) && IsOperand(toks[2], names, b) && IsOperand(toks[4], names, c)
    requires toks[1] == Sym(op) && toks[3] == Sym(op1) && LevelOf(op) <= LevelOf(op1)
    ensures Level(toks, names, former, TOP, 0) == Out(Some(Binary(op1, Binary(op, a, b), c)), 5, false, false)
  {
    var sa, sb, sc := OneToken(toks[0], names, a), OneToken(toks[2], names, b), OneToken(toks[4], names, c);
    var left := InfixOf(toks, names, former, 0, op, sa, sb);
    var s := InfixOf(toks, names, former, 0, op1, left, sc);
    Parses(toks, names, former, TOP, 0, s);
  }

  lemma {:induction false} InfixOf(toks: seq<Token>, names: set<string>, former: nat, pos: nat, op: Op, l: Spelling, r: Spelling) returns (s: Spelling)
    requires Allowed(l, names, LevelOf(op)) && Allowed(r, names, LevelOf(op) - 1)
    requires Written(toks, former, pos, l) && At(toks, pos + Length(l)) == Sym(op) && Written(toks, former, pos + Length(l) + 1, r)
    ensures s.Infix? && s.op == op && Allowed(s, names, LevelOf(op)) && Written(toks, former, pos, s)
    ensures Tree(s) == Binary(op, Tree(l), Tree(r)) && Length(s) == Length(l) + 1 + Length(r)
  {
    s := Infix(op, l, 0, r);
  }

  // ---------------------------------------------------------------- the printer

  /** The expression with parentheses only where its operators need them to stand at level k. */
  function Printed(e: Expr, k: nat): (s: Spelling)
    decreases e, k
  {
    match e
    case Ident(name) => Word(name)
    case Int(n) => if n < 0 then Digits(Minus, -n) else Digits(NoSign, n)
    case Bool(b) => Truth(b)
    case Binary(op, left, right) =>
      var s := Infix(op, Printed(left, LevelOf(op)), 0, Printed(right, LevelOf(op) - 1));
      if LevelOf(op) <= k then s else Paren(s)
  }

  predicate Printable(e: Expr, names: set<string>) {
    match e
    case Ident(name) => name in names
    case Int(n) => -INT_MAX <= n <= INT_MAX
    case Bool(_) => true
    case Binary(_, left, right) => Printable(left, names) && Printable(right, names)
  }

  lemma {:induction false} PrintedAllowed(e: Expr, names: set<string>, k: nat)
    requires Printable(e, names)
    ensures Allowed(Printed(e, k), names, k) && Tree(Printed(e, k)) == e
  {
    if e.Binary? {
      PrintedAllowed(e.left, names, LevelOf(e.op));
      PrintedAllowed(e.right, names, LevelOf(e.op) - 1);
    }
  }

  /** The parser undoes the printer, wherever the printed expression stands before a token that ends it. */
  lemma {:induction false} ParserUndoesPrinter(toks: seq<Token>, names: set<string>, former: nat, pos: nat, e: Expr)
    requires Printable(e, names) && Written(toks, former, pos, Printed(e, TOP)) && Ends(At(toks, pos + Length(Printed(e, TOP))), Printed(e, TOP), TOP)
    ensures Level(toks, names, former, TOP, pos) == Out(Some(e), pos + Length(Printed(e, TOP)), false, false)
  {
    PrintedAllowed(e, names, TOP);
    Parses(toks, names, former, TOP, pos, Printed(e, TOP));
  }

  function Parens(s: Spelling): nat {
    match s
    case Paren(inner) => 1 + Parens(inner)
    case Behind(_, primary) => 1 + Parens(primary)
    case Infix(_, left, _, right) => Parens(left) + Parens(right)
    case _ => 0
  }

  /** No spelling of the expression has fewer parentheses than the printed one. */
  lemma {:induction false} FewestParens(s: Spelling, names: set<string>, k: nat)
    requires Allowed(s, names, k)
    ensures Parens(Printed(Tree(s), k)) <= Parens(s)
    decreases s
  {
    match s
    case Paren(inner) => FewestParens(inner, names, TOP);
    case Behind(_, primary) => FewestParens(primary, names, 0);
    case Infix(op, left, _, right) =>
      FewestParens(left, names, LevelOf(op));
      FewestParens(right, names, LevelOf(op) - 1);
    case _ =>
  }

  /** Two spellings of the same tokens have the same tree: the ladder is not ambiguous. */
  lemma {:induction false} Unambiguous(toks: seq<Token>, names: set<string>, former: nat, pos: nat, s: Spelling, s1: Spelling)
    requires Allowed(s, names, TOP) && Allowed(s1, names, TOP) && Written(toks, former, pos, s) && Written(toks, former, pos, s1)
    requires Ends(At(toks, pos + Length(s)), s, TOP) && Ends(At(toks, pos + Length(s1)), s1, TOP)
    ensures Tree(s) == Tree(s1) && Length(s) == Length(s1)
  {
    Parses(toks, names, former, TOP, pos, s);
    Parses(toks, names, former, TOP, pos, s1);
  }

  // ---------------------------------------------------------------- what is accepted

  /** Whatever is parsed without an error is a spelling. */
  lemma {:induction false} Accepted(toks: seq<Token>, names: set<string>, former: nat, k: nat, pos: nat) returns (s: Spelling)
    requires pos <= |toks| && k <= TOP && Clean(Level(toks, names, former, k, pos)) && Level(toks, names, former, k, pos).node.Some?
    ensures Reads(toks, names, former, k, pos, s, Level(toks, names, former, k, pos))
    decreases |toks| - pos, k, 3
  {
    if k == 0 {
      s := AcceptedFactor(toks, names, former, pos);
    } else {
      var lhs := Level(toks, names, former, k - 1, pos);
      assert Level(toks, names, former, k, pos) == Operators(toks, names, former, k, pos) == Rest(toks, names, former, k, lhs);
      s := Accepted(toks, names, former, k - 1, pos);
      AllowedHigher(s, names, k - 1, k);
      s := AcceptedRest(toks, names, former, k, pos, lhs, s);
    }
  }

  predicate Clean(r: Out) {
    !r.failed && !r.beyond
  }

  /** The result is that of reading the spelling at pos, which ends there for level k. */
  predicate Reads(toks: seq<Token>, names: set<string>, former: nat, k: nat, pos: nat, s: Spelling, r: Out) {
    && Allowed(s, names, k) && Written(toks, former, pos, s)
    && r == Out(Some(Tree(s)), pos + Length(s), false, false)
    && Ends(At(toks, r.pos), s, k)
  }

  lemma {:induction false} AllowedHigher(s: Spelling, names: set<string>, k: nat, k1: nat)
    requires Allowed(s, names, k) && k <= k1
    ensures Allowed(s, names, k1)
  {
  }

  lemma {:induction false} AcceptedRest(toks: seq<Token>, names: set<string>, former: nat, k: nat, pos: nat, lhs: Out, s: Spelling) returns (s1: Spelling)
    requires 0 < k <= TOP && Allowed(s, names, k) && Written(toks, former, pos, s)
    requires lhs == Out(Some(Tree(s)), pos + Length(s), false, false) && Ends(At(toks, lhs.pos), s, k - 1)
    requires Clean(Rest(toks, names, former, k, lhs)) && Rest(toks, names, former, k, lhs).node.Some?
    ensures Reads(toks, names, former, k, pos, s1, Rest(toks, names, former, k, lhs))
    decreases |toks| - lhs.pos, k, 1
  {
    if At(toks, lhs.pos).Sym? && LevelOf(At(toks, lhs.pos).op) == k {
      OperandClean(toks, names, former, k, lhs);
      s1 := AcceptedTurn(toks, names, former, k, pos, lhs, s);
      s1 := AcceptedRest(toks, names, former, k, pos, Out(Some(Tree(s1)), pos + Length(s1), false, false), s1);
    } else {
      s1 := s;
    }
  }

  /** One turn of the loop joins what has been read with another operand. */
  lemma {:induction false} AcceptedTurn(toks: seq<Token>, names: set<string>, former: nat, k: nat, pos: nat, lhs: Out, s: Spelling) returns (s1: Spelling)
    requires 0 < k <= TOP && Allowed(s, names, k) && Written(toks, former, pos, s)
    requires lhs == Out(Some(Tree(s)), pos + Length(s), false, false)
    requires At(toks, lhs.pos).Sym? && LevelOf(At(toks, lhs.pos).op) == k
    requires Clean(Rest(toks, names, former, k, lhs)) && Level(toks, names, former, k - 1, Skip(toks, lhs.pos + 1)).node.Some?
    ensures Allowed(s1, names, k) && Written(toks, former, pos, s1) && lhs.pos < pos + Length(s1)
    ensures Ends(At(toks, pos + Length(s1)), s1, k - 1)
    ensures Rest(toks, names, former, k, lhs) == Rest(toks, names, former, k, Out(Some(Tree(s1)), pos + Length(s1), false, false))
    decreases |toks| - lhs.pos, k, 0
  {
    var right := AcceptedRight(toks, names, former, k, lhs);
    var op, next := toks[lhs.pos].op, Skip(toks, lhs.pos + 1);
    s1 := JoinRight(toks, names, former, k, pos, s, op, right);
    var end := next + Length(right);
    assert Rest(toks, names, former, k, lhs) == Rest(toks, names, former, k, Out(Some(Binary(op, Tree(s), Tree(right))), end, false, false)) by {
      TakesOne(toks, names, former, k, op, Tree(s), lhs.pos, next, Tree(right), end);
    }
  }

  /** Two operands and what stands between them. */
  lemma {:induction false} JoinRight(toks: seq<Token>, names: set<string>, former: nat, k: nat, pos: nat, s: Spelling, op: Op, right: Spelling) returns (s1: Spelling)
    requires 0 < k <= TOP && Allowed(s, names, k) && Written(toks, former, pos, s)
    requires var mid := pos + Length(s);
      && mid < |toks| && toks[mid] == Sym(op) && LevelOf(op) == k
      && Allowed(right, names, k - 1) && Written(toks, former, Skip(toks, mid + 1), right)
      && Ends(At(toks, Skip(toks, mid + 1) + Length(right)), right, k - 1)
    ensures Allowed(s1, names, k) && Written(toks, former, pos, s1) && Tree(s1) == Binary(op, Tree(s), Tree(right))
    ensures pos + Length(s1) == Skip(toks, pos + Length(s) + 1) + Length(right)
    ensures Ends(At(toks, pos + Length(s1)), s1, k - 1)
  {
    var mid := pos + Length(s);
    var breaks := Skip(toks, mid + 1) - mid - 1;
    s1 := Infix(op, s, breaks, right);
    assert Allowed(s1, names, k) by { AllowedInfix(s1, names, k); }
    assert Written(toks, former, pos, s1) by {
      SkipIsBreaks(toks, mid + 1);
      WrittenInfix(toks, former, pos, s1);
    }
  }

  lemma {:induction false} AcceptedRight(toks: seq<Token>, names: set<string>, former: nat, k: nat, lhs: Out) returns (right: Spelling)
    requires 0 < k <= TOP && lhs.pos < |toks| && lhs.node.Some? && toks[lhs.pos].Sym? && LevelOf(toks[lhs.pos].op) == k
    requires Clean(Rest(toks, names, former, k, lhs)) && Level(toks, names, former, k - 1, Skip(toks, lhs.pos + 1)).node.Some?
    ensures var next := Skip(toks, lhs.pos + 1);
      && Allowed(right, names, k - 1) && Written(toks, former, next, right)
      && Level(toks, names, former, k - 1, next) == Out(Some(Tree(right)), next + Length(right), false, false)
      && Ends(At(toks, next + Length(right)), right, k - 1)
    decreases |toks| - lhs.pos, 0, 0
  {
    OperandClean(toks, names, former, k, lhs);
    right := Accepted(toks, names, former, k - 1, Skip(toks, lhs.pos + 1));
  }

  lemma {:induction false} WrittenInfix(toks: seq<Token>, former: nat, pos: nat, s: Spelling)
    requires s.Infix? && Written(toks, former, pos, s.left)
    requires var mid := pos + Length(s.left);
      && mid + 1 + s.breaks + Length(s.right) <= |toks| && toks[mid] == Sym(s.op)
      && Breaks(toks, mid + 1, s.breaks) && Written(toks, former, mid + 1 + s.breaks, s.right)
    ensures Written(toks, former, pos, s)
  {
  }

  lemma {:induction false} AllowedInfix(s: Spelling, names: set<string>, k: nat)
    requires s.Infix? && LevelOf(s.op) == k && Allowed(s.left, names, k) && Allowed(s.right, names, k - 1)
    ensures Allowed(s, names, k)
  {
  }

  /** When the loop ends without an error, so did the operand it took. */
  lemma {:induction false} OperandClean(toks: seq<Token>, names: set<string>, former: nat, k: nat, lhs: Out)
    requires k > 0 && lhs.pos < |toks| && lhs.node.Some? && toks[lhs.pos].Sym? && LevelOf(toks[lhs.pos].op) == k
    requires Clean(Rest(toks, names, former, k, lhs))
    ensures var rhs, r := Level(toks, names, former, k - 1, Skip(toks, lhs.pos + 1)), Rest(toks, names, former, k, lhs);
      && Clean(rhs) && (r.node.Some? ==> rhs.node.Some?)
      && (rhs.node.None? ==> r == Out(None, rhs.pos, false, false) && Line(toks, rhs.pos) == former)
  {
    assert Rest(toks, names, former, k, lhs) == Turn(toks, names, former, k, lhs);
  }

  lemma {:induction false} SkipIsBreaks(toks: seq<Token>, pos: nat)
    requires pos <= |toks|
    ensures Breaks(toks, pos, Skip(toks, pos) - pos)
    decreases |toks| - pos
  {
    if pos < |toks| && toks[pos].Newline? { SkipIsBreaks(toks, pos + 1); }
  }

  lemma {:induction false} AcceptedFactor(toks: seq<Token>, names: set<string>, former: nat, pos: nat) returns (s: Spelling)
    requires pos <= |toks| && Clean(Level(toks, names, former, 0, pos)) && Level(toks, names, former, 0, pos).node.Some?
    ensures Reads(toks, names, former, 0, pos, s, Level(toks, names, former, 0, pos))
    decreases |toks| - pos, 0, 1
  {
    assert Level(toks, names, former, 0, pos) == Factor(toks, names, former, pos);
    if At(toks, pos).LPar? {
      if Level(toks, names, former, TOP, pos + 1).node.Some? {
        s := AcceptedParen(toks, names, former, pos);
      } else {
        s := AcceptedBehind(toks, names, former, pos);
      }
    } else {
      s := AcceptedPrimary(toks, names, former, pos);
    }
  }

  lemma {:induction false} AcceptedParen(toks: seq<Token>, names: set<string>, former: nat, pos: nat) returns (s: Spelling)
    requires pos <= |toks| && At(toks, pos).LPar? && Clean(Factor(toks, names, former, pos)) && Level(toks, names, former, TOP, pos + 1).node.Some?
    ensures Reads(toks, names, former, 0, pos, s, Factor(toks, names, former, pos))
    decreases |toks| - pos, 0, 0
  {
    var inner := Accepted(toks, names, former, TOP, pos + 1);
    s := Paren(inner);
    ReadsParen(toks, names, former, pos, inner, Level(toks, names, former, TOP, pos + 1), Factor(toks, names, former, pos));
  }

  lemma {:induction false} ReadsParen(toks: seq<Token>, names: set<string>, former: nat, pos: nat, inner: Spelling, r: Out, r1: Out)
    requires At(toks, pos).LPar? && Reads(toks, names, former, TOP, pos + 1, inner, r)
    requires At(toks, r.pos).RPar? && r1 == r.(pos := r.pos + 1)
    ensures Reads(toks, names, former, 0, pos, Paren(inner), r1)
  {
  }

  lemma {:induction false} AcceptedBehind(toks: seq<Token>, names: set<string>, former: nat, pos: nat) returns (s: Spelling)
    requires pos <= |toks| && At(toks, pos).LPar? && Clean(Factor(toks, names, former, pos)) && Factor(toks, names, former, pos).node.Some?
    requires Level(toks, names, former, TOP, pos + 1).node.None?
    ensures Reads(toks, names, former, 0, pos, s, Factor(toks, names, former, pos))
    decreases |toks| - pos, 0, 0
  {
    var end := Level(toks, names, former, TOP, pos + 1).pos;
    var r := Primary(toks, names, end + 1);
    assert Factor(toks, names, former, pos) == r && At(toks, end).RPar? by { FactorBehind(toks, names, former, pos); }
    var h := NothingFound(toks, names, former, TOP, pos + 1);
    var primary := AcceptedPrimary(toks, names, former, end + 1);
    s := Behind(h, primary);
    assert Reads(toks, names, former, 0, pos, s, r) by {
      assert HollowWritten(toks, former, pos, h) && pos + HollowLength(h) == end + 1;
      ReadsBehind(toks, names, former, pos, h, primary, r);
    }
  }

  lemma {:induction false} ReadsBehind(toks: seq<Token>, names: set<string>, former: nat, pos: nat, h: Hollow, primary: Spelling, r: Out)
    requires HollowAllowed(h, names, TOP) && HollowWritten(toks, former, pos, h) && Simple(primary) && Reads(toks, names, former, 0, pos + HollowLength(h), primary, r)
    ensures Reads(toks, names, former, 0, pos, Behind(h, primary), r)
  {
  }

  lemma {:induction false} AcceptedPrimary(toks: seq<Token>, names: set<string>, former: nat, pos: nat) returns (s: Spelling)
    requires pos <= |toks| && Clean(Primary(toks, names, pos)) && Primary(toks, names, pos).node.Some?
    ensures Simple(s) && Reads(toks, names, former, 0, pos, s, Primary(toks, names, pos))
  {
    match At(toks, pos)
    case Name(name) => s := Word(name);
    case Sym(op) => s := Digits(if op == SUB then Minus else Plus, toks[pos + 1].n);
    case Number(n) => s := Digits(NoSign, n);
    case True => s := Truth(true);
    case _ => s := Truth(false);
  }

  /** What is passed over when no expression is found, and no error counted, is the content of a hollow
      parenthesis. */
  predicate Passed(toks: seq<Token>, names: set<string>, former: nat, k: nat, pos: nat, h: Hollow, r: Out) {
    HollowAllowed(h, names, k) && ContentWritten(toks, former, pos, h) && r == Out(None, pos + ContentLength(h), false, false)
  }

  lemma {:induction false} NothingFound(toks: seq<Token>, names: set<string>, former: nat, k: nat, pos: nat) returns (h: Hollow)
    requires pos <= |toks| && k <= TOP && Clean(Level(toks, names, former, k, pos)) && Level(toks, names, former, k, pos).node.None?
    ensures Passed(toks, names, former, k, pos, h, Level(toks, names, former, k, pos))
    decreases |toks| - pos, k, 3
  {
    if k > 0 {
      var lhs := Level(toks, names, former, k - 1, pos);
      assert Level(toks, names, former, k, pos) == Operators(toks, names, former, k, pos);
      if lhs.node.None? {
        h := NothingFound(toks, names, former, k - 1, pos);
        HollowHigher(h, names, k - 1, k);
      } else {
        var s := Accepted(toks, names, former, k - 1, pos);
        AllowedHigher(s, names, k - 1, k);
        h := NothingRest(toks, names, former, k, pos, lhs, s);
      }
    } else {
      assert Level(toks, names, former, 0, pos) == Factor(toks, names, former, pos);
      if At(toks, pos).LPar? {
        h := HollowFound(toks, names, former, pos);
      } else {
        var sign := SignFound(toks, names, former, pos);
        h := Hollow(None, sign);
      }
    }
  }

  lemma {:induction false} HollowHigher(h: Hollow, names: set<string>, k: nat, k1: nat)
    requires HollowAllowed(h, names, k) && k <= k1
    ensures HollowAllowed(h, names, k1)
  {
  }

  /** The loop that ends without an expression has taken an operator with nothing behind it. */
  lemma {:induction false} NothingRest(toks: seq<Token>, names: set<string>, former: nat, k: nat, pos: nat, lhs: Out, s: Spelling)
      returns (h: Hollow)
    requires 0 < k <= TOP && Allowed(s, names, k) && Written(toks, former, pos, s)
    requires lhs == Out(Some(Tree(s)), pos + Length(s), false, false) && Ends(At(toks, lhs.pos), s, k - 1)
    requires Clean(Rest(toks, names, former, k, lhs)) && Rest(toks, names, former, k, lhs).node.None?
    ensures Passed(toks, names, former, k, pos, h, Rest(toks, names, former, k, lhs))
    decreases |toks| - lhs.pos, k, 1
  {
    OperandClean(toks, names, former, k, lhs);
    var next := Skip(toks, lhs.pos + 1);
    if Level(toks, names, former, k - 1, next).node.None? {
      var rest := NothingFound(toks, names, former, k - 1, next);
      h := BreaksOff(toks, names, former, k, pos, s, rest, Rest(toks, names, former, k, lhs));
    } else {
      var s1 := AcceptedTurn(toks, names, former, k, pos, lhs, s);
      h := NothingRest(toks, names, former, k, pos, Out(Some(Tree(s1)), pos + Length(s1), false, false), s1);
    }
  }

  lemma {:induction false} BreaksOff(toks: seq<Token>, names: set<string>, former: nat, k: nat, pos: nat, s: Spelling, rest: Hollow, r: Out)
      returns (h: Hollow)
    requires 0 < k <= TOP && Allowed(s, names, k) && Written(toks, former, pos, s)
    requires At(toks, pos + Length(s)).Sym? && LevelOf(At(toks, pos + Length(s)).op) == k && r.pos <= |toks|
    requires Passed(toks, names, former, k - 1, Skip(toks, pos + Length(s) + 1), rest, r) && Line(toks, r.pos) == former
    ensures Passed(toks, names, former, k, pos, h, r)
  {
    var mid := pos + Length(s);
    var next := Skip(toks, mid + 1);
    h := Broken(s, toks[mid].op, next - mid - 1, rest);
    assert pos + ContentLength(h) == next + ContentLength(rest) == r.pos;
    assert Breaks(toks, mid + 1, next - mid - 1) by { SkipIsBreaks(toks, mid + 1); }
    BrokenIs(toks, names, former, pos, h);
  }

  lemma {:induction false} BrokenIs(toks: seq<Token>, names: set<string>, former: nat, pos: nat, h: Hollow)
    requires h.Broken? && Allowed(h.left, names, LevelOf(h.op)) && HollowAllowed(h.rest, names, LevelOf(h.op) - 1)
    requires var mid := pos + Length(h.left);
      && Written(toks, former, pos, h.left) && At(toks, mid) == Sym(h.op) && Breaks(toks, mid + 1, h.breaks)
      && ContentWritten(toks, former, mid + 1 + h.breaks, h.rest)
      && mid + 1 + h.breaks + ContentLength(h.rest) <= |toks| && Line(toks, mid + 1 + h.breaks + ContentLength(h.rest)) == former
    ensures HollowAllowed(h, names, LevelOf(h.op)) && ContentWritten(toks, former, pos, h)
  {
  }

  lemma {:induction false} HollowFound(toks: seq<Token>, names: set<string>, former: nat, pos: nat) returns (h: Hollow)
    requires pos <= |toks| && At(toks, pos).LPar? && Clean(Factor(toks, names, former, pos)) && Factor(toks, names, former, pos).node.None?
    ensures Passed(toks, names, former, 0, pos, h, Factor(toks, names, former, pos))
    decreases |toks| - pos, 0, 0
  {
    var end := Level(toks, names, former, TOP, pos + 1).pos;
    assert Factor(toks, names, former, pos) == Primary(toks, names, end + 1) && At(toks, end).RPar? by {
      FactorBehind(toks, names, former, pos);
    }
    var deep := NothingFound(toks, names, former, TOP, pos + 1);
    var sign := SignFound(toks, names, former, end + 1);
    h := HollowIs(toks, names, former, pos, deep, sign, end, Primary(toks, names, end + 1));
  }

  lemma {:induction false} HollowIs(
      toks: seq<Token>, names: set<string>, former: nat, pos: nat, deep: Hollow, sign: Sign, end: nat, r: Out) returns (h: Hollow)
    requires pos < |toks| && toks[pos] == LPar && At(toks, end) == RPar
    requires Passed(toks, names, former, TOP, pos + 1, deep, Out(None, end, false, false))
    requires SignWritten(toks, end + 1, sign) && r == Out(None, end + 1 + SignLength(sign), false, false)
    ensures Passed(toks, names, former, 0, pos, h, r)
  {
    h := Hollow(Some(deep), sign);
    assert HollowWritten(toks, former, pos, deep) && end + 1 == pos + HollowLength(deep);
  }

  /** A factor without an error behind a parenthesis that gave no node. */
  lemma {:induction false} FactorBehind(toks: seq<Token>, names: set<string>, former: nat, pos: nat)
    requires pos < |toks| && toks[pos].LPar? && Clean(Factor(toks, names, former, pos))
    requires var inner := Level(toks, names, former, TOP, pos + 1); inner.node.None? || !At(toks, inner.pos).RPar?
    ensures var inner := Level(toks, names, former, TOP, pos + 1);
      At(toks, inner.pos).RPar? && Clean(inner) && Factor(toks, names, former, pos) == Primary(toks, names, inner.pos + 1)
  {
  }

  lemma {:induction false} SignFound(toks: seq<Token>, names: set<string>, former: nat, pos: nat) returns (sign: Sign)
    requires pos <= |toks| && Clean(Primary(toks, names, pos)) && Primary(toks, names, pos).node.None?
    ensures SignWritten(toks, pos, sign) && Primary(toks, names, pos).pos == pos + SignLength(sign)
  {
    sign := if At(toks, pos) == Sym(SUB) then Minus else if At(toks, pos) == Sym(ADD) then Plus else NoSign;
  }

  /** The accepted language, exactly: level k returns a node without an error if and only if a spelling of it
      stands there, followed by a token that ends it. */
  lemma {:induction false} AcceptedLanguage(toks: seq<Token>, names: set<string>, former: nat, k: nat, pos: nat, e: Expr, end: nat)
    requires pos <= |toks| && k <= TOP
    ensures Level(toks, names, former, k, pos) == Out(Some(e), end, false, false) <==>
      exists s :: Tree(s) == e && Reads(toks, names, former, k, pos, s, Out(Some(e), end, false, false))
  {
    var r := Out(Some(e), end, false, false);
    if Level(toks, names, former, k, pos) == r {
      var s := Accepted(toks, names, former, k, pos);
      assert Tree(s) == e && Reads(toks, names, former, k, pos, s, r);
    }
    forall s | Tree(s) == e && Reads(toks, names, former, k, pos, s, r) ensures Level(toks, names, former, k, pos) == r {
      Parses(toks, names, former, k, pos, s);
    }
  }

  /** No parenthesis in it breaks off. */
  predicate Unbroken(s: Spelling) {
    match s
    case Paren(inner) => Unbroken(inner)
    case Behind(hollow, _) => Closed(hollow)
    case Infix(_, left, _, right) => Unbroken(left) && Unbroken(right)
    case _ => true
  }

  predicate Closed(h: Hollow) {
    h.Hollow? && (h.inner.Some? ==> Closed(h.inner.value))
  }

  /** When no line of the text is that of the last error, the language is that without broken parentheses. */
  lemma {:induction false} AcceptedElsewhere(toks: seq<Token>, names: set<string>, former: nat, k: nat, pos: nat, e: Expr, end: nat)
    requires pos <= |toks| && k <= TOP && forall i :: 0 <= i <= |toks| ==> Line(toks, i) != former
    ensures Level(toks, names, former, k, pos) == Out(Some(e), end, false, false) <==>
      exists s :: Unbroken(s) && Tree(s) == e && Reads(toks, names, former, k, pos, s, Out(Some(e), end, false, false))
  {
    AcceptedLanguage(toks, names, former, k, pos, e, end);
    forall s | Written(toks, former, pos, s) ensures Unbroken(s) { NoneBroken(toks, former, pos, s); }
  }

  lemma {:induction false} NoneBroken(toks: seq<Token>, former: nat, pos: nat, s: Spelling)
    requires Written(toks, former, pos, s) && forall i :: 0 <= i <= |toks| ==> Line(toks, i) != former
    ensures Unbroken(s)
    decreases s
  {
    assert Stands(toks, former, pos, s);
    match s
    case Paren(inner) => NoneBroken(toks, former, pos + 1, inner);
    case Behind(hollow, _) =>
      assert HollowWritten(toks, former, pos, hollow);
      NoneOpen(toks, former, pos + 1, hollow);
    case Infix(_, left, breaks, right) =>
      NoneBroken(toks, former, pos, left);
      NoneBroken(toks, former, pos + Length(left) + 1 + breaks, right);
    case _ =>
  }

  lemma {:induction false} NoneOpen(toks: seq<Token>, former: nat, pos: nat, h: Hollow)
    requires ContentWritten(toks, former, pos, h) && forall i :: 0 <= i <= |toks| ==> Line(toks, i) != former
    ensures Closed(h)
    decreases h
  {
    if h.Hollow? && h.inner.Some? {
      assert HollowWritten(toks, former, pos, h.inner.value);
      NoneOpen(toks, former, pos + 1, h.inner.value);
    }
  }

  /** So parentheses that hold no expression pass without an error: `() 5`, for one. */
  lemma {:induction false} EmptyParens(names: set<string>, former: nat)
    ensures Level([LPar, RPar, Number(5)], names, former, TOP, 0) == Out(Some(Int(5)), 3, false, false)
  {
    var toks, h, five := [LPar, RPar, Number(5)], Hollow(None, NoSign), Digits(NoSign, 5);
    assert HollowWritten(toks, former, 0, h) && Written(toks, former, 2, five);
    Parses(toks, names, former, TOP, 0, Behind(h, five));
  }

  /** And so do parentheses that break off on the line of the last error: `(1 + ) 5` is 5 then.  An error of an
      earlier text will do, because every text begins with line 1 again. */
  lemma {:induction false} BrokenParens(toks: seq<Token>, names: set<string>, former: nat)
    requires toks == [LPar, Number(1), Sym(ADD), RPar, Number(5)]
    ensures Level(toks, names, former, TOP, 0) == Out(Some(Int(5)), 5, former != 1, false)
  {
    var one, inner := Out(Some(Int(1)), 2, false, false), Out(None, 3, former != 1, false);
    assert Factor(toks, names, former, 3) == Out(None, 3, false, false) && Factor(toks, names, former, 1) == one;
    assert Level(toks, names, former, 1, 1) == one by { Climbs(toks, names, former, 0, 1, 1, one); }
    assert Level(toks, names, former, 1, 3) == Out(None, 3, false, false) by {
      Climbs(toks, names, former, 0, 1, 3, Out(None, 3, false, false));
    }
    assert Line(toks, 3) == 1 by { assert Line(toks, 1) == 1 && Line(toks, 2) == 1; }
    assert Turn(toks, names, former, 2, one) == inner by { assert Skip(toks, 3) == 3; }
    assert Level(toks, names, former, 2, 1) == Operators(toks, names, former, 2, 1) == Rest(toks, names, former, 2, one) == inner;
    assert Level(toks, names, former, TOP, 1) == inner by { Climbs(toks, names, former, 2, TOP, 1, inner); }
    assert Factor(toks, names, former, 0) == Out(Some(Int(5)), 5, former != 1, false);
    Climbs(toks, names, former, 0, TOP, 0, Out(Some(Int(5)), 5, former != 1, false));
  }

  /** An unknown name, a sign before a truth value and too large a number are errors at every level; only the last is
      taken for an expression nevertheless. */
  lemma {:induction false} Refuses(toks: seq<Token>, names: set<string>, former: nat, k: nat, pos: nat)
    requires pos < |toks| && k <= TOP
    ensures toks[pos].Name? && toks[pos].name !in names && !At(toks, pos + 1).LPar? && !At(toks, pos + 1).Postfix? ==>
      Level(toks, names, former, k, pos) == Out(None, pos + 1, true, false)
    ensures (toks[pos] == Sym(ADD) || toks[pos] == Sym(SUB)) && (At(toks, pos + 1) == True || At(toks, pos + 1) == False) ==>
      Level(toks, names, former, k, pos) == Out(None, pos + 2, true, false)
    ensures toks[pos].Number? && toks[pos].n > INT_MAX && !At(toks, pos + 1).Sym? ==>
      var r := Level(toks, names, former, k, pos); r.node.Some? && r.pos == pos + 1 && r.failed
  {
    var r := Level(toks, names, former, 0, pos);
    assert r == Factor(toks, names, former, pos);
    if r.node.None? || !At(toks, r.pos).Sym? { Climbs(toks, names, former, 0, k, pos, r); }
  }

  /** Levels that find none of their operators hand on what they get. */
  lemma {:induction false} Climbs(toks: seq<Token>, names: set<string>, former: nat, j: nat, k: nat, pos: nat, r: Out)
    requires j <= k && pos <= |toks| && Level(toks, names, former, j, pos) == r
    requires r.node.Some? && At(toks, r.pos).Sym? ==> LevelOf(At(toks, r.pos).op) > k
    ensures Level(toks, names, former, k, pos) == r
    decreases k
  {
    if j < k {
      Climbs(toks, names, former, j, k - 1, pos, r);
      assert Level(toks, names, former, k, pos) == Operators(toks, names, former, k, pos);
      if r.node.Some? { StopsAt(toks, names, former, k, r); }
    }
  }

  // ---------------------------------------------------------------- the parser

  class Parser {
    const toks: seq<Token>
    const names: set<string>
    const former: nat
    var pos: nat
    var lastLine: nat
    var lastErrorLine: nat
    var failed: bool
    var beyond: bool

    ghost predicate Valid()
      reads this
    {
      pos <= |toks| && lastLine == Line(toks, pos) && (!failed ==> lastErrorLine == former)
    }

    /** The state of the parser with a result. */
    ghost function Now(node: Option<Expr>): Out
      reads this
    {
      Out(node, pos, failed, beyond)
    }

    /** A new text; `former` is the line of the last error of the texts before it, as IncrementalParse leaves it
        (eople_parse.cpp:77-87), or what an unset field holds. */
    constructor (toks: seq<Token>, names: set<string>, former: nat)
      ensures this.toks == toks && this.names == names && this.former == former
      ensures Valid() && Now(None) == Out(None, 0, false, false)
    {
      this.toks, this.names, this.former := toks, names, former;
      pos, lastLine, lastErrorLine := 0, 1, former;
      failed, beyond := false, false;
    }

    method BumpError()
      requires Valid()
      modifies this`failed, this`lastErrorLine
      ensures Valid() && failed
    {
      failed, lastErrorLine := true, lastLine;
    }

    method ConsumeToken()
      requires Valid() && pos < |toks|
      modifies this`pos, this`lastLine
      ensures Valid() && pos == old(pos) + 1
    {
      if toks[pos].Newline? { lastLine := lastLine + 1; }
      pos := pos + 1;
    }

    method ConsumeExpected(token: Token) returns (found: bool)
      requires Valid() && token != Other
      modifies this`pos, this`lastLine
      ensures found == (At(toks, old(pos)) == token) && pos == (if found then old(pos) + 1 else old(pos)) && Valid()
    {
      found := At(toks, pos) == token;
      if found { ConsumeToken(); }
    }

    method ConsumeNewlines()
      requires Valid()
      modifies this`pos, this`lastLine
      ensures pos == Skip(toks, old(pos)) && Valid()
    {
      while pos < |toks| && toks[pos] == Newline
        invariant Valid() && Skip(toks, pos) == Skip(toks, old(pos))
        decreases |toks| - pos
      {
        ConsumeToken();
      }
    }

    /** ParseInt, ParseBool and the tests for other literals. */
    method ParseUnsigned(sign: bool, minus: bool) returns (node: Option<Expr>)
      requires Valid()
      modifies this
      ensures Valid() && Now(node) == Noting(Unsigned(toks, old(pos), sign, minus), old(Now(None)))
    {
      match At(toks, pos)
      case Number(n) =>
        ConsumeToken();
        if n > INT_MAX { BumpError(); }
        node := Some(Int(Literal(n, minus)));
      case True =>
        ConsumeToken();
        if sign {
          BumpError();
          node := None;
        } else {
          node := Some(Bool(true));
        }
      case False =>
        ConsumeToken();
        if sign {
          BumpError();
          node := None;
        } else {
          node := Some(Bool(false));
        }
      case Prefix => beyond, node := true, None;
      case _ => node := None;
    }

    method ParsePrimary() returns (node: Option<Expr>)
      requires Valid()
      modifies this
      ensures Valid() && Now(node) == Noting(Primary(toks, names, old(pos)), old(Now(None)))
    {
      if At(toks, pos).Name? {
        var name := toks[pos].name;
        ConsumeToken();
        if At(toks, pos).LPar? || At(toks, pos).Postfix? {
          beyond, node := true, None;
        } else if name in names {
          node := Some(Ident(name));
        } else {
          BumpError();
          node := None;
        }
        return;
      }
      var minus := ConsumeExpected(Sym(SUB));
      var plus := false;
      if !minus { plus := ConsumeExpected(Sym(ADD)); }
      node := ParseUnsigned(minus || plus, minus);
    }

    method ParseParExpression() returns (node: Option<Expr>)
      requires Valid()
      modifies this
      ensures Valid()
      ensures if At(toks, old(pos)).LPar? then
                var inner := Level(toks, names, former, TOP, old(pos) + 1);
                var closed := At(toks, inner.pos).RPar?;
                && node == (if closed then inner.node else None)
                && pos == (if closed then inner.pos + 1 else inner.pos)
                && failed == (old(failed) || inner.failed || !closed) && beyond == (old(beyond) || inner.beyond)
              else node == None && Now(None) == old(Now(None))
      decreases |toks| - pos, 0, 0
    {
      var found := ConsumeExpected(LPar);
      if !found {
        return None;
      }
      node := ParseExpression();
      var closed := ConsumeExpected(RPar);
      if !closed {
        BumpError();
        node := None;
      }
    }

    method ParseFactor() returns (node: Option<Expr>)
      requires Valid()
      modifies this
      ensures Valid() && Now(node) == Noting(Factor(toks, names, former, old(pos)), old(Now(None)))
      decreases |toks| - pos, 0, 1
    {
      node := ParseParExpression();
      if node.None? {
        node := ParsePrimary();
      }
    }

    method ParseTerm() returns (node: Option<Expr>)
      requires Valid()
      modifies this
      ensures Valid() && Now(node) == Noting(Level(toks, names, former, 1, old(pos)), old(Now(None)))
      decreases |toks| - pos, 1, 3
    {
      node := ParseOp(1, (t: Token) => t == Sym(MUL) || t == Sym(DIV) || t == Sym(MOD));
    }

    method ParseArithExpression() returns (node: Option<Expr>)
      requires Valid()
      modifies this
      ensures Valid() && Now(node) == Noting(Level(toks, names, former, 2, old(pos)), old(Now(None)))
      decreases |toks| - pos, 2, 3
    {
      node := ParseOp(2, (t: Token) => t == Sym(ADD) || t == Sym(SUB));
    }

    method ParseBitshiftExpression() returns (node: Option<Expr>)
      requires Valid()
      modifies this
      ensures Valid() && Now(node) == Noting(Level(toks, names, former, 3, old(pos)), old(Now(None)))
      decreases |toks| - pos, 3, 3
    {
      node := ParseOp(3, (t: Token) => t == Sym(SHL) || t == Sym(SHR));
    }

    method ParseCompExpression() returns (node: Option<Expr>)
      requires Valid()
      modifies this
      ensures Valid() && Now(node) == Noting(Level(toks, names, former, 4, old(pos)), old(Now(None)))
      decreases |toks| - pos, 4, 3
    {
      node := ParseOp(4, (t: Token) =>
        t == Sym(GT) || t == Sym(LT) || t == Sym(EQ) || t == Sym(NEQ) || t == Sym(LEQ) || t == Sym(GEQ));
    }

    method ParseBitwiseAndExpression() returns (node: Option<Expr>)
      requires Valid()
      modifies this
      ensures Valid() && Now(node) == Noting(Level(toks, names, former, 5, old(pos)), old(Now(None)))
      decreases |toks| - pos, 5, 3
    {
      node := ParseOp(5, (t: Token) => t == Sym(BAND));
    }

    method ParseBitwiseXorExpression() returns (node: Option<Expr>)
      requires Valid()
      modifies this
      ensures Valid() && Now(node) == Noting(Level(toks, names, former, 6, old(pos)), old(Now(None)))
      decreases |toks| - pos, 6, 3
    {
      node := ParseOp(6, (t: Token) => t == Sym(BXOR));
    }

    method ParseBitwiseOrExpression() returns (node: Option<Expr>)
      requires Valid()
      modifies this
      ensures Valid() && Now(node) == Noting(Level(toks, names, former, 7, old(pos)), old(Now(None)))
      decreases |toks| - pos, 7, 3
    {
      node := ParseOp(7, (t: Token) => t == Sym(BOR));
    }

    method ParseAndExpression() returns (node: Option<Expr>)
      requires Valid()
      modifies this
      ensures Valid() && Now(node) == Noting(Level(toks, names, former, 8, old(pos)), old(Now(None)))
      decreases |toks| - pos, 8, 3
    {
      node := ParseOp(8, (t: Token) => t == Sym(AND));
    }

    method ParseExpression() returns (node: Option<Expr>)
      requires Valid()
      modifies this
      ensures Valid() && Now(node) == Noting(Level(toks, names, former, TOP, old(pos)), old(Now(None)))
      decreases |toks| - pos, TOP, 3
    {
      node := ParseOp(TOP, (t: Token) => t == Sym(OR));
    }

    /** The parser of the arguments that a function of the ladder hands to ParseOp: the function below it. */
    method ParseArgument(k: nat) returns (node: Option<Expr>)
      requires Valid() && k < TOP
      modifies this
      ensures Valid() && Now(node) == Noting(Level(toks, names, former, k, old(pos)), old(Now(None)))
      decreases |toks| - pos, k, 4
    {
      match k
      case 0 => node := ParseFactor();
      case 1 => node := ParseTerm();
      case 2 => node := ParseArithExpression();
      case 3 => node := ParseBitshiftExpression();
      case 4 => node := ParseCompExpression();
      case 5 => node := ParseBitwiseAndExpression();
      case 6 => node := ParseBitwiseXorExpression();
      case 7 => node := ParseBitwiseOrExpression();
      case _ => node := ParseAndExpression();
    }

    method ParseOp(k: nat, isOp: Token -> bool) returns (node: Option<Expr>)
      requires Valid() && 0 < k <= TOP && forall t: Token :: isOp(t) <==> t.Sym? && LevelOf(t.op) == k
      modifies this
      ensures Valid() && Now(node) == Noting(Level(toks, names, former, k, old(pos)), old(Now(None)))
      decreases |toks| - pos, k, 2
    {
      ghost var before, lhs := Now(None), Level(toks, names, former, k - 1, pos);
      assert Level(toks, names, former, k, pos) == Operators(toks, names, former, k, pos);
      node := ParseArgument(k - 1);
      if node.None? {
        return;
      }
      while isOp(At(toks, pos))
        invariant Valid() && node.Some? && old(pos) <= pos && lhs.node == node && Now(node) == Noting(lhs, before)
        invariant Rest(toks, names, former, k, lhs) == Level(toks, names, former, k, old(pos))
        decreases |toks| - pos
      {
        ghost var joined;
        node, joined := ParseOperand(k, node.value, lhs, before);
        if node.None? {
          return;
        }
        lhs := joined;
      }
    }

    /** One turn of the loop: the operator and what it is applied to. */
    method ParseOperand(k: nat, left: Expr, ghost lhs: Out, ghost before: Out) returns (node: Option<Expr>, ghost joined: Out)
      requires Valid() && 0 < k <= TOP && At(toks, pos).Sym? && LevelOf(toks[pos].op) == k
      requires lhs.node == Some(left) && Now(lhs.node) == Noting(lhs, before)
      modifies this
      ensures Valid() && old(pos) < pos
      ensures node.None? ==> Now(None) == Noting(Rest(toks, names, former, k, lhs), before)
      ensures node.Some? ==>
                && joined.node == node && joined.pos == pos && Now(node) == Noting(joined, before)
                && Rest(toks, names, former, k, lhs) == Rest(toks, names, former, k, joined)
      decreases |toks| - pos, k, 1
    {
      var op := toks[pos].op;
      ConsumeToken();
      ConsumeNewlines();
      joined := Noting(Level(toks, names, former, k - 1, pos), lhs);
      var rhs := ParseArgument(k - 1);
      if rhs.None? {
        if lastLine != lastErrorLine { BumpError(); }
        return None, joined;
      }
      node := Some(Binary(op, left, rhs.value));
      joined := joined.(node := node);
    }
  }
}
