// Group numbers in compiled programs: start_memory and stop_memory name the groups in the order of
// their opening parentheses, and carry the number of groups inside.
module RegexGroups {
  import opened Bytes
  import opened RegexTree
  import opened RegexParse
  import opened Wrappers
  import RegexBracket
  import Assembly = RegexAssembly

  function Groups(t: Re): nat {
    match t
    case Cat(a, b) => Groups(a) + Groups(b)
    case Alt(a, b) => Groups(a) + Groups(b)
    case Star(a) => Groups(a)
    case Plus(a) => Groups(a)
    case Opt(a) => Groups(a)
    case Group(_, _, a) => 1 + Groups(a)
    case _ => 0
  }

  // The groups of t are numbered n + 1, n + 2, ... from left to right, outer before inner, each with
  // the count of those inside it.
  predicate Numbered(t: Re, n: nat) {
    match t
    case Cat(a, b) => Numbered(a, n) && Numbered(b, n + Groups(a))
    case Alt(a, b) => Numbered(a, n) && Numbered(b, n + Groups(a))
    case Star(a) => Numbered(a, n)
    case Plus(a) => Numbered(a, n)
    case Opt(a) => Numbered(a, n)
    case Group(reg, inner, a) => reg == n + 1 && inner == Groups(a) && Numbered(a, n + 1)
    case _ => true
  }

  function GroupsIn(alts: seq<Re>): nat {
    if alts == [] then 0 else GroupsIn(alts[..|alts| - 1]) + Groups(alts[|alts| - 1])
  }

  predicate NumberedAlts(alts: seq<Re>, n: nat) {
    alts == [] ||
    (NumberedAlts(alts[..|alts| - 1], n) && Numbered(alts[|alts| - 1], n + GroupsIn(alts[..|alts| - 1])))
  }

  // A level whose groups start after number n.
  predicate NumberedLevel(alts: seq<Re>, cur: Re, n: nat) {
    NumberedAlts(alts, n) && Numbered(cur, n + GroupsIn(alts))
  }

  // The number before the first group of the level above a stack.
  function Origin(stack: seq<Saved>): nat {
    if stack == [] then 0 else stack[|stack| - 1].reg
  }

  predicate NumberedStack(stack: seq<Saved>) {
    stack == [] ||
    var s, below := stack[|stack| - 1], stack[..|stack| - 1];
    && NumberedStack(below) && NumberedLevel(s.alts, s.cur, Origin(below))
    && s.reg == Origin(below) + GroupsIn(s.alts) + Groups(s.cur) + 1
  }

  predicate NumberedState(st: PState) {
    && NumberedStack(st.stack)
    && NumberedLevel(st.level.alts, Current(st.level), Origin(st.stack))
    && st.regnum == Origin(st.stack) + GroupsIn(st.level.alts) + Groups(Current(st.level))
  }

  lemma {:induction false} TreeNumbered(alts: seq<Re>, cur: Re, n: nat)
    requires NumberedLevel(alts, cur, n)
    ensures Numbered(Tree(alts, cur), n) && Groups(Tree(alts, cur)) == GroupsIn(alts) + Groups(cur)
    decreases |alts|
  {
    if alts != [] {
      var k := |alts| - 1;
      assert alts[..k] + [alts[k]] == alts;
      Assembly.TreeBack(alts[..k], alts[k], cur);
      TreeNumbered(alts[..k], Alt(alts[k], cur), n);
    }
  }

  lemma {:induction false} AltsMore(alts: seq<Re>, a: Re, n: nat)
    requires NumberedLevel(alts, a, n)
    ensures NumberedLevel(alts + [a], Eps, n) && GroupsIn(alts + [a]) == GroupsIn(alts) + Groups(a)
  {
    var s := alts + [a];
    assert s[..|s| - 1] == alts;
  }

  // Growing the current alternative by something without groups.
  lemma {:induction false} SameGroups(l: Level, x: Re, run: bool, alone: bool, c: byte)
    requires Groups(x) == 0 && forall n: nat :: Numbered(x, n)
    ensures Groups(Current(Begin(l, x, run))) == Groups(Current(l)) == Groups(Current(Attach(l, x)))
    ensures forall n: nat :: Numbered(Current(l), n) ==>
      Numbered(Current(Begin(l, x, run)), n) && Numbered(Current(Attach(l, x)), n)
    ensures Groups(Current(AddChar(l, c, alone))) == Groups(Current(l))
    ensures forall n: nat :: Numbered(Current(l), n) ==> Numbered(Current(AddChar(l, c, alone)), n)
  {
    assert Groups(Lit([c])) == 0;
    if l.last.Some? {
      var y := l.last.value;
      assert Groups(Cat(y, x)) == Groups(y);
      forall n: nat | Numbered(Current(l), n)
        ensures Numbered(Current(Attach(l, x)), n)
      {
        assert Numbered(Cat(y, x), n + Groups(l.before));
      }
    }
  }

  lemma {:induction false} LoopGroups(l: Level, zero: bool, many: bool)
    requires l.last.Some?
    ensures var l' := l.(last := Some(Looped(l.last.value, zero, many)), run := false);
      Groups(Current(l')) == Groups(Current(l)) && forall n: nat :: Numbered(Current(l), n) ==> Numbered(Current(l'), n)
  {
    var x := l.last.value;
    assert Groups(Looped(x, zero, many)) == Groups(x);
  }

  lemma {:induction false} CloseNumbered(st: PState)
    requires NumberedState(st) && st.stack != []
    ensures NumberedState(CloseGroup(st))
  {
    hide Tree, NumberedAlts, GroupsIn, NumberedStack;
    var s, below := st.stack[|st.stack| - 1], st.stack[..|st.stack| - 1];
    var t := Tree(st.level.alts, Current(st.level));
    TopNumbered(st.stack);
    TreeNumbered(st.level.alts, Current(st.level), s.reg);
    GroupJoins(s.cur, s.reg, t, Origin(below) + GroupsIn(s.alts));
    assert Current(CloseGroup(st).level) == Cat(s.cur, Group(s.reg, Groups(t), t));
  }

  lemma {:induction false} TopNumbered(stack: seq<Saved>)
    requires stack != [] && NumberedStack(stack)
    ensures var s, below := stack[|stack| - 1], stack[..|stack| - 1];
      && NumberedStack(below) && NumberedLevel(s.alts, s.cur, Origin(below))
      && s.reg == Origin(below) + GroupsIn(s.alts) + Groups(s.cur) + 1
  {
  }

  lemma {:induction false} GroupJoins(cur: Re, reg: nat, t: Re, n: nat)
    requires Numbered(cur, n) && reg == n + Groups(cur) + 1 && Numbered(t, reg)
    ensures var u := Cat(cur, Group(reg, Groups(t), t)); Numbered(u, n) && Groups(u) == Groups(cur) + 1 + Groups(t)
  {
    assert Numbered(Group(reg, Groups(t), t), n + Groups(cur));
  }

  lemma {:induction false} OpenNumbered(st: PState)
    requires NumberedState(st)
    ensures NumberedState(PState(st.stack + [Saved(st.level.alts, Current(st.level), st.regnum + 1)], EMPTY, st.regnum
      + 1))
  {
    hide Current;
    var stack := st.stack + [Saved(st.level.alts, Current(st.level), st.regnum + 1)];
    assert stack[..|stack| - 1] == st.stack;
    assert Current(EMPTY) == Eps by { NothingYet(); }
  }

  lemma {:induction false} NothingYet()
    ensures Current(EMPTY) == Eps && Groups(Eps) == 0
  {
  }

  lemma {:induction false} ShiftNumbered(st: PState, tok: Token)
    requires NumberedState(st) && Shift(st, tok).Ok?
    ensures NumberedState(Shift(st, tok).value)
  {
    hide Used, RegexBracket.MapOf, RegexBracket.Trimmed, Tree, Attach, AddChar, Begin, Current, CloseGroup, Looped,
      NumberedState;
    var l := st.level;
    match tok
    case Char(c, alone) => Kept(st, Eps, false, alone, c);
    case Dot => Kept(st, Any, false, false, 0);
    case Bracket(neg, ranges) => Kept(st, Set(neg, RegexBracket.Trimmed(RegexBracket.MapOf(ranges))), false, false, 0);
    case Repeat(zero, many) => if l.last.Some? { LoopNumbered(st, zero, many); }
    case Hat => Kept(st, Bol, false, false, 0);
    case Dollar => Kept(st, Eol, false, false, 0);
    case Open => OpenNumbered(st);
    case Close(alone) =>
      if st.stack == [] {
        Kept(st, Dummy, false, false, 0);
        Kept(st.(level := Unmatched(l)), Eps, false, alone, RIGHT_PAREN);
      } else {
        CloseNumbered(st);
      }
    case Bar => BarNumbered(st);
    case _ =>
  }

  lemma {:induction false} Kept(st: PState, x: Re, run: bool, alone: bool, c: byte)
    requires NumberedState(st) && Groups(x) == 0 && forall n: nat :: Numbered(x, n)
    ensures NumberedState(st.(level := Begin(st.level, x, run))) && NumberedState(st.(level := Attach(st.level, x)))
    ensures NumberedState(st.(level := AddChar(st.level, c, alone)))
  {
    hide Attach, AddChar, Begin, Current, NumberedStack, NumberedAlts;
    SameGroups(st.level, x, run, alone, c);
    KeepAlts(st.level, x, run, alone, c);
  }

  lemma {:induction false} LoopNumbered(st: PState, zero: bool, many: bool)
    requires NumberedState(st) && st.level.last.Some?
    ensures NumberedState(st.(level := st.level.(last := Some(Looped(st.level.last.value, zero, many)), run := false)))
  {
    hide Current, NumberedStack, NumberedAlts, Looped;
    LoopGroups(st.level, zero, many);
  }

  lemma {:induction false} BarNumbered(st: PState)
    requires NumberedState(st)
    ensures NumberedState(st.(level := Level(st.level.alts + [Current(st.level)], Eps, None, false)))
  {
    hide Current, NumberedStack, NumberedAlts;
    AltsMore(st.level.alts, Current(st.level), Origin(st.stack));
    AfterBar(st.level);
  }

  lemma {:induction false} KeepAlts(l: Level, x: Re, run: bool, alone: bool, c: byte)
    ensures Begin(l, x, run).alts == l.alts == Attach(l, x).alts == AddChar(l, c, alone).alts
  {
  }

  lemma {:induction false} AfterBar(l: Level)
    ensures Current(Level(l.alts + [Current(l)], Eps, None, false)) == Eps && Groups(Eps) == 0
  {
  }

  lemma {:induction false} ParseFromNumbered(pat: seq<byte>, p: nat, st: PState)
    requires NumberedState(st) && ParseFrom(pat, p, st).Ok?
    ensures var c := ParseFrom(pat, p, st).value; Numbered(c.tree, 0) && c.groups == Groups(c.tree)
    decreases |pat| - p
  {
    hide Shift, Lex, NumberedState;
    if p >= |pat| {
      FinishNumbered(st);
    } else {
      var (tok, q) := Lex(pat, p);
      ShiftNumbered(st, tok);
      ParseFromNumbered(pat, q, Shift(st, tok).value);
    }
  }

  lemma {:induction false} FinishNumbered(st: PState)
    requires NumberedState(st) && Finish(st).Ok?
    ensures var c := Finish(st).value; Numbered(c.tree, 0) && c.groups == Groups(c.tree)
  {
    hide Tree;
    TreeNumbered(st.level.alts, Current(st.level), 0);
  }

  // Every pattern that compiles numbers its groups by their opening parentheses, counts all of them,
  // and counts those inside each.
  lemma {:induction false} GroupsNumbered(pat: seq<byte>)
    requires Parse(pat).Ok?
    ensures var c := Parse(pat).value; Numbered(c.tree, 0) && c.groups == Groups(c.tree)
  {
    hide ParseFrom;
    assert NumberedState(START) by { NothingYet(); }
    ParseFromNumbered(pat, 0, START);
  }
}
