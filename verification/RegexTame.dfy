// Patterns whose registers stay in step for a reason plain to see: none of their groups lies in a choice, or at most
// two of them do or come later.
module RegexTame {
  import opened Bytes
  import opened RegexTree
  import opened RegexCode
  import opened RegexParse
  import opened RegexGroups
  import opened RegexOpen
  import opened RegexRegisters
  import opened Wrappers
  import RegexBracket

  // No `?' is put to an operand without code.
  predicate Solid(t: Re) {
    match t
    case Cat(a, b) => Solid(a) && Solid(b)
    case Alt(a, b) => Solid(a) && Solid(b)
    case Star(a) => Solid(a)
    case Plus(a) => Solid(a)
    case Opt(a) => Solid(a) && Len(a) > 0
    case Group(_, _, a) => Solid(a)
    case _ => true
  }

  predicate SolidAlts(alts: seq<Re>) {
    forall i :: 0 <= i < |alts| ==> Solid(alts[i])
  }

  predicate SolidLevel(l: Level) {
    SolidAlts(l.alts) && Solid(l.before) && (l.last.Some? ==> Solid(l.last.value) && Len(l.last.value) > 0)
  }

  predicate SolidSaved(s: Saved) {
    SolidAlts(s.alts) && Solid(s.cur) && s.reg <= MAX_REGNUM
  }

  predicate SolidStack(stack: seq<Saved>) {
    forall i :: 0 <= i < |stack| ==> SolidSaved(stack[i])
  }

  // Groups without commands of their own come only past the largest number one can have.
  predicate SolidState(st: PState) {
    st.regnum <= MAX_REGNUM ==> SolidLevel(st.level) && SolidStack(st.stack)
  }

  lemma {:induction false} TreeSolid(alts: seq<Re>, cur: Re)
    requires SolidAlts(alts) && Solid(cur)
    ensures Solid(Tree(alts, cur))
  {
    if alts != [] { TreeSolid(alts[1..], cur); }
  }

  lemma {:induction false} CloseSolid(st: PState)
    requires SolidLevel(st.level) && SolidStack(st.stack) && st.stack != []
    ensures SolidLevel(CloseGroup(st).level) && SolidStack(CloseGroup(st).stack)
  {
    hide Tree;
    var n := |st.stack| - 1;
    assert SolidSaved(st.stack[n]);
    TreeSolid(st.level.alts, Current(st.level));
  }

  lemma {:induction false} AttachSolid(l: Level, x: Re)
    requires SolidLevel(l) && Solid(x)
    ensures SolidLevel(Attach(l, x))
  {
  }

  lemma {:induction false} BeginSolid(l: Level, x: Re, run: bool)
    requires SolidLevel(l) && Solid(x) && Len(x) > 0
    ensures SolidLevel(Begin(l, x, run))
  {
  }

  lemma {:induction false} AddCharSolid(l: Level, c: byte, alone: bool)
    requires SolidLevel(l)
    ensures SolidLevel(AddChar(l, c, alone))
  {
  }

  lemma {:induction false} LoopSolid(l: Level, zero: bool, many: bool)
    requires SolidLevel(l) && l.last.Some?
    ensures SolidLevel(l.(last := Some(Looped(l.last.value, zero, many)), run := false))
  {
  }

  lemma {:induction false} OpenSolid(st: PState)
    requires SolidLevel(st.level) && SolidStack(st.stack) && st.regnum < MAX_REGNUM
    ensures SolidLevel(EMPTY) && SolidStack(st.stack + [Saved(st.level.alts, Current(st.level), st.regnum + 1)])
  {
  }

  lemma {:induction false} BarSolid(l: Level)
    requires SolidLevel(l)
    ensures SolidLevel(Level(l.alts + [Current(l)], Eps, None, false))
  {
  }

  lemma {:induction false} ShiftSolid(st: PState, tok: Token)
    requires SolidState(st) && Shift(st, tok).Ok?
    ensures SolidState(Shift(st, tok).value) && Shift(st, tok).value.regnum >= st.regnum
  {
    hide Used, RegexBracket.MapOf, RegexBracket.Trimmed, Tree, Attach, AddChar, Begin, Current, CloseGroup, Looped,
      SolidLevel, SolidStack;
    var l := st.level;
    if Shift(st, tok).value.regnum <= MAX_REGNUM {
      match tok
      case Char(c, alone) => AddCharSolid(l, c, alone);
      case Dot => BeginSolid(l, Any, false);
      case Bracket(neg, ranges) => BeginSolid(l, Set(neg, RegexBracket.Trimmed(RegexBracket.MapOf(ranges))), false);
      case Repeat(zero, many) => if l.last.Some? { LoopSolid(l, zero, many); }
      case Hat => AttachSolid(l, Bol);
      case Dollar => AttachSolid(l, Eol);
      case Open => OpenSolid(st);
      case Close(alone) =>
        if st.stack == [] {
          AttachSolid(l, Dummy);
          AddCharSolid(Unmatched(l), RIGHT_PAREN, alone);
        } else {
          SameNumber(st);
          CloseSolid(st);
        }
      case Bar => BarSolid(l);
      case _ =>
    } else if tok.Close? && st.stack != [] {
      SameNumber(st);
    }
  }

  lemma {:induction false} SameNumber(st: PState)
    requires st.stack != []
    ensures CloseGroup(st).regnum == st.regnum
  {
  }

  lemma {:induction false} ParseFromSolid(pat: seq<byte>, p: nat, st: PState)
    requires SolidState(st) && ParseFrom(pat, p, st).Ok?
    ensures var c := ParseFrom(pat, p, st).value; c.groups <= MAX_REGNUM ==> Solid(c.tree)
    decreases |pat| - p
  {
    hide Shift, Lex, SolidLevel, SolidStack;
    if p >= |pat| {
      FinishSolid(st);
    } else {
      var (tok, q) := Lex(pat, p);
      ShiftSolid(st, tok);
      ParseFromSolid(pat, q, Shift(st, tok).value);
    }
  }

  lemma {:induction false} FinishSolid(st: PState)
    requires SolidState(st) && Finish(st).Ok?
    ensures var c := Finish(st).value; c.groups <= MAX_REGNUM ==> Solid(c.tree)
  {
    if st.regnum <= MAX_REGNUM { TreeSolid(st.level.alts, Current(st.level)); }
  }

  // Where only numbers up to k occur.
  lemma {:induction false} FirstOnes(t: Re, m: nat, led: bool, k: nat)
    requires Numbered(t, m) && m + Groups(t) <= k && Solid(t)
    ensures TameFrom(t, led, k)
  {
    hide Len;
    match t
    case Cat(a, b) => FirstOnes(a, m, led, k); FirstOnes(b, m + Groups(a), led && Len(a) == 0, k);
    case Alt(a, b) => FirstOnes(a, m, true, k); FirstOnes(b, m + Groups(a), false, k);
    case Star(a) => FirstOnes(a, m, true, k);
    case Plus(a) => FirstOnes(a, m, true, k);
    case Opt(a) => FirstOnes(a, m, true, k);
    case Group(_, _, a) => FirstOnes(a, m + 1, led, k);
    case _ =>
  }

  // No group lies in an alternative or in what is repeated, however groups nest.
  predicate Unchosen(t: Re) {
    match t
    case Cat(a, b) => Unchosen(a) && Unchosen(b)
    case Group(_, _, a) => Unchosen(a)
    case _ => Groups(t) == 0
  }

  lemma {:induction false} UnchosenFirm(t: Re, m: nat)
    requires Unchosen(t) && Numbered(t, m) && m + Groups(t) <= MAX_REGNUM
    ensures Firm(t) == Groups(t)
  {
    match t
    case Cat(a, b) => UnchosenFirm(a, m); UnchosenFirm(b, m + Groups(a));
    case Group(_, _, a) => UnchosenFirm(a, m + 1);
    case _ => FirmBound(t);
  }

  // A compiled pattern of at most 255 groups keeps its registers in step if no group lies in a choice, or at
  // most two come from the first one that does on: a pattern of at most two groups among them.
  lemma {:induction false} CompiledInStep(pat: seq<byte>)
    requires Parse(pat).Ok?
    ensures var c := Parse(pat).value;
      && (c.groups <= MAX_REGNUM && (c.groups <= Firm(c.tree) + 2 || Unchosen(c.tree)) ==> Tame(c.tree))
      && (Tame(c.tree) ==> InStep(c.tree, c.groups)) && RegsWithin(c.tree, c.groups)
  {
    hide Parse, Numbered, TameFrom, Solid, Groups, Unchosen, Firm;
    var c := Parse(pat).value;
    GroupsNumbered(pat);
    NumberedWithin(c.tree, 0, c.groups);
    ParseSolid(pat);
    if c.groups <= MAX_REGNUM {
      if Unchosen(c.tree) { UnchosenFirm(c.tree, 0); }
      if c.groups <= Firm(c.tree) + 2 { FirstOnes(c.tree, 0, false, Firm(c.tree) + 2); }
    }
  }

  lemma {:induction false} ParseSolid(pat: seq<byte>)
    requires Parse(pat).Ok?
    ensures var c := Parse(pat).value; c.groups <= MAX_REGNUM ==> Solid(c.tree)
  {
    hide ParseFrom;
    ParseFromSolid(pat, 0, START);
  }
}
