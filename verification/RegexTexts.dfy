// The patterns behind the concrete programs: each of these texts compiles to the code that is run.
module RegexTexts {
  import opened Bytes
  import opened RegexTree
  import opened RegexCode
  import opened RegexBracket
  import opened RegexParse
  import opened RegexEngine
  import opened RegexExamples
  import opened RegexStrays
  import opened Wrappers

  // The text compiles to a program of n groups.
  predicate CompilesTo(pat: seq<byte>, n: nat, code: seq<byte>) {
    var c := Parse(pat);
    c.Ok? && c.value.groups == n && WellFormed(c.value.tree) && Emit(c.value.tree) == code
  }

  // ---- Reading a short pattern ----

  // One construct of a pattern of at most 100 characters; the buffer has room.
  lemma {:induction false} Next(pat: seq<byte>, p: nat, st: PState, st': PState, q: nat)
    requires p < |pat| <= 100 && Used(st) <= MOST_PER_CHAR * p && StepAt(pat, p, st) == Ok((st', q))
    ensures ParseFrom(pat, p, st) == ParseFrom(pat, q, st') && Used(st') <= MOST_PER_CHAR * q
  {
    hide Used, Lex, Shift, ParseFrom;
    ParseSteps(pat, p, st);
    LexError(pat, p);
    ShiftUsed(st, Lex(pat, p).0);
  }

  predicate Ordinary(c: byte) {
    && c != HAT && c != DOLLAR && !IsRepeat(c) && c != DOT && c != LEFT_BRACKET && c != LEFT_PAREN && c != RIGHT_PAREN
    && c != BAR && c != LEFT_BRACE && c != BACKSLASH
  }

  // The parser has come from the beginning of the pattern to p.
  predicate Upto(pat: seq<byte>, p: nat, st: PState) {
    p <= |pat| <= 100 && Used(st) <= MOST_PER_CHAR * p && Parse(pat) == ParseFrom(pat, p, st)
  }

  lemma {:induction false} Starts(pat: seq<byte>)
    requires |pat| <= 100
    ensures Upto(pat, 0, START)
  {
    hide ParseFrom;
  }

  lemma {:induction false} OnChar(pat: seq<byte>, p: nat, st: PState)
    requires Upto(pat, p, st) && p < |pat| && Ordinary(pat[p])
    ensures Upto(pat, p + 1, st.(level := AddChar(st.level, pat[p], AloneAt(pat, p + 1))))
  {
    hide Used, ParseFrom, AddChar, AloneAt, Extends;
    Next(pat, p, st, st.(level := AddChar(st.level, pat[p], AloneAt(pat, p + 1))), p + 1);
  }

  lemma {:induction false} OnOpen(pat: seq<byte>, p: nat, st: PState)
    requires Upto(pat, p, st) && p < |pat| && pat[p] == LEFT_PAREN
    ensures var n := st.regnum + 1;
      Upto(pat, p + 1, PState(st.stack + [Saved(st.level.alts, Current(st.level), n)], EMPTY, n))
  {
    hide Used, ParseFrom, Current;
    var n := st.regnum + 1;
    Next(pat, p, st, PState(st.stack + [Saved(st.level.alts, Current(st.level), n)], EMPTY, n), p + 1);
  }

  lemma {:induction false} OnClose(pat: seq<byte>, p: nat, st: PState)
    requires Upto(pat, p, st) && p < |pat| && pat[p] == RIGHT_PAREN && st.stack != []
    ensures Upto(pat, p + 1, CloseGroup(st))
  {
    hide Used, ParseFrom, CloseGroup, AloneAt;
    Next(pat, p, st, CloseGroup(st), p + 1);
  }

  lemma {:induction false} OnBar(pat: seq<byte>, p: nat, st: PState)
    requires Upto(pat, p, st) && p < |pat| && pat[p] == BAR
    ensures Upto(pat, p + 1, st.(level := Level(st.level.alts + [Current(st.level)], Eps, None, false)))
  {
    hide Used, ParseFrom, Current;
    Next(pat, p, st, st.(level := Level(st.level.alts + [Current(st.level)], Eps, None, false)), p + 1);
  }

  lemma {:induction false} OnHat(pat: seq<byte>, p: nat, st: PState)
    requires Upto(pat, p, st) && p < |pat| && pat[p] == HAT
    ensures Upto(pat, p + 1, st.(level := Attach(st.level, Bol)))
  {
    hide Used, ParseFrom, Attach;
    Next(pat, p, st, st.(level := Attach(st.level, Bol)), p + 1);
  }

  function LoopedLast(l: Level, c: byte): Level
    requires l.last.Some?
  {
    l.(last := Some(Looped(l.last.value, c != PLUS, c != QUESTION)), run := false)
  }

  // A single repetition.
  lemma {:induction false} OnRepeat(pat: seq<byte>, p: nat, st: PState)
    requires Upto(pat, p, st) && p < |pat| && IsRepeat(pat[p]) && !IsRepeat(At(pat, p + 1)) && st.level.last.Some?
    ensures Upto(pat, p + 1, st.(level := LoopedLast(st.level, pat[p])))
  {
    hide Used, ParseFrom, Looped;
    Next(pat, p, st, st.(level := LoopedLast(st.level, pat[p])), p + 1);
  }

  // A state with nothing on the stack and no finished alternative.
  function Top(before: Re, last: Re, run: bool, n: nat): PState {
    PState([], Level([], before, Some(last), run), n)
  }

  // A tree that ends the reading.
  lemma {:induction false} Compiles(pat: seq<byte>, st: PState, t: Re, s: Re, n: nat, code: seq<byte>)
    requires Upto(pat, |pat|, st) && Finish(st) == Ok(Compiled(t, n))
    requires SameCode(t, s) && Emit(s) == code
    ensures CompilesTo(pat, n, code)
  {
    hide ParseFrom, Emit, Finish, Used;
    ParseEnds(pat, |pat|, st);
  }

  // ---- Trees with the same code ----

  predicate SameCode(s: Re, t: Re) {
    WellFormed(s) && WellFormed(t) && Emit(s) == Emit(t) && (s.Alt? <==> t.Alt?)
  }

  lemma {:induction false} SameEps(a: Re)
    requires WellFormed(a) && !a.Alt?
    ensures SameCode(Cat(Eps, a), a)
  {
    assert [] + Emit(a) == Emit(a);
  }

  lemma {:induction false} SameCat(a: Re, b: Re, a': Re, b': Re)
    requires SameCode(a, a') && SameCode(b, b')
    ensures SameCode(Cat(a, b), Cat(a', b'))
  {
    hide Emit, Len;
    CatEmits(a, b);
    CatEmits(a', b');
  }

  lemma {:induction false} SameOpt(a: Re, a': Re)
    requires SameCode(a, a')
    ensures SameCode(Opt(a), Opt(a'))
  {
  }

  lemma {:induction false} SameStar(a: Re, a': Re)
    requires SameCode(a, a')
    ensures SameCode(Star(a), Star(a'))
  {
  }

  lemma {:induction false} SameGroup(reg: nat, inner: nat, a: Re, a': Re)
    requires SameCode(a, a') && 1 <= reg
    ensures SameCode(Group(reg, inner, a), Group(reg, inner, a'))
  {
  }

  lemma {:induction false} AltEmits(a: Re, b: Re)
    requires WellFormed(a) && WellFormed(b) && !a.Alt? && !b.Alt?
    ensures WellFormed(Alt(a, b))
    ensures var x, y := Emit(a), Emit(b);
      Emit(Alt(a, b)) == JumpCode(ON_FAILURE_JUMP, |x| + 3) + x + JumpCode(JUMP_PAST_ALT, |y|) + y
  {
    hide JumpCode;
  }

  lemma {:induction false} SameAlt(a: Re, b: Re, a': Re, b': Re)
    requires SameCode(a, a') && SameCode(b, b') && !a.Alt? && !b.Alt?
    ensures SameCode(Alt(a, b), Alt(a', b'))
  {
    hide Emit, JumpCode, WellFormed;
    AltEmits(a, b);
    AltEmits(a', b');
  }

  lemma {:induction false} Rebracket(a: Re, b: Re, c: Re)
    requires WellFormed(Cat(a, Cat(b, c)))
    ensures SameCode(Cat(Cat(a, b), c), Cat(a, Cat(b, c)))
  {
    assert Emit(a) + Emit(b) + Emit(c) == Emit(a) + (Emit(b) + Emit(c));
  }

  // ---- x|xy ----

  const X_OR_XY_TEXT: seq<byte> := [120, 124, 120, 121]

  lemma {:induction false} XOrXyText()
    ensures CompilesTo(X_OR_XY_TEXT, 0, X_OR_XY)
  {
    hide Upto, Emit, WellFormed, SameCode, CompilesTo;
    var pat, x, xy := X_OR_XY_TEXT, Lit([120]), Lit([120, 121]);
    var alts := [Cat(Eps, x)];
    assert [] + [Cat(Eps, x)] == alts && [120] + [121] == [120, 121] && alts[1..] == [];
    Starts(pat);
    OnChar(pat, 0, START);
    OnBar(pat, 1, Top(Eps, x, true, 0));
    OnChar(pat, 2, PState([], Level(alts, Eps, None, false), 0));
    OnChar(pat, 3, PState([], Level(alts, Eps, Some(x), true), 0));
    assert Tree(alts, Cat(Eps, xy)) == Alt(Cat(Eps, x), Tree([], Cat(Eps, xy)));
    XOrXySame();
    ShorterCode();
    Compiles(pat, PState([], Level(alts, Eps, Some(xy), true), 0), Alt(Cat(Eps, x), Cat(Eps, xy)), Alt(x, xy), 0,
      X_OR_XY);
  }

  lemma {:induction false} XOrXySame()
    ensures SameCode(Alt(Cat(Eps, Lit([120])), Cat(Eps, Lit([120, 121]))), Alt(Lit([120]), Lit([120, 121])))
  {
    hide Emit, SameCode;
    SameEps(Lit([120]));
    SameEps(Lit([120, 121]));
    SameAlt(Cat(Eps, Lit([120])), Cat(Eps, Lit([120, 121])), Lit([120]), Lit([120, 121]));
  }

  // ---- a bracket expression with the characters 97 and 255, starred, and then the character 97 ----

  const WIDE_TEXT: seq<byte> := [91, 97, 255, 93, 42, 97]

  lemma {:induction false} WideText()
    ensures CompilesTo(WIDE_TEXT, 0, WIDE_LOOP)
  {
    hide Upto, Emit, WellFormed, SameCode, CompilesTo;
    var pat, a := WIDE_TEXT, Lit([97]);
    Starts(pat);
    WideRead();
    OnRepeat(pat, 4, Top(Eps, WIDE_SET, false, 0));
    OnChar(pat, 5, Top(Eps, Star(WIDE_SET), false, 0));
    WideSame();
    WideCode();
    Compiles(pat, Top(Cat(Eps, Star(WIDE_SET)), a, true, 0), Cat(Cat(Eps, Star(WIDE_SET)), a), Cat(Star(WIDE_SET), a),
      0, WIDE_LOOP);
  }

  lemma {:induction false} WideRead()
    requires Upto(WIDE_TEXT, 0, START)
    ensures Upto(WIDE_TEXT, 4, Top(Eps, WIDE_SET, false, 0))
  {
    hide Used, ParseFrom, MapOf, Trimmed, Members, WIDE_SET;
    WideMembers();
    WideBits();
    SetIs();
    Next(WIDE_TEXT, 0, START, Top(Eps, WIDE_SET, false, 0), 4);
  }

  lemma {:induction false} SetIs()
    ensures WIDE_SET == Set(false, WIDE_MAP)
  {
  }

  lemma {:induction false} WideSame()
    ensures SameCode(Cat(Cat(Eps, Star(WIDE_SET)), Lit([97])), Cat(Star(WIDE_SET), Lit([97])))
  {
    hide Emit, SameCode;
    SameEps(Star(WIDE_SET));
    assert SameCode(Lit([97]), Lit([97])) by { SameItself(Lit([97])); }
    SameCat(Cat(Eps, Star(WIDE_SET)), Lit([97]), Star(WIDE_SET), Lit([97]));
  }

  lemma {:induction false} SameItself(a: Re)
    requires WellFormed(a)
    ensures SameCode(a, a)
  {
  }

  lemma {:induction false} WideMembers()
    ensures Members(WIDE_TEXT, 1, 1, []) == Ok(([Range(97, 97), Range(255, 255)], 4))
  {
    hide Members;
    var one, two := [Range(97, 97)], [Range(97, 97), Range(255, 255)];
    assert [] + [Range(97, 97)] == one && one + [Range(255, 255)] == two;
    OneMember(WIDE_TEXT, 1, []);
    OneMember(WIDE_TEXT, 2, one);
    LastMember(WIDE_TEXT, 3, two);
  }

  // A character that neither begins nor continues a range.
  lemma {:induction false} OneMember(pat: seq<byte>, p: nat, ranges: seq<Range>)
    requires p < |pat| && pat[p] != RIGHT_BRACKET && pat[p] != HYPHEN && pat[p] != LEFT_BRACKET
    requires At(pat, p + 1) != HYPHEN
    ensures Members(pat, p, 1, ranges) == Members(pat, p + 1, 1, ranges + [Range(pat[p], pat[p])])
  {
  }

  lemma {:induction false} LastMember(pat: seq<byte>, p: nat, ranges: seq<Range>)
    requires 1 < p < |pat| && pat[p] == RIGHT_BRACKET
    ensures Members(pat, p, 1, ranges) == Ok((ranges, p + 1))
  {
  }

  lemma {:induction false} WideBits()
    ensures Trimmed(MapOf([Range(97, 97), Range(255, 255)])) == WIDE_MAP
  {
    hide WithBit, MarkedRange;
    var one, two := [Range(97, 97)], [Range(97, 97), Range(255, 255)];
    assert two[..1] == one && one[..0] == [];
    SingleMarks(Blank(), 97);
    SingleMarks(Marked(Blank(), 97), 255);
    BitOf97();
    BitOf255();
    assert MapOf(one) == Marked(Blank(), 97);
    assert MapOf(two) == Marked(Marked(Blank(), 97), 255);
    assert Marked(Marked(Blank(), 97), 255) == WIDE_MAP;
  }

  lemma {:induction false} SingleMarks(bits: seq<byte>, c: byte)
    requires |bits| == MAP_BYTES
    ensures MarkedRange(bits, c, c) == Marked(bits, c)
  {
    hide Marked;
  }

  lemma {:induction false} BitOf97()
    ensures WithBit(0, 97) == 2
  {
    hide SetBit;
    SecondBit();
  }

  lemma {:induction false} SecondBit()
    ensures SetBit(0, 1) == 2
  {
    assert SetBit(0, 0) == 1;
  }

  lemma {:induction false} BitOf255()
    ensures WithBit(0, 255) == 128
  {
    hide Bit, Power2;
    assert SetBit(0, 2) == 2 * SetBit(0, 1) == 4 * SetBit(0, 0) == 4;
    assert SetBit(0, 4) == 2 * SetBit(0, 3) == 4 * SetBit(0, 2);
    assert SetBit(0, 6) == 2 * SetBit(0, 5) == 4 * SetBit(0, 4);
  }

  // ---- a*^* ----

  const STAR_STAR_TEXT: seq<byte> := [97, 42, 94, 42]

  lemma {:induction false} StarStarText()
    ensures CompilesTo(STAR_STAR_TEXT, 0, STAR_STAR)
  {
    hide Upto, Emit, WellFormed, SameCode, CompilesTo;
    var pat, a := STAR_STAR_TEXT, Lit([97]);
    var body := Cat(Star(a), Bol);
    Starts(pat);
    OnChar(pat, 0, START);
    OnRepeat(pat, 1, Top(Eps, a, true, 0));
    OnHat(pat, 2, Top(Eps, Star(a), false, 0));
    OnRepeat(pat, 3, Top(Eps, body, false, 0));
    StarStarCode();
    StarStarSame();
    Compiles(pat, Top(Eps, Star(body), false, 0), Cat(Eps, Star(body)), Star(body), 0, STAR_STAR);
  }

  lemma {:induction false} StarStarSame()
    ensures var t := Star(Cat(Star(Lit([97])), Bol)); SameCode(Cat(Eps, t), t)
  {
    hide Emit;
    SameEps(Star(Cat(Star(Lit([97])), Bol)));
  }

  // ---- (aaa?)* ----

  const GROUP_TEXT: seq<byte> := [40, 97, 97, 97, 63, 41, 42]

  lemma {:induction false} GroupText()
    ensures CompilesTo(GROUP_TEXT, 1, GROUP_LOOP)
  {
    hide Upto, Emit, WellFormed, SameCode, CompilesTo;
    var g := Group(1, 0, Cat(Cat(Eps, Lit([97, 97])), Opt(Lit([97]))));
    GroupRead();
    GroupSame();
    RegexExamples.GroupCode();
    Compiles(GROUP_TEXT, Top(Eps, Star(g), false, 1), Cat(Eps, Star(g)), GROUP_TREE, 1, GROUP_LOOP);
  }

  lemma {:induction false} GroupRead()
    ensures var g := Group(1, 0, Cat(Cat(Eps, Lit([97, 97])), Opt(Lit([97]))));
      Upto(GROUP_TEXT, 7, Top(Eps, Star(g), false, 1))
  {
    hide Upto;
    var pat, a, aa := GROUP_TEXT, Lit([97]), Lit([97, 97]);
    var body := Cat(Cat(Eps, aa), Opt(a));
    var stack := [Saved([], Eps, 1)];
    assert stack[..0] == [];
    GroupOpens();
    OnChar(pat, 3, PState(stack, Level([], Eps, Some(aa), true), 1));
    OnRepeat(pat, 4, PState(stack, Level([], Cat(Eps, aa), Some(a), true), 1));
    OnClose(pat, 5, PState(stack, Level([], Cat(Eps, aa), Some(Opt(a)), false), 1));
    OnRepeat(pat, 6, Top(Eps, Group(1, 0, body), false, 1));
  }

  lemma {:induction false} GroupOpens()
    ensures Upto(GROUP_TEXT, 3, PState([Saved([], Eps, 1)], Level([], Eps, Some(Lit([97, 97])), true), 1))
  {
    hide Upto;
    var pat, stack := GROUP_TEXT, [Saved([], Eps, 1)];
    assert [] + stack == stack && [97] + [97] == [97, 97];
    Starts(pat);
    OnOpen(pat, 0, START);
    OnChar(pat, 1, PState(stack, EMPTY, 1));
    OnChar(pat, 2, PState(stack, Level([], Eps, Some(Lit([97])), true), 1));
  }

  lemma {:induction false} GroupSame()
    ensures SameCode(Cat(Eps, Star(Group(1, 0, Cat(Cat(Eps, Lit([97, 97])), Opt(Lit([97])))))), GROUP_TREE)
  {
    hide Emit, SameCode;
    var a, aa := Lit([97]), Lit([97, 97]);
    var body := Cat(Cat(Eps, aa), Opt(a));
    SameEps(aa);
    SameItself(Opt(a));
    SameCat(Cat(Eps, aa), Opt(a), aa, Opt(a));
    SameGroup(1, 0, body, GROUP_BODY);
    SameStar(Group(1, 0, body), Group(1, 0, GROUP_BODY));
    SameEps(Star(Group(1, 0, body)));
    SameOnward(Cat(Eps, Star(Group(1, 0, body))), Star(Group(1, 0, body)), GROUP_TREE);
  }

  lemma {:induction false} SameOnward(a: Re, b: Re, c: Re)
    requires SameCode(a, b) && SameCode(b, c)
    ensures SameCode(a, c)
  {
    hide Emit, WellFormed;
  }

  // ---- (a?)* ----

  const TURN_TEXT: seq<byte> := [40, 97, 63, 41, 42]

  lemma {:induction false} TurnText()
    ensures CompilesTo(TURN_TEXT, 1, EMPTY_TURN)
  {
    hide Upto, Emit, WellFormed, SameCode, CompilesTo;
    var pat, a, stack := TURN_TEXT, Lit([97]), [Saved([], Eps, 1)];
    var g := Group(1, 0, Cat(Eps, Opt(a)));
    assert [] + stack == stack && stack[..0] == [];
    Starts(pat);
    OnOpen(pat, 0, START);
    OnChar(pat, 1, PState(stack, EMPTY, 1));
    OnRepeat(pat, 2, PState(stack, Level([], Eps, Some(a), true), 1));
    OnClose(pat, 3, PState(stack, Level([], Eps, Some(Opt(a)), false), 1));
    OnRepeat(pat, 4, Top(Eps, g, false, 1));
    TurnSame();
    TurnCode();
    Compiles(pat, Top(Eps, Star(g), false, 1), Cat(Eps, Star(g)), TURN_TREE, 1, EMPTY_TURN);
  }

  lemma {:induction false} TurnSame()
    ensures SameCode(Cat(Eps, Star(Group(1, 0, Cat(Eps, Opt(Lit([97])))))), TURN_TREE)
  {
    hide Emit, SameCode;
    var o := Opt(Lit([97]));
    var g := Group(1, 0, Cat(Eps, o));
    SameEps(o);
    SameGroup(1, 0, Cat(Eps, o), o);
    SameStar(g, Group(1, 0, o));
    SameEps(Star(g));
    SameOnward(Cat(Eps, Star(g)), Star(g), TURN_TREE);
  }

  // ---- x(ab)|x(a)(a)((c)?)d? and x(ab)|x(a)((c)?)d?d?d? ----

  const OPENING_TEXT: seq<byte> := [120, 40, 97, 98, 41, 124, 120, 40, 97, 41]
  const WRAPPED_TEXT: seq<byte> := OPENING_TEXT + [40, 97, 41, 40, 40, 99, 41, 63, 41, 100, 63]
  const SHORT_TEXT: seq<byte> := OPENING_TEXT + [40, 40, 99, 41, 63, 41, 100, 63, 100, 63, 100, 63]

  const X := Lit([120])
  const C := Lit([99])
  const D := Lit([100])
  const FIRST_ALTS := [Cat(Cat(Eps, X), Group(1, 0, Cat(Eps, Lit([97, 98]))))]

  // A state with nothing on the stack, in the second alternative.
  function Second(before: Re, last: Re, run: bool, n: nat): PState {
    PState([], Level(FIRST_ALTS, before, Some(last), run), n)
  }

  // A group of one character, at the top of the second alternative.
  lemma {:induction false} OnCharGroup(pat: seq<byte>, p: nat, before: Re, last: Re, run: bool, n: nat)
    requires Upto(pat, p, Second(before, last, run, n)) && p + 3 < |pat|
    requires pat[p] == LEFT_PAREN && Ordinary(pat[p + 1]) && pat[p + 2] == RIGHT_PAREN
    ensures var g := Group(n + 1, 0, Cat(Eps, Lit([pat[p + 1]])));
      Upto(pat, p + 3, Second(Cat(before, last), g, false, n + 1))
  {
    hide Upto, FIRST_ALTS;
    var c, cur := pat[p + 1], Cat(before, last);
    var stack := [Saved(FIRST_ALTS, cur, n + 1)];
    assert [] + stack == stack && stack[..0] == [];
    OnOpen(pat, p, Second(before, last, run, n));
    OnChar(pat, p + 1, PState(stack, EMPTY, n + 1));
    OnClose(pat, p + 2, PState(stack, Level([], Eps, Some(Lit([c])), true), n + 1));
  }

  lemma {:induction false} OnFirst(pat: seq<byte>)
    requires 10 <= |pat| <= 100 && pat[..10] == OPENING_TEXT
    ensures Upto(pat, 6, PState([], Level(FIRST_ALTS, Eps, None, false), 1))
  {
    hide Upto;
    var a, ab, cur := Lit([97]), Lit([97, 98]), Cat(Eps, X);
    var stack := [Saved([], cur, 1)];
    OpeningIs(pat);
    assert [] + stack == stack && stack[..0] == [] && [97] + [98] == [97, 98];
    var g := Group(1, 0, Cat(Eps, ab));
    Starts(pat);
    OnChar(pat, 0, START);
    OnOpen(pat, 1, Top(Eps, X, true, 0));
    OnChar(pat, 2, PState(stack, EMPTY, 1));
    OnChar(pat, 3, PState(stack, Level([], Eps, Some(a), true), 1));
    OnClose(pat, 4, PState(stack, Level([], Eps, Some(ab), true), 1));
    assert [] + [Cat(cur, g)] == FIRST_ALTS;
    OnBar(pat, 5, Top(cur, g, false, 1));
  }

  lemma {:induction false} OpeningIs(pat: seq<byte>)
    requires 10 <= |pat| && pat[..10] == OPENING_TEXT
    ensures pat[0] == 120 && pat[1] == 40 && pat[2] == 97 && pat[3] == 98 && pat[4] == 41 && pat[5] == 124
    ensures pat[6] == 120 && pat[7] == 40 && pat[8] == 97 && pat[9] == 41
  {
    assert forall i :: 0 <= i < 10 ==> pat[i] == OPENING_TEXT[i];
  }

  const G2 := Group(2, 0, Cat(Eps, Lit([97])))

  lemma {:induction false} OnOpening(pat: seq<byte>)
    requires 10 < |pat| <= 100 && pat[..10] == OPENING_TEXT
    ensures Upto(pat, 10, Second(Cat(Eps, X), G2, false, 2))
  {
    hide Upto, FIRST_ALTS;
    OnFirst(pat);
    OpeningIs(pat);
    OnChar(pat, 6, PState([], Level(FIRST_ALTS, Eps, None, false), 1));
    OnCharGroup(pat, 7, Eps, X, true, 1);
  }

  function Inner(n: nat): Re {
    Group(n + 1, 1, Cat(Eps, Opt(Group(n + 2, 0, Cat(Eps, C)))))
  }

  // ((c)?)
  lemma {:induction false} OnInner(pat: seq<byte>, p: nat, before: Re, last: Re, n: nat)
    requires Upto(pat, p, Second(before, last, false, n)) && p + 6 < |pat| && pat[p..p + 6] == [40, 40, 99, 41, 63, 41]
    ensures Upto(pat, p + 6, Second(Cat(before, last), Inner(n), false, n + 2))
  {
    hide Upto, FIRST_ALTS;
    var cur := Cat(before, last);
    var one := [Saved(FIRST_ALTS, cur, n + 1)];
    var two := one + [Saved([], Eps, n + 2)];
    var g := Group(n + 2, 0, Cat(Eps, C));
    assert [] + one == one && one[..0] == [] && two[..1] == one;
    var w := pat[p..p + 6];
    assert w[0] == pat[p] && w[1] == pat[p + 1] && w[2] == pat[p + 2];
    assert w[3] == pat[p + 3] && w[4] == pat[p + 4] && w[5] == pat[p + 5];
    OnOpen(pat, p, Second(before, last, false, n));
    OnOpen(pat, p + 1, PState(one, EMPTY, n + 1));
    OnChar(pat, p + 2, PState(two, EMPTY, n + 2));
    OnClose(pat, p + 3, PState(two, Level([], Eps, Some(C), true), n + 2));
    OnRepeat(pat, p + 4, PState(one, Level([], Eps, Some(g), false), n + 2));
    OnClose(pat, p + 5, PState(one, Level([], Eps, Some(Opt(g)), false), n + 2));
  }

  // d?
  lemma {:induction false} OnOptD(pat: seq<byte>, p: nat, before: Re, last: Re, n: nat)
    requires Upto(pat, p, Second(before, last, false, n)) && p + 1 < |pat| && pat[p] == 100 && pat[p + 1] == QUESTION
    requires !IsRepeat(At(pat, p + 2))
    ensures Upto(pat, p + 2, Second(Cat(before, last), Opt(D), false, n))
  {
    hide Upto, FIRST_ALTS;
    OnChar(pat, p, Second(before, last, false, n));
    OnRepeat(pat, p + 1, Second(Cat(before, last), D, true, n));
  }

  lemma {:induction false} SameInner(n: nat)
    ensures SameCode(Inner(n), Group(n + 1, 1, Opt(Group(n + 2, 0, C))))
  {
    hide Emit, SameCode;
    var g, h := Group(n + 2, 0, Cat(Eps, C)), Group(n + 2, 0, C);
    SameEps(C);
    SameGroup(n + 2, 0, Cat(Eps, C), C);
    SameOpt(g, h);
    SameEps(Opt(g));
    SameOnward(Cat(Eps, Opt(g)), Opt(g), Opt(h));
    SameGroup(n + 1, 1, Cat(Eps, Opt(g)), Opt(h));
  }

  lemma {:induction false} SameCharGroup(reg: nat, c: byte)
    requires 1 <= reg
    ensures SameCode(Group(reg, 0, Cat(Eps, Lit([c]))), Group(reg, 0, Lit([c])))
  {
    hide Emit, SameCode;
    SameEps(Lit([c]));
    SameGroup(reg, 0, Cat(Eps, Lit([c])), Lit([c]));
  }

  lemma {:induction false} SameFirst()
    ensures SameCode(FIRST_ALTS[0], Cat(X, Group(1, 0, Lit([97, 98]))))
  {
    hide Emit, SameCode;
    var ab := Lit([97, 98]);
    SameEps(ab);
    SameEps(X);
    SameGroup(1, 0, Cat(Eps, ab), ab);
    SameCat(Cat(Eps, X), Group(1, 0, Cat(Eps, ab)), X, Group(1, 0, ab));
  }

  predicate HasCode(t: Re, code: seq<byte>) {
    WellFormed(t) && Emit(t) == code
  }

  lemma {:induction false} CatCode(a: Re, b: Re, x: seq<byte>, y: seq<byte>)
    requires HasCode(a, x) && HasCode(b, y)
    ensures HasCode(Cat(a, b), x + y)
  {
    CatEmits(a, b);
  }

  lemma {:induction false} SharedCode(s: Re, t: Re) returns (code: seq<byte>)
    requires SameCode(s, t)
    ensures HasCode(s, code) && HasCode(t, code)
  {
    hide Emit, WellFormed;
    code := Emit(s);
  }

  lemma {:induction false} CodeIsSame(s: Re, t: Re, code: seq<byte>)
    requires HasCode(s, code) && HasCode(t, code) && !s.Alt? && !t.Alt?
    ensures SameCode(s, t)
  {
    hide Emit, WellFormed;
  }

  // Concatenated to the left or to the right.
  lemma {:induction false} SameRow(a: Re, b: Re, c: Re, d: Re, e: Re, a': Re, b': Re, c': Re, d': Re, e': Re)
    requires SameCode(a, a') && SameCode(b, b') && SameCode(c, c') && SameCode(d, d') && SameCode(e, e')
    ensures SameCode(Cat(Cat(Cat(Cat(a, b), c), d), e), Cat(a', Cat(b', Cat(c', Cat(d', e')))))
  {
    hide Emit, SameCode, HasCode;
    var r := SharedCode(a, a');
    var s := SharedCode(b, b');
    var t := SharedCode(c, c');
    var u := SharedCode(d, d');
    var v := SharedCode(e, e');
    RowCode(a, b, c, d, e, a', b', c', d', e', r, s, t, u, v);
  }

  lemma {:induction false} RowCode(a: Re, b: Re, c: Re, d: Re, e: Re, a': Re, b': Re, c': Re, d': Re, e': Re,
        r: seq<byte>, s: seq<byte>, t: seq<byte>, u: seq<byte>, v: seq<byte>)
    requires HasCode(a, r) && HasCode(b, s) && HasCode(c, t) && HasCode(d, u) && HasCode(e, v)
    requires HasCode(a', r) && HasCode(b', s) && HasCode(c', t) && HasCode(d', u) && HasCode(e', v)
    ensures SameCode(Cat(Cat(Cat(Cat(a, b), c), d), e), Cat(a', Cat(b', Cat(c', Cat(d', e')))))
  {
    hide SameCode, HasCode;
    CatCode(a, b, r, s);
    CatCode(Cat(a, b), c, r + s, t);
    CatCode(Cat(Cat(a, b), c), d, r + s + t, u);
    CatCode(Cat(Cat(Cat(a, b), c), d), e, r + s + t + u, v);
    CatCode(d', e', u, v);
    CatCode(c', Cat(d', e'), t, u + v);
    CatCode(b', Cat(c', Cat(d', e')), s, t + (u + v));
    CatCode(a', Cat(b', Cat(c', Cat(d', e'))), r, s + (t + (u + v)));
    Reassociate(r, s, t, u, v);
    CodeIsSame(Cat(Cat(Cat(Cat(a, b), c), d), e), Cat(a', Cat(b', Cat(c', Cat(d', e')))), r + s + t + u + v);
  }

  lemma {:induction false} Reassociate(r: seq<byte>, s: seq<byte>, t: seq<byte>, u: seq<byte>, v: seq<byte>)
    ensures r + s + t + u + v == r + (s + (t + (u + v)))
  {
    assert r + s + t + u + v == r + s + (t + (u + v));
  }

  // The second alternative ends the pattern.
  lemma {:induction false} EndsSecond(pat: seq<byte>, before: Re, last: Re, n: nat, s: Re, code: seq<byte>)
    requires Upto(pat, |pat|, Second(before, last, false, n)) && SameCode(Cat(before, last), s) && !s.Alt?
    requires HasCode(Alt(Cat(X, Group(1, 0, Lit([97, 98]))), s), code)
    ensures CompilesTo(pat, n, code)
  {
    hide Emit, SameCode, Upto, CompilesTo, X;
    var cur, ab := Cat(before, last), Cat(X, Group(1, 0, Lit([97, 98])));
    SameFirst();
    SameAlt(FIRST_ALTS[0], cur, ab, s);
    assert FIRST_ALTS[1..] == [];
    assert Tree(FIRST_ALTS, cur) == Alt(FIRST_ALTS[0], Tree([], cur));
    Compiles(pat, Second(before, last, false, n), Alt(FIRST_ALTS[0], cur), Alt(ab, s), n, code);
  }

  const G3 := Group(3, 0, Cat(Eps, Lit([97])))

  lemma {:induction false} WrappedText()
    ensures CompilesTo(WRAPPED_TEXT, 5, WRAPPED)
  {
    hide Emit, SameCode, HasCode, Upto, CompilesTo, WRAPPED, X, D, G2, G3, Inner;
    WrappedRead();
    WrappedRow();
    WrappedHas();
    EndsSecond(WRAPPED_TEXT, Cat(Cat(Cat(Cat(Eps, X), G2), G3), Inner(3)), Opt(D), 5, WrappedSecond(), WRAPPED);
  }

  lemma {:induction false} WrappedRead()
    ensures Upto(WRAPPED_TEXT, |WRAPPED_TEXT|, Second(Cat(Cat(Cat(Cat(Eps, X), G2), G3), Inner(3)), Opt(D), false, 5))
  {
    hide Upto, X, D, G2, Inner, Second;
    var pat := WRAPPED_TEXT;
    var b2 := Cat(Eps, X);
    var b3 := Cat(b2, G2);
    assert pat[..10] == OPENING_TEXT && pat[13..19] == [40, 40, 99, 41, 63, 41];
    OnOpening(pat);
    OnCharGroup(pat, 10, b2, G2, false, 2);
    OnInner(pat, 13, b3, G3, 3);
    OnOptD(pat, 19, Cat(b3, G3), Inner(3), 5);
  }

  // The second alternative as RegexStrays writes it.
  function WrappedSecond(): Re {
    Cat(X, Cat(Group(2, 0, Lit([97])), Cat(Group(3, 0, Lit([97])), Cat(Group(4, 1, Opt(Group(5, 0, C))), Opt(D)))))
  }

  lemma {:induction false} WrappedRow()
    ensures SameCode(Cat(Cat(Cat(Cat(Cat(Eps, X), G2), G3), Inner(3)), Opt(D)), WrappedSecond())
  {
    hide Emit, SameCode, X, D, G2, Inner;
    RowParts();
    SameCharGroup(3, 97);
    SameInner(3);
    var i := Group(4, 1, Opt(Group(5, 0, C)));
    SameRow(Cat(Eps, X), G2, G3, Inner(3), Opt(D), X, Group(2, 0, Lit([97])), Group(3, 0, Lit([97])), i, Opt(D));
  }

  lemma {:induction false} WrappedHas()
    ensures HasCode(Alt(Cat(X, Group(1, 0, Lit([97, 98]))), WrappedSecond()), WRAPPED)
  {
    hide Emit, WRAPPED;
    WrappedCode();
    assert WRAPPED_TREE == Alt(Cat(X, Group(1, 0, Lit([97, 98]))), WrappedSecond());
  }

  lemma {:induction false} RowParts()
    ensures SameCode(Cat(Eps, X), X) && SameCode(G2, Group(2, 0, Lit([97]))) && SameCode(Opt(D), Opt(D))
  {
    hide Emit, SameCode;
    SameEps(X);
    SameCharGroup(2, 97);
    SameItself(Opt(D));
  }

  lemma {:induction false} ShortText()
    ensures CompilesTo(SHORT_TEXT, 4, SHORT)
  {
    hide Emit, SameCode, HasCode, Upto, CompilesTo, SHORT, X, D, G2, Inner;
    ShortRead();
    ShortRow();
    ShortHas();
    EndsSecond(SHORT_TEXT, Cat(Cat(Cat(Cat(Cat(Eps, X), G2), Inner(2)), Opt(D)), Opt(D)), Opt(D), 4, ShortSecond(),
      SHORT);
  }

  lemma {:induction false} ShortRead()
    ensures Upto(SHORT_TEXT, |SHORT_TEXT|,
      Second(Cat(Cat(Cat(Cat(Cat(Eps, X), G2), Inner(2)), Opt(D)), Opt(D)), Opt(D), false, 4))
  {
    hide Upto, X, D, G2, Inner, Second;
    var pat, d := SHORT_TEXT, Opt(D);
    var b2 := Cat(Eps, X);
    var b3 := Cat(b2, G2);
    var b4 := Cat(b3, Inner(2));
    assert pat[..10] == OPENING_TEXT && pat[10..16] == [40, 40, 99, 41, 63, 41];
    OnOpening(pat);
    OnInner(pat, 10, b2, G2, 2);
    OnOptD(pat, 16, b3, Inner(2), 4);
    OnOptD(pat, 18, b4, d, 4);
    OnOptD(pat, 20, Cat(b4, d), d, 4);
  }

  function ShortSecond(): Re {
    Cat(X, Cat(Group(2, 0, Lit([97])), Cat(Group(3, 1, Opt(Group(4, 0, C))), Cat(Opt(D), Cat(Opt(D), Opt(D))))))
  }

  lemma {:induction false} ShortRow()
    ensures SameCode(Cat(Cat(Cat(Cat(Cat(Cat(Eps, X), G2), Inner(2)), Opt(D)), Opt(D)), Opt(D)), ShortSecond())
  {
    hide Emit, SameCode, Inner, X, D, G2;
    var d := Opt(D);
    var b := Cat(Cat(Cat(Cat(Eps, X), G2), Inner(2)), d);
    RowParts();
    SameInner(2);
    SameCat(d, d, d, d);
    SameRow(Cat(Eps, X), G2, Inner(2), d, Cat(d, d), X, Group(2, 0, Lit([97])), Group(3, 1, Opt(Group(4, 0, C))), d,
      Cat(d, d));
    CodeOf(Cat(b, Cat(d, d)), ShortSecond());
    Rebracket(b, d, d);
    SameOnward(Cat(Cat(b, d), d), Cat(b, Cat(d, d)), ShortSecond());
  }

  lemma {:induction false} CodeOf(s: Re, t: Re)
    requires SameCode(s, t)
    ensures WellFormed(s)
  {
    hide Emit, WellFormed;
  }

  lemma {:induction false} ShortHas()
    ensures HasCode(Alt(Cat(X, Group(1, 0, Lit([97, 98]))), ShortSecond()), SHORT)
  {
    hide Emit, SHORT;
    ShortCode();
    assert SHORT_TREE == Alt(Cat(X, Group(1, 0, Lit([97, 98]))), ShortSecond());
  }

  // ---- Ranges, and texts that do not compile ----

  // `[x-y]' with plain bounds compiles to the set of that range, if the range is not inverted.
  lemma {:induction false} RangeText(x: byte, y: byte)
    requires x != RIGHT_BRACKET && x != LEFT_BRACKET && x != HYPHEN && x != HAT && y != RIGHT_BRACKET
    ensures Parse([91, x, 45, y, 93]) ==
      if x <= y then Ok(Compiled(Cat(Eps, Set(false, Trimmed(MapOf([Range(x, y)])))), 0)) else Err(ERange)
  {
    hide Used, ParseFrom, MapOf, Trimmed, Members;
    var pat: seq<byte> := [91, x, 45, y, 93];
    Starts(pat);
    RangeMember(pat, x, y);
    if x <= y {
      var st := Top(Eps, Set(false, Trimmed(MapOf([Range(x, y)]))), false, 0);
      Next(pat, 0, START, st, 5);
      ParseEnds(pat, 5, st);
      assert Tree([], Cat(Eps, st.level.last.value)) == Cat(Eps, st.level.last.value);
    } else {
      Refused(pat, BadBracket(ERange), ERange);
    }
  }

  lemma {:induction false} RangeMember(pat: seq<byte>, x: byte, y: byte)
    requires pat == [91, x, 45, y, 93]
    requires x != RIGHT_BRACKET && x != LEFT_BRACKET && x != HYPHEN && x != HAT && y != RIGHT_BRACKET
    ensures Members(pat, 1, 1, []) == if x <= y then Ok(([Range(x, y)], 5)) else Err(ERange)
  {
    assert [] + [Range(x, y)] == [Range(x, y)];
    if x <= y { LastMember(pat, 4, [Range(x, y)]); }
  }

  // The first construct is refused.
  lemma {:induction false} Refused(pat: seq<byte>, tok: Token, e: Error)
    requires 0 < |pat| <= 100 && Lex(pat, 0).0 == tok && (tok == BadBracket(e) || tok == Illegal(e))
    ensures Parse(pat) == Err(e)
  {
    hide ParseFrom, Lex;
    Starts(pat);
    ParseSteps(pat, 0, START);
  }

  // An open parenthesis, an open bracket, a backslash at the end; and an interval, which is outside the model.
  lemma {:induction false} UnfinishedTexts()
    ensures Parse([40]) == Err(EParen) && Parse([91]) == Err(EBracket) && Parse([91, 97]) == Err(EBracket)
    ensures Parse([92]) == Err(EEscape) && Parse([123]) == Err(Unsupported)
  {
    hide ParseFrom, Used, Upto;
    Starts([40]);
    OnOpen([40], 0, START);
    OpenEnds();
    Refused([91], Illegal(EBracket), EBracket);
    assert Members([91, 97], 1, 1, []) == Err(EBracket);
    Refused([91, 97], BadBracket(EBracket), EBracket);
    Refused([92], Illegal(EEscape), EEscape);
    Refused([123], Illegal(Unsupported), Unsupported);
  }

  lemma {:induction false} OpenEnds()
    requires Upto([40], 1, PState([] + [Saved([], Eps, 1)], EMPTY, 1))
    ensures Parse([40]) == Err(EParen)
  {
    hide ParseFrom, Used;
    ParseEnds([40], 1, PState([] + [Saved([], Eps, 1)], EMPTY, 1));
  }

  // A closing parenthesis with nothing to close stands for itself.
  lemma {:induction false} LoneText()
    ensures Parse([41]) == Ok(Compiled(Cat(Eps, Lit([41])), 0))
  {
    hide Used, ParseFrom;
    var st := Top(Eps, Lit([41]), true, 0);
    Starts([41]);
    Next([41], 0, START, st, 1);
    ParseEnds([41], 1, st);
    assert Tree([], Cat(Eps, Lit([41]))) == Cat(Eps, Lit([41]));
  }

  // After a bar such a parenthesis leaves a lone failure point behind, before the literal: a|)
  lemma {:induction false} LoneAfterBar()
    ensures var c := Parse([97, 124, 41]);
      c == Ok(Compiled(Alt(Cat(Eps, Lit([97])), Cat(Cat(Eps, Dummy), Lit([41]))), 0))
  {
    hide Used, ParseFrom;
    var pat: seq<byte>, alts := [97, 124, 41], [Cat(Eps, Lit([97]))];
    var st := PState([], Level(alts, Cat(Eps, Dummy), Some(Lit([41])), true), 0);
    assert [] + [Cat(Eps, Lit([97]))] == alts && alts[1..] == [];
    Starts(pat);
    OnChar(pat, 0, START);
    OnBar(pat, 1, Top(Eps, Lit([97]), true, 0));
    Next(pat, 2, PState([], Level(alts, Eps, None, false), 0), st, 3);
    ParseEnds(pat, 3, st);
    assert Tree(alts, Current(st.level)) == Alt(alts[0], Tree([], Current(st.level)));
  }

  // ---- The code of single constructs ----

  // (x|y): start_memory, on_failure_jump, x, jump_past_alt, y, push_dummy_failure, stop_memory
  lemma {:induction false} ChoiceCode()
    ensures WellFormed(Group(1, 0, Alt(Lit([120]), Lit([121]))))
    ensures Emit(Group(1, 0, Alt(Lit([120]), Lit([121])))) ==
      [5, 1, 0] + [14, 6, 0] + [1, 1, 120] + [13, 3, 0] + [1, 1, 121] + [19] + [6, 1, 0]
  {
    assert Emit(Lit([120])) == [1, 1, 120] && Emit(Lit([121])) == [1, 1, 121];
  }

  // x+: dummy_failure_jump over the loop's own on_failure_jump, x, maybe_pop_jump back
  lemma {:induction false} PlusCode()
    ensures Emit(Plus(Lit([120]))) == [18, 3, 0] + [14, 6, 0] + [1, 1, 120] + [17, 247, 255]
  {
    assert Emit(Lit([120])) == [1, 1, 120];
  }
}
