// Inputs on which the matcher as written falls short, one for each restriction on the theorems.
module RegexExamples {
  import opened Bytes
  import opened RegexTree
  import opened RegexCode
  import opened RegexResid
  import opened RegexMachine
  import opened Wrappers

  function Plain(text: seq<byte>): Config {
    Config(Env(text, false, false), 0, 0)
  }

  function Point(p: int, d: nat): Frame {
    Frame(At(p), d, NO_LOWEST_ACTIVE_REG, NO_HIGHEST_ACTIVE_REG, [])
  }

  // A state of a program without groups.
  function Plainly(p: int, d: nat, stack: seq<Frame>, size: nat, best: Option<nat>): State {
    State(p, d, stack, size, NO_LOWEST_ACTIVE_REG, NO_HIGHEST_ACTIVE_REG, [IDLE], best)
  }

  // ---- Single commands of programs without groups ----

  lemma {:induction false} Forks(code: seq<byte>, cfg: Config, p: nat, d: nat, stack: seq<Frame>, size: nat,
        best: Option<nat>, exit: int)
    requires p + 3 < |code| && Fetch(code, p) == OnFail(exit) && code[p + 3] != START_MEMORY && code[p + 3] != NO_OP
    requires Avail(stack) + 4 <= size
    ensures Step(code, cfg, Plainly(p, d, stack, size, best)) ==
      Go(Plainly(p + 3, d, stack + [Point(exit, d)], size, best))
  {
    hide Fetch;
    var st := Plainly(p, d, stack, size, best);
    assert SkipNoOps(code, p + 3) == p + 3;
    assert CoverGroup(code, st, p + 3) == st;
    assert Saved(st.info, st.low, st.high) == [];
    assert Push(cfg, st, At(exit), d) == Some(Plainly(p, d, stack + [Point(exit, d)], size, best));
  }

  lemma {:induction false} Eats(code: seq<byte>, cfg: Config, p: nat, d: nat, stack: seq<Frame>, size: nat,
        best: Option<nat>, p': nat, d': nat)
    requires p < |code| && Moves(code, cfg.env, p, d) == To(p', d')
    requires var i := Fetch(code, p); i.Exact? || i.CharSet? || i.BegLine?
    ensures Step(code, cfg, Plainly(p, d, stack, size, best)) == Go(Plainly(p', d', stack, size, best))
  {
    hide Fetch, Moves;
    assert MarkMatched([IDLE], NO_LOWEST_ACTIVE_REG, NO_HIGHEST_ACTIVE_REG) == [IDLE];
  }

  lemma {:induction false} Resumes(code: seq<byte>, cfg: Config, p: int, d: nat, stack: seq<Frame>, size: nat,
        best: Option<nat>, exit: int, d': nat)
    requires !LoopJumpAt(code, exit)
    ensures Fail(code, cfg, Plainly(p, d, stack + [Point(exit, d')], size, best)) ==
      Go(Plainly(exit, d', stack, size, best))
  {
    var s := stack + [Point(exit, d')];
    assert s[..|s| - 1] == stack && s[|s| - 1] == Point(exit, d');
    assert Restored([IDLE], NO_LOWEST_ACTIVE_REG, []) == [IDLE];
  }

  lemma {:induction false} Stuck(code: seq<byte>, cfg: Config, p: nat, d: nat, stack: seq<Frame>, size: nat,
        best: Option<nat>)
    requires p < |code| && Moves(code, cfg.env, p, d) == Move.Stuck
    requires var i := Fetch(code, p); i.Exact? || i.CharSet? || i.BegLine?
    ensures Step(code, cfg, Plainly(p, d, stack, size, best)) == Fail(code, cfg, Plainly(p, d, stack, size, best))
  {
    hide Fetch, Moves, Fail;
  }

  lemma {:induction false} Drops(code: seq<byte>, cfg: Config, p: nat, d: nat, stack: seq<Frame>, f: Frame, size: nat,
        best: Option<nat>, head: int)
    requires p < |code| && Fetch(code, p) == Goto(MaybePop, head) && Decide(code, p)
    ensures Step(code, cfg, Plainly(p, d, stack + [f], size, best)) == Go(Plainly(head, d, stack, size, best))
  {
    hide Fetch, Decide;
    var s := stack + [f];
    assert s[..|s| - 1] == stack;
  }

  // ---- x|xy against xyz returns 1, though xy matches ----

  const X_OR_XY: seq<byte> := [14, 6, 0, 1, 1, 120, 13, 4, 0, 1, 2, 120, 121]
  const XYZ: seq<byte> := [120, 121, 122]

  lemma {:induction false} ShorterCandidateKept()
    ensures Emit(Alt(Lit([120]), Lit([120, 121]))) == X_OR_XY
    ensures Match(X_OR_XY, Plain(XYZ), 6) == Done(1)
    ensures Spans(Alt(Lit([120]), Lit([120, 121])), Plain(XYZ).env, 0, 2)
  {
    hide Step, Run, Fetch, Moves, Emit;
    ShorterCode();
    ShorterMoves();
    ShorterEnds();
    var code, cfg := X_OR_XY, Plain(XYZ);
    assert [] + [Point(9, 0)] == [Point(9, 0)];
    Forks(code, cfg, 0, 0, [], 5, None, 9);
    Eats(code, cfg, 3, 0, [Point(9, 0)], 5, None, 6, 1);
    Eats(code, cfg, 9, 0, [], 5, Some(1), 13, 2);
    PlainStart(cfg);
    SixSteps(code, cfg, Plainly(0, 0, [], 5, None), Plainly(3, 0, [Point(9, 0)], 5, None),
      Plainly(6, 1, [Point(9, 0)], 5, None), Plainly(13, 1, [Point(9, 0)], 5, None),
      Plainly(9, 0, [], 5, Some(1)), Plainly(13, 2, [], 5, Some(1)), 1);
  }

  lemma {:induction false} PlainStart(cfg: Config)
    requires cfg.pos == 0 && cfg.nsub == 0
    ensures Start(cfg) == Go(Plainly(0, 0, [], 5, None))
  {
    assert seq(1, _ => IDLE) == [IDLE];
  }

  // The jump past the second alternative, the first candidate, and the last one.
  lemma {:induction false} ShorterEnds()
    ensures Step(X_OR_XY, Plain(XYZ), Plainly(6, 1, [Point(9, 0)], 5, None)) ==
      Go(Plainly(13, 1, [Point(9, 0)], 5, None))
    ensures Step(X_OR_XY, Plain(XYZ), Plainly(13, 1, [Point(9, 0)], 5, None)) == Go(Plainly(9, 0, [], 5, Some(1)))
    ensures Step(X_OR_XY, Plain(XYZ), Plainly(13, 2, [], 5, Some(1))) == Done(1)
  {
    hide Fetch, Fail;
    ShorterMoves();
    assert [] + [Point(9, 0)] == [Point(9, 0)];
    Resumes(X_OR_XY, Plain(XYZ), 13, 1, [], 5, Some(1), 9, 0);
  }

  lemma {:induction false} SixSteps(code: seq<byte>, cfg: Config, s0: State, s1: State, s2: State, s3: State,
        s4: State, s5: State, r: int)
    requires Step(code, cfg, s0) == Go(s1) && Step(code, cfg, s1) == Go(s2) && Step(code, cfg, s2) == Go(s3)
    requires Step(code, cfg, s3) == Go(s4) && Step(code, cfg, s4) == Go(s5) && Step(code, cfg, s5) == Done(r)
    ensures Run(code, cfg, Go(s0), 6) == Done(r)
  {
    hide Step;
    assert Run(code, cfg, Go(s4), 2) == Done(r);
    assert Run(code, cfg, Go(s2), 4) == Done(r);
  }

  lemma {:induction false} ShorterCode()
    ensures Emit(Alt(Lit([120]), Lit([120, 121]))) == X_OR_XY
    ensures Spans(Alt(Lit([120]), Lit([120, 121])), Plain(XYZ).env, 0, 2)
  {
    assert Emit(Lit([120])) == [1, 1, 120];
    assert Emit(Lit([120, 121])) == [1, 2, 120, 121];
    assert XYZ[0..2] == [120, 121];
  }

  lemma {:induction false} ShorterMoves()
    ensures Fetch(X_OR_XY, 0) == OnFail(9) && Fetch(X_OR_XY, 3) == Exact([120])
    ensures Fetch(X_OR_XY, 9) == Exact([120, 121])
    ensures Moves(X_OR_XY, Plain(XYZ).env, 3, 0) == To(6, 1)
    ensures Moves(X_OR_XY, Plain(XYZ).env, 9, 0) == To(13, 2)
    ensures Fetch(X_OR_XY, 6) == Goto(PastAlt, 13)
  {
    ShorterFetches();
    assert XYZ[0..1] == [120] && XYZ[0..2] == [120, 121];
  }

  lemma {:induction false} ShorterFetches()
    ensures Fetch(X_OR_XY, 0) == OnFail(9) && Fetch(X_OR_XY, 6) == Goto(PastAlt, 13)
    ensures Fetch(X_OR_XY, 3) == Exact([120]) && Fetch(X_OR_XY, 9) == Exact([120, 121])
  {
    hide Fetch;
    assert X_OR_XY[5..6] == [120];
    assert X_OR_XY[11..13] == [120, 121];
    DecodesExact(X_OR_XY, 3, [120]);
    DecodesExact(X_OR_XY, 9, [120, 121]);
    Decodes(X_OR_XY, 0, 14, 6, 0);
    Decodes(X_OR_XY, 6, 13, 4, 0);
  }

  // ---- [a\377]*a against aa returns -1, though aa matches ----

  // The full bitmap holding the characters 97 and 255.
  const WIDE_MAP: seq<byte> :=
    [0, 0, 0, 0, 0, 0, 0, 0, 0, 0, 0, 0, 2, 0, 0, 0, 0, 0, 0, 0, 0, 0, 0, 0, 0, 0, 0, 0, 0, 0, 0, 128]
  const WIDE_SET := Set(false, WIDE_MAP)
  const WIDE_LOOP: seq<byte> := [14, 37, 0, 3, 32] + WIDE_MAP + [17, 216, 255, 1, 1, 97]
  const AA: seq<byte> := [97, 97]

  lemma {:induction false} WideLoopMatchesNothing()
    ensures Emit(Cat(Star(WIDE_SET), Lit([97]))) == WIDE_LOOP
    ensures Match(WIDE_LOOP, Plain(AA), 10) == Done(-1)
    ensures Spans(Cat(Star(WIDE_SET), Lit([97])), Plain(AA).env, 0, 2)
  {
    hide Step, Run, Fetch, Moves, Emit, Spans;
    WideCode();
    WideSpans();
    WideRun();
  }

  lemma {:induction false} WideCode()
    ensures Emit(Cat(Star(WIDE_SET), Lit([97]))) == WIDE_LOOP
  {
    assert Emit(WIDE_SET) == [3, 32] + WIDE_MAP;
    assert Emit(Lit([97])) == [1, 1, 97];
    assert JumpCode(ON_FAILURE_JUMP, 37) == [14, 37, 0];
    assert JumpCode(MAYBE_POP_JUMP, -40) == [17, 216, 255];
    assert Emit(Star(WIDE_SET)) == [14, 37, 0] + ([3, 32] + WIDE_MAP) + [17, 216, 255];
  }

  lemma {:induction false} InWide()
    ensures InMap(WIDE_MAP, 97)
  {
    assert WIDE_MAP[12] == 2;
    assert Bit(2, 1) == Bit(1, 0);
  }

  lemma {:induction false} WideSpans()
    ensures Spans(Cat(Star(WIDE_SET), Lit([97])), Plain(AA).env, 0, 2)
  {
    InWide();
    var env := Plain(AA).env;
    assert Spans(WIDE_SET, env, 0, 1);
    assert Spans(Star(WIDE_SET), env, 1, 1);
    assert Spans(Star(WIDE_SET), env, 0, 1);
    assert AA[1..2] == [97];
    assert Spans(Lit([97]), env, 1, 2);
  }

  lemma {:induction false} WideFetches()
    ensures |WIDE_LOOP| == 43
    ensures Fetch(WIDE_LOOP, 0) == OnFail(40) && Fetch(WIDE_LOOP, 3) == CharSet(false, WIDE_MAP)
    ensures Fetch(WIDE_LOOP, 37) == Goto(MaybePop, 0) && Fetch(WIDE_LOOP, 40) == Exact([97])
    ensures WIDE_LOOP[3] == 3
  {
    assert WIDE_LOOP[5..37] == WIDE_MAP;
    assert WIDE_LOOP[42..43] == [97];
  }

  lemma {:induction false} WideDecides()
    ensures Decide(WIDE_LOOP, 37)
  {
    assert WIDE_LOOP[40] == 1 && WIDE_LOOP[42] == 97 && WIDE_LOOP[3] == 3 && WIDE_LOOP[4] == 32;
    assert SkipGroups(WIDE_LOOP, 40) == 40;
    assert WIDE_LOOP[38] == 216 && WIDE_LOOP[39] == 255 && JumpTarget(WIDE_LOOP, 37) == 0;
  }

  lemma {:induction false} WideMoves()
    ensures var env := Plain(AA).env;
      && Moves(WIDE_LOOP, env, 3, 0) == To(37, 1) && Moves(WIDE_LOOP, env, 3, 1) == To(37, 2)
      && Moves(WIDE_LOOP, env, 3, 2) == Move.Stuck && Moves(WIDE_LOOP, env, 40, 2) == Move.Stuck
  {
    hide Fetch;
    WideFetches();
    InWide();
  }

  lemma {:induction false} WideRun()
    ensures Match(WIDE_LOOP, Plain(AA), 10) == Done(-1)
  {
    hide Step, Run, Fetch, Moves, Fail, Decide;
    var code, cfg := WIDE_LOOP, Plain(AA);
    WideFetches();
    WideMoves();
    PlainStart(cfg);
    WideRound(0);
    WideRound(1);
    assert [] + [Point(40, 2)] == [Point(40, 2)];
    Forks(code, cfg, 0, 2, [], 5, None, 40);
    Stuck(code, cfg, 3, 2, [Point(40, 2)], 5, None);
    NoLoopJumpAt40();
    Resumes(code, cfg, 3, 2, [], 5, None, 40, 2);
    Stuck(code, cfg, 40, 2, [], 5, None);
    GivesUp(code, cfg, 40, 2, 5);
    ThreeSteps(code, cfg, Plainly(0, 2, [], 5, None), Plainly(3, 2, [Point(40, 2)], 5, None),
      Plainly(40, 2, [], 5, None), -1);
    RunJoin(code, cfg, Go(Plainly(0, 1, [], 5, None)), 3, 3);
    RunJoin(code, cfg, Go(Plainly(0, 0, [], 5, None)), 3, 6);
    RunStops(code, cfg, Go(Plainly(0, 0, [], 5, None)), 9, 1);
  }

  lemma {:induction false} NoLoopJumpAt40()
    ensures !LoopJumpAt(WIDE_LOOP, 40)
  {
    assert WIDE_LOOP[40] == 1;
  }

  lemma {:induction false} GivesUp(code: seq<byte>, cfg: Config, p: int, d: nat, size: nat)
    ensures Fail(code, cfg, Plainly(p, d, [], size, None)) == Done(-1)
  {
  }

  // One round of the loop, from its head back to its head: the failure point pushed is dropped.
  lemma {:induction false} WideRound(d: nat)
    requires d < 2
    ensures Run(WIDE_LOOP, Plain(AA), Go(Plainly(0, d, [], 5, None)), 3) == Go(Plainly(0, d + 1, [], 5, None))
  {
    hide Step, Fetch, Moves, Decide;
    var code, cfg := WIDE_LOOP, Plain(AA);
    WideFetches();
    WideMoves();
    WideDecides();
    assert [] + [Point(40, d)] == [Point(40, d)];
    Forks(code, cfg, 0, d, [], 5, None, 40);
    Eats(code, cfg, 3, d, [Point(40, d)], 5, None, 37, d + 1);
    Drops(code, cfg, 37, d + 1, [], Point(40, d), 5, None, 0);
    assert Run(code, cfg, Go(Plainly(37, d + 1, [Point(40, d)], 5, None)), 1) == Go(Plainly(0, d + 1, [], 5, None));
  }

  lemma {:induction false} ThreeSteps(code: seq<byte>, cfg: Config, s0: State, s1: State, s2: State, r: int)
    requires Step(code, cfg, s0) == Go(s1) && Step(code, cfg, s1) == Go(s2) && Step(code, cfg, s2) == Done(r)
    ensures Run(code, cfg, Go(s0), 3) == Done(r)
  {
    hide Step;
    assert Run(code, cfg, Go(s2), 1) == Done(r);
  }

  lemma {:induction false} RunJoin(code: seq<byte>, cfg: Config, o: Outcome, n: nat, m: nat)
    ensures Run(code, cfg, o, n + m) == Run(code, cfg, Run(code, cfg, o, n), m)
    decreases n
  {
    hide Step;
    if n > 0 && o.Go? { RunJoin(code, cfg, Step(code, cfg, o.st), n - 1, m); }
    else if !o.Go? { RunStops(code, cfg, o, 0, m); }
  }

  lemma {:induction false} RunStops(code: seq<byte>, cfg: Config, o: Outcome, n: nat, m: nat)
    requires !Run(code, cfg, o, n).Go?
    ensures Run(code, cfg, o, n + m) == Run(code, cfg, o, n)
    decreases n
  {
    hide Step;
    if n > 0 && o.Go? { RunStops(code, cfg, Step(code, cfg, o.st), n - 1, m); }
  }

  // ---- a*^* against the empty text never returns ----

  const STAR_STAR: seq<byte> := [14, 13, 0, 14, 6, 0, 1, 1, 97, 17, 247, 255, 8, 17, 240, 255]

  lemma {:induction false} LoopOverLoopNeverReturns(n: nat)
    ensures Emit(Star(Cat(Star(Lit([97])), Bol))) == STAR_STAR
    ensures Match(STAR_STAR, Plain([]), n).Go?
  {
    hide Step, Run, Fetch, Moves, Emit;
    StarStarCode();
    PlainStart(Plain([]));
    FirstRound();
    var o := Go(Plainly(0, 0, [], 5, None));
    if n < 5 {
      if !Run(STAR_STAR, Plain([]), o, n).Go? { RunStops(STAR_STAR, Plain([]), o, n, 5 - n); }
    } else {
      RunJoin(STAR_STAR, Plain([]), o, 5, n - 5);
      LaterRounds(n - 5);
    }
  }

  lemma {:induction false} StarStarCode()
    ensures Emit(Star(Cat(Star(Lit([97])), Bol))) == STAR_STAR
  {
    hide JumpCode;
    StarACode();
    var body := Cat(Star(Lit([97])), Bol);
    assert Emit(body) == [14, 6, 0, 1, 1, 97, 17, 247, 255] + [8];
    OuterJumps();
  }

  lemma {:induction false} StarACode()
    ensures Emit(Star(Lit([97]))) == [14, 6, 0, 1, 1, 97, 17, 247, 255]
  {
    assert Emit(Lit([97])) == [1, 1, 97];
  }

  lemma {:induction false} OuterJumps()
    ensures JumpCode(ON_FAILURE_JUMP, 13) == [14, 13, 0] && JumpCode(MAYBE_POP_JUMP, -16) == [17, 240, 255]
  {
  }

  lemma {:induction false} StarStarFetches()
    ensures Fetch(STAR_STAR, 0) == OnFail(16) && Fetch(STAR_STAR, 3) == OnFail(12)
    ensures Fetch(STAR_STAR, 6) == Exact([97]) && Fetch(STAR_STAR, 12) == BegLine
    ensures Fetch(STAR_STAR, 13) == Goto(MaybePop, 0)
    ensures Decide(STAR_STAR, 13) && !LoopJumpAt(STAR_STAR, 12)
  {
    assert STAR_STAR[8..9] == [97];
    StarStarJumps();
  }

  lemma {:induction false} StarStarJumps()
    ensures Fetch(STAR_STAR, 0) == OnFail(16) && Fetch(STAR_STAR, 3) == OnFail(12)
    ensures Fetch(STAR_STAR, 13) == Goto(MaybePop, 0)
  {
    hide Fetch;
    Decodes(STAR_STAR, 0, 14, 13, 0);
    Decodes(STAR_STAR, 3, 14, 6, 0);
    Decodes(STAR_STAR, 13, 17, 240, 255);
  }

  // From the head of the loop back to it, on a stack of the given size.
  lemma {:induction false} Round(size: nat)
    requires size >= 10
    ensures Run(STAR_STAR, Plain([]), Go(Plainly(3, 0, [Point(16, 0)], size, None)), 4) ==
      Go(Plainly(0, 0, [], size, None))
  {
    hide Step, Fetch, Moves, Fail, Decide, LoopJumpAt;
    var code, cfg := STAR_STAR, Plain([]);
    StarStarFetches();
    StarStarMoves();
    var one, two := [Point(16, 0)], [Point(16, 0)] + [Point(12, 0)];
    assert [] + [Point(16, 0)] == one;
    assert one[..0] == [];
    assert Avail(one) == 4;
    Forks(code, cfg, 3, 0, one, size, None, 12);
    Stuck(code, cfg, 6, 0, two, size, None);
    Resumes(code, cfg, 6, 0, one, size, None, 12, 0);
    Eats(code, cfg, 12, 0, one, size, None, 13, 0);
    Drops(code, cfg, 13, 0, [], Point(16, 0), size, None, 0);
    assert Run(code, cfg, Go(Plainly(13, 0, one, size, None)), 1) == Go(Plainly(0, 0, [], size, None));
    assert Run(code, cfg, Go(Plainly(12, 0, one, size, None)), 2) == Go(Plainly(0, 0, [], size, None));
  }

  lemma {:induction false} StarStarMoves()
    ensures Moves(STAR_STAR, Plain([]).env, 6, 0) == Move.Stuck && Moves(STAR_STAR, Plain([]).env, 12, 0) == To(13, 0)
  {
    hide Fetch;
    StarStarFetches();
  }

  // The first round grows the stack once, and ends where later rounds begin.
  lemma {:induction false} FirstRound()
    ensures Run(STAR_STAR, Plain([]), Go(Plainly(0, 0, [], 5, None)), 5) == Go(Plainly(0, 0, [], 10, None))
  {
    hide Step, Fetch, Moves, Fail, Decide, LoopJumpAt;
    var code, cfg := STAR_STAR, Plain([]);
    StarStarFetches();
    StarStarMoves();
    var one, two := [Point(16, 0)], [Point(16, 0)] + [Point(12, 0)];
    assert [] + [Point(16, 0)] == one;
    Forks(code, cfg, 0, 0, [], 5, None, 16);
    GrowingFork();
    Stuck(code, cfg, 6, 0, two, 10, None);
    Resumes(code, cfg, 6, 0, one, 10, None, 12, 0);
    Eats(code, cfg, 12, 0, one, 10, None, 13, 0);
    Drops(code, cfg, 13, 0, [], Point(16, 0), 10, None, 0);
    assert Run(code, cfg, Go(Plainly(13, 0, one, 10, None)), 1) == Go(Plainly(0, 0, [], 10, None));
    assert Run(code, cfg, Go(Plainly(12, 0, one, 10, None)), 2) == Go(Plainly(0, 0, [], 10, None));
    assert Run(code, cfg, Go(Plainly(6, 0, two, 10, None)), 3) == Go(Plainly(0, 0, [], 10, None));
  }

  lemma {:induction false} GrowingFork()
    ensures Step(STAR_STAR, Plain([]), Plainly(3, 0, [Point(16, 0)], 5, None))
      == Go(Plainly(6, 0, [Point(16, 0)] + [Point(12, 0)], 10, None))
  {
    hide Fetch;
    StarStarFetches();
    var st := Plainly(3, 0, [Point(16, 0)], 5, None);
    assert CoverGroup(STAR_STAR, st, 6) == st;
    assert Saved(st.info, st.low, st.high) == [];
    assert st.stack[..0] == [];
    assert Avail(st.stack) == 4;
    assert Grown(5, 8, 4) == Some(10);
  }

  lemma {:induction false} LaterRounds(n: nat)
    ensures Run(STAR_STAR, Plain([]), Go(Plainly(0, 0, [], 10, None)), n).Go?
    decreases n
  {
    hide Step, Fetch, Moves;
    var code, cfg, o := STAR_STAR, Plain([]), Go(Plainly(0, 0, [], 10, None));
    StarStarFetches();
    assert [] + [Point(16, 0)] == [Point(16, 0)];
    Forks(code, cfg, 0, 0, [], 10, None, 16);
    Round(10);
    assert Run(code, cfg, o, 5) == o;
    if n < 5 {
      if !Run(code, cfg, o, n).Go? { RunStops(code, cfg, o, n, 5 - n); }
    } else {
      RunJoin(code, cfg, o, 5, n - 5);
      LaterRounds(n - 5);
    }
  }

  // A three-byte command, read off its bytes.
  lemma {:induction false} Decodes(code: seq<byte>, p: nat, op: byte, x: byte, y: byte)
    requires p + 3 <= |code| && code[p] == op && code[p + 1] == x && code[p + 2] == y
    ensures op == ON_FAILURE_JUMP ==> Fetch(code, p) == OnFail(p + 3 + ExtractNumber(x, y))
    ensures op == MAYBE_POP_JUMP ==> Fetch(code, p) == Goto(MaybePop, p + 3 + ExtractNumber(x, y))
    ensures op == JUMP_PAST_ALT ==> Fetch(code, p) == Goto(PastAlt, p + 3 + ExtractNumber(x, y))
    ensures op == START_MEMORY ==> Fetch(code, p) == StartMem(x, y)
    ensures op == STOP_MEMORY ==> Fetch(code, p) == StopMem(x, y)
  {
  }

  // A literal run, read off its bytes.
  lemma {:induction false} DecodesExact(code: seq<byte>, p: nat, cs: seq<byte>)
    requires p + 2 + |cs| <= |code| && 0 < |cs| < 256 && code[p] == EXACTN && code[p + 1] == |cs|
    requires code[p + 2..p + 2 + |cs|] == cs
    ensures Fetch(code, p) == Exact(cs)
  {
  }

  // ---- (aaa?)* against aaaa returns 3, though the whole text matches ----

  const GROUP_LOOP: seq<byte> := [14, 19, 0, 5, 1, 0, 1, 2, 97, 97, 14, 3, 0, 1, 1, 97, 6, 1, 0, 17, 234, 255]
  const AAAA: seq<byte> := [97, 97, 97, 97]
  const GROUP_TREE := Star(Group(1, 0, Cat(Lit([97, 97]), Opt(Lit([97])))))

  // A state in which register 1 is active between low and high, or no register is.
  function Grouped(p: int, d: nat, stack: seq<Frame>, size: nat, covered: bool, one: RegInfo,
        best: Option<nat>): State
  {
    State(p, d, stack, size, if covered then 1 else NO_LOWEST_ACTIVE_REG, if covered then 1 else NO_HIGHEST_ACTIVE_REG,
      [IDLE, one], best)
  }

  function Saves(p: int, d: nat, one: RegInfo): Frame {
    Frame(At(p), d, 1, 1, [one])
  }

  const AAAA_RUN := Config(Env(AAAA, false, false), 0, 1)
  const BOTTOM := Saves(22, 0, IDLE)
  const INSIDE := RegInfo(true, true)
  const OUTSIDE := RegInfo(false, true)
  const BEGUN := RegInfo(true, false)

  lemma {:induction false} GroupFetches()
    ensures |GROUP_LOOP| == 22
    ensures Fetch(GROUP_LOOP, 0) == OnFail(22) && Fetch(GROUP_LOOP, 3) == StartMem(1, 0)
    ensures Fetch(GROUP_LOOP, 6) == Exact([97, 97]) && Fetch(GROUP_LOOP, 10) == OnFail(16)
    ensures Fetch(GROUP_LOOP, 13) == Exact([97])
    ensures Fetch(GROUP_LOOP, 16) == StopMem(1, 0) && Fetch(GROUP_LOOP, 19) == Goto(MaybePop, 0)
    ensures GROUP_LOOP[3] == 5 && GROUP_LOOP[4] == 1 && GROUP_LOOP[5] == 0 && GROUP_LOOP[13] == 1 && GROUP_LOOP[14] == 1
  {
    hide Fetch;
    GroupJumpFetches();
    GroupMemoryFetches();
    GroupExactFetches();
  }

  lemma {:induction false} GroupExactFetches()
    ensures Fetch(GROUP_LOOP, 6) == Exact([97, 97]) && Fetch(GROUP_LOOP, 13) == Exact([97])
  {
    hide Fetch;
    assert GROUP_LOOP[8..10] == [97, 97];
    assert GROUP_LOOP[15..16] == [97];
    DecodesExact(GROUP_LOOP, 6, [97, 97]);
    DecodesExact(GROUP_LOOP, 13, [97]);
  }

  lemma {:induction false} GroupJumpFetches()
    ensures Fetch(GROUP_LOOP, 0) == OnFail(22) && Fetch(GROUP_LOOP, 10) == OnFail(16)
    ensures Fetch(GROUP_LOOP, 19) == Goto(MaybePop, 0)
  {
    hide Fetch;
    Decodes(GROUP_LOOP, 0, 14, 19, 0);
    Decodes(GROUP_LOOP, 10, 14, 3, 0);
    Decodes(GROUP_LOOP, 19, 17, 234, 255);
  }

  lemma {:induction false} GroupMemoryFetches()
    ensures Fetch(GROUP_LOOP, 3) == StartMem(1, 0) && Fetch(GROUP_LOOP, 16) == StopMem(1, 0)
  {
    hide Fetch;
    Decodes(GROUP_LOOP, 3, 5, 1, 0);
    Decodes(GROUP_LOOP, 16, 6, 1, 0);
  }

  const GROUP_BODY := Cat(Lit([97, 97]), Opt(Lit([97])))

  lemma {:induction false} GroupCode()
    ensures Emit(GROUP_TREE) == GROUP_LOOP
  {
    hide JumpCode;
    GroupBodyCode();
    assert Emit(Group(1, 0, GROUP_BODY)) == [5, 1, 0] + [1, 2, 97, 97, 14, 3, 0, 1, 1, 97] + [] + [6, 1, 0];
    GroupJumps();
  }

  lemma {:induction false} GroupJumps()
    ensures JumpCode(ON_FAILURE_JUMP, 19) == [14, 19, 0] && JumpCode(MAYBE_POP_JUMP, -22) == [17, 234, 255]
  {
  }

  lemma {:induction false} GroupBodyCode()
    ensures Emit(GROUP_BODY) == [1, 2, 97, 97, 14, 3, 0, 1, 1, 97]
  {
    assert Emit(Lit([97, 97])) == [1, 2, 97, 97] && Emit(Lit([97])) == [1, 1, 97];
    assert Emit(Opt(Lit([97]))) == [14, 3, 0] + [1, 1, 97];
  }

  lemma {:induction false} GroupSpansAll()
    ensures Spans(GROUP_TREE, AAAA_RUN.env, 0, 4)
  {
    hide Spans;
    var env, g := AAAA_RUN.env, Group(1, 0, GROUP_BODY);
    BodySpans(0);
    BodySpans(2);
    StarJoin(g, env, 4, 4, 4);
    StarJoin(g, env, 2, 4, 4);
    StarJoin(g, env, 0, 2, 4);
  }

  lemma {:induction false} StarJoin(a: Re, env: Env, i: nat, k: nat, j: nat)
    requires i == j <= |env.text| || (i < k <= j && Spans(a, env, i, k) && Spans(Star(a), env, k, j))
    ensures Spans(Star(a), env, i, j)
  {
  }

  lemma {:induction false} BodySpans(i: nat)
    requires i == 0 || i == 2
    ensures Spans(Group(1, 0, GROUP_BODY), AAAA_RUN.env, i, i + 2)
  {
    var env := AAAA_RUN.env;
    assert AAAA[i..i + 2] == [97, 97];
    assert Spans(Lit([97, 97]), env, i, i + 2) && Spans(Opt(Lit([97])), env, i + 2, i + 2);
    CatJoin(Lit([97, 97]), Opt(Lit([97])), env, i, i + 2, i + 2);
  }

  lemma {:induction false} GroupRunMisses()
    ensures Emit(GROUP_TREE) == GROUP_LOOP
    ensures Match(GROUP_LOOP, AAAA_RUN, 12) == Done(3)
    ensures Spans(GROUP_TREE, AAAA_RUN.env, 0, 4)
  {
    hide Step, Run, Emit, Spans;
    GroupCode();
    GroupSpansAll();
    var code, cfg, o := GROUP_LOOP, AAAA_RUN, Go(Grouped(0, 0, [], 5, false, IDLE, None));
    assert Start(cfg) == o by { assert seq(2, _ => IDLE) == [IDLE, IDLE]; }
    FirstTurn();
    SecondTurn();
    RunJoin(code, cfg, o, 7, 5);
  }

  // The first turn takes aaa, and its closing jump drops the point inside the body, not its own.
  lemma {:induction false} FirstTurn()
    ensures Run(GROUP_LOOP, AAAA_RUN, Go(Grouped(0, 0, [], 5, false, IDLE, None)), 7)
      == Go(Grouped(0, 3, [BOTTOM], 20, false, OUTSIDE, None))
  {
    hide Step;
    var code, cfg, inner := GROUP_LOOP, AAAA_RUN, Saves(16, 2, INSIDE);
    EntersGroup(0, [], 5, IDLE);
    assert [] + [BOTTOM] == [BOTTOM];
    TakesTwo();
    ForksInside();
    TakesThird();
    LeavesGroup();
    assert Run(code, cfg, Go(Grouped(16, 3, [BOTTOM, inner], 20, true, INSIDE, None)), 2) ==
      Go(Grouped(0, 3, [BOTTOM], 20, false, OUTSIDE, None));
    assert Run(code, cfg, Go(Grouped(10, 2, [BOTTOM], 10, true, INSIDE, None)), 4) ==
      Go(Grouped(0, 3, [BOTTOM], 20, false, OUTSIDE, None));
    RunJoin(code, cfg, Go(Grouped(0, 0, [], 5, false, IDLE, None)), 3, 4);
    assert Run(code, cfg, Go(Grouped(6, 0, [BOTTOM], 10, true, BEGUN, None)), 1) ==
      Go(Grouped(10, 2, [BOTTOM], 10, true, INSIDE, None));
    assert Run(code, cfg, Go(Grouped(0, 0, [], 5, false, IDLE, None)), 3) ==
      Go(Grouped(10, 2, [BOTTOM], 10, true, INSIDE, None));
  }

  // At the head: the loop's point covers register 1; then the group begins.
  lemma {:induction false} EntersGroup(d: nat, stack: seq<Frame>, size: nat, one: RegInfo)
    requires Avail(stack) + 7 <= 20 && (size == 20 || (size == 5 && stack == []))
    ensures var size' := if size == 5 then 10 else 20;
      && Step(GROUP_LOOP, AAAA_RUN, Grouped(0, d, stack, size, false, one, None))
           == Go(Grouped(3, d, stack + [Saves(22, d, one)], size', true, one, None))
      && Step(GROUP_LOOP, AAAA_RUN, Grouped(3, d, stack + [Saves(22, d, one)], size', true, one, None))
           == Go(Grouped(6, d, stack + [Saves(22, d, one)], size', true, BEGUN, None))
  {
    hide Fetch;
    GroupFetches();
    var st := Grouped(0, d, stack, size, false, one, None);
    assert SkipNoOps(GROUP_LOOP, 3) == 3;
    assert CoverGroup(GROUP_LOOP, st, 3) == Grouped(0, d, stack, size, true, one, None);
    assert Saved([IDLE, one], 1, 1) == [one];
    assert stack == [] ==> Avail(stack) == 0;
    assert Grown(5, 7, 7) == Some(10);
    assert [IDLE, one][1 := BEGUN] == [IDLE, BEGUN];
  }

  lemma {:induction false} TakesTwo()
    ensures Step(GROUP_LOOP, AAAA_RUN, Grouped(6, 0, [BOTTOM], 10, true, BEGUN, None))
      == Go(Grouped(10, 2, [BOTTOM], 10, true, INSIDE, None))
  {
    hide Fetch;
    GroupFetches();
    assert AAAA[0..2] == [97, 97];
    assert MarkMatched([IDLE, BEGUN], 1, 1) == [IDLE, INSIDE];
  }

  lemma {:induction false} ForksInside()
    ensures Step(GROUP_LOOP, AAAA_RUN, Grouped(10, 2, [BOTTOM], 10, true, INSIDE, None))
      == Go(Grouped(13, 2, [BOTTOM, Saves(16, 2, INSIDE)], 20, true, INSIDE, None))
  {
    hide Fetch;
    GroupFetches();
    var st := Grouped(10, 2, [BOTTOM], 10, true, INSIDE, None);
    assert SkipNoOps(GROUP_LOOP, 13) == 13;
    assert CoverGroup(GROUP_LOOP, st, 13) == st;
    assert Saved([IDLE, INSIDE], 1, 1) == [INSIDE];
    assert [BOTTOM][..0] == [];
    assert Avail([BOTTOM]) == 7;
    assert Grown(10, 14, 7) == Some(20);
    assert [BOTTOM] + [Saves(16, 2, INSIDE)] == [BOTTOM, Saves(16, 2, INSIDE)];
  }

  lemma {:induction false} TakesThird()
    ensures var stack := [BOTTOM, Saves(16, 2, INSIDE)];
      Step(GROUP_LOOP, AAAA_RUN, Grouped(13, 2, stack, 20, true, INSIDE, None)) ==
        Go(Grouped(16, 3, stack, 20, true, INSIDE, None))
  {
    hide Fetch;
    GroupFetches();
    assert AAAA[2..3] == [97];
    assert MarkMatched([IDLE, INSIDE], 1, 1) == [IDLE, INSIDE];
  }

  lemma {:induction false} LeavesGroup()
    ensures var stack := [BOTTOM, Saves(16, 2, INSIDE)];
      && Step(GROUP_LOOP, AAAA_RUN, Grouped(16, 3, stack, 20, true, INSIDE, None)) ==
        Go(Grouped(19, 3, stack, 20, false, OUTSIDE, None))
      && Step(GROUP_LOOP, AAAA_RUN, Grouped(19, 3, stack, 20, false, OUTSIDE, None)) ==
        Go(Grouped(0, 3, [BOTTOM], 20, false, OUTSIDE, None))
  {
    hide Fetch;
    GroupFetches();
    var stack := [BOTTOM, Saves(16, 2, INSIDE)];
    assert [IDLE, INSIDE][1 := OUTSIDE] == [IDLE, OUTSIDE];
    assert SkipGroups(GROUP_LOOP, 22) == 22;
    assert stack[..1] == [BOTTOM];
  }

  // The second turn cannot take its aa from the last character, and the point that would have given
  // one back is gone.
  lemma {:induction false} SecondTurn()
    ensures Run(GROUP_LOOP, AAAA_RUN, Go(Grouped(0, 3, [BOTTOM], 20, false, OUTSIDE, None)), 5) == Done(3)
  {
    hide Step;
    var code, cfg, top := GROUP_LOOP, AAAA_RUN, Saves(22, 3, OUTSIDE);
    assert [BOTTOM][..0] == [];
    assert Avail([BOTTOM]) == 7;
    EntersGroup(3, [BOTTOM], 20, OUTSIDE);
    assert [BOTTOM] + [top] == [BOTTOM, top];
    FailsOnLast();
    assert Run(code, cfg, Go(Grouped(22, 3, [BOTTOM], 20, true, OUTSIDE, None)), 2) == Done(3);
    assert Run(code, cfg, Go(Grouped(3, 3, [BOTTOM, top], 20, true, OUTSIDE, None)), 4) == Done(3);
  }

  lemma {:induction false} FailsOnLast()
    ensures var stack := [BOTTOM, Saves(22, 3, OUTSIDE)];
      && Step(GROUP_LOOP, AAAA_RUN, Grouped(6, 3, stack, 20, true, BEGUN, None)) ==
        Go(Grouped(22, 3, [BOTTOM], 20, true, OUTSIDE, None))
    ensures Step(GROUP_LOOP, AAAA_RUN, Grouped(22, 3, [BOTTOM], 20, true, OUTSIDE, None)) ==
      Go(Grouped(22, 0, [], 20, true, IDLE, Some(3)))
    ensures Step(GROUP_LOOP, AAAA_RUN, Grouped(22, 0, [], 20, true, IDLE, Some(3))) == Done(3)
  {
    hide Fetch;
    GroupFetches();
    var stack := [BOTTOM, Saves(22, 3, OUTSIDE)];
    assert stack[..1] == [BOTTOM] && [BOTTOM][..0] == [];
    assert Restored([IDLE, BEGUN], 1, [OUTSIDE]) == [IDLE, OUTSIDE];
    assert Restored([IDLE, OUTSIDE], 1, [IDLE]) == [IDLE, IDLE];
  }

  // ---- (a?)* against the empty text returns 0: an empty turn leaves the loop ----

  const EMPTY_TURN: seq<byte> := [14, 15, 0, 5, 1, 0, 14, 3, 0, 1, 1, 97, 6, 1, 0, 17, 238, 255]
  const TURN_TREE := Star(Group(1, 0, Opt(Lit([97]))))
  const NO_TEXT := Config(Env([], false, false), 0, 1)
  const EXIT := Saves(18, 0, IDLE)

  lemma {:induction false} TurnCode()
    ensures Emit(TURN_TREE) == EMPTY_TURN
  {
    hide JumpCode;
    assert Emit(Lit([97])) == [1, 1, 97];
    TurnJumps();
    assert Emit(Opt(Lit([97]))) == [14, 3, 0] + [1, 1, 97];
    assert Emit(Group(1, 0, Opt(Lit([97])))) == [5, 1, 0] + [14, 3, 0, 1, 1, 97] + [] + [6, 1, 0];
  }

  lemma {:induction false} TurnJumps()
    ensures JumpCode(ON_FAILURE_JUMP, 15) == [14, 15, 0] && JumpCode(MAYBE_POP_JUMP, -18) == [17, 238, 255]
    ensures JumpCode(ON_FAILURE_JUMP, 3) == [14, 3, 0]
  {
  }

  lemma {:induction false} TurnFetches()
    ensures |EMPTY_TURN| == 18
    ensures Fetch(EMPTY_TURN, 0) == OnFail(18) && Fetch(EMPTY_TURN, 3) == StartMem(1, 0)
    ensures Fetch(EMPTY_TURN, 6) == OnFail(12)
    ensures Fetch(EMPTY_TURN, 9) == Exact([97]) && Fetch(EMPTY_TURN, 12) == StopMem(1, 0)
    ensures EMPTY_TURN[3] == 5 && EMPTY_TURN[4] == 1 && EMPTY_TURN[5] == 0 && EMPTY_TURN[9] == 1 && EMPTY_TURN[12] == 6
  {
    hide Fetch;
    assert EMPTY_TURN[11..12] == [97];
    Decodes(EMPTY_TURN, 0, 14, 15, 0);
    Decodes(EMPTY_TURN, 3, 5, 1, 0);
    Decodes(EMPTY_TURN, 6, 14, 3, 0);
    DecodesExact(EMPTY_TURN, 9, [97]);
    Decodes(EMPTY_TURN, 12, 6, 1, 0);
  }

  lemma {:induction false} TurnBegins()
    ensures Step(EMPTY_TURN, NO_TEXT, Grouped(0, 0, [], 5, false, IDLE, None)) ==
      Go(Grouped(3, 0, [EXIT], 10, true, IDLE, None))
    ensures Step(EMPTY_TURN, NO_TEXT, Grouped(3, 0, [EXIT], 10, true, IDLE, None)) ==
      Go(Grouped(6, 0, [EXIT], 10, true, BEGUN, None))
  {
    hide Fetch;
    TurnFetches();
    var st := Grouped(0, 0, [], 5, false, IDLE, None);
    assert SkipNoOps(EMPTY_TURN, 3) == 3;
    assert CoverGroup(EMPTY_TURN, st, 3) == Grouped(0, 0, [], 5, true, IDLE, None);
    assert Saved([IDLE, IDLE], 1, 1) == [IDLE];
    assert Avail([]) == 0 && Grown(5, 7, 7) == Some(10);
    assert [] + [EXIT] == [EXIT] && [IDLE, IDLE][1 := BEGUN] == [IDLE, BEGUN];
  }

  lemma {:induction false} TurnTakesNothing()
    ensures var f := Saves(12, 0, BEGUN);
      && Step(EMPTY_TURN, NO_TEXT, Grouped(6, 0, [EXIT], 10, true, BEGUN, None)) ==
           Go(Grouped(9, 0, [EXIT, f], 20, true, BEGUN, None))
      && Step(EMPTY_TURN, NO_TEXT, Grouped(9, 0, [EXIT, f], 20, true, BEGUN, None)) ==
           Go(Grouped(12, 0, [EXIT], 20, true, BEGUN, None))
  {
    hide Fetch;
    TurnFetches();
    var st, f := Grouped(6, 0, [EXIT], 10, true, BEGUN, None), Saves(12, 0, BEGUN);
    assert SkipNoOps(EMPTY_TURN, 9) == 9;
    assert CoverGroup(EMPTY_TURN, st, 9) == st;
    assert Saved([IDLE, BEGUN], 1, 1) == [BEGUN];
    assert [EXIT][..0] == [] && Avail([EXIT]) == 7 && Grown(10, 14, 7) == Some(20);
    assert [EXIT] + [f] == [EXIT, f] && [EXIT, f][..1] == [EXIT];
    assert Restored([IDLE, BEGUN], 1, [BEGUN]) == [IDLE, BEGUN];
  }

  // The group has matched nothing: its loop is left through a point pushed for its exit.
  lemma {:induction false} TurnLeaves()
    ensures Step(EMPTY_TURN, NO_TEXT, Grouped(12, 0, [EXIT], 20, true, BEGUN, None)) ==
      Go(Grouped(18, 0, [EXIT], 20, false, IDLE, None))
  {
    hide Fetch, StopGroup, LoopAround, Push, Fail;
    TurnFetches();
    TurnStops();
    var st := Grouped(12, 0, [EXIT], 20, false, IDLE, None);
    TurnAround(st);
    TurnPushes();
  }

  lemma {:induction false} TurnStops()
    ensures StopGroup(Grouped(12, 0, [EXIT], 20, true, BEGUN, None), 1) == Grouped(12, 0, [EXIT], 20, false, IDLE, None)
  {
    assert [IDLE, BEGUN][1 := IDLE] == [IDLE, IDLE];
  }

  lemma {:induction false} TurnPushes()
    ensures var st := Grouped(12, 0, [EXIT], 20, false, IDLE, None);
      var o := Push(NO_TEXT, st, At(18), 0);
      o.Some? && Fail(EMPTY_TURN, NO_TEXT, o.value) == Go(st.(p := 18))
  {
    hide Grown, LoopJumpAt;
    var st := Grouped(12, 0, [EXIT], 20, false, IDLE, None);
    var f := Frame(At(18), 0, NO_LOWEST_ACTIVE_REG, NO_HIGHEST_ACTIVE_REG, []);
    var s := [EXIT] + [f];
    RoomLeft();
    assert s[..1] == [EXIT];
    assert Restored([IDLE, IDLE], NO_LOWEST_ACTIVE_REG, []) == [IDLE, IDLE];
    assert !LoopJumpAt(EMPTY_TURN, 18) by { PastItsEnd(); }
  }

  lemma {:induction false} RoomLeft()
    ensures var f := Frame(At(18), 0, NO_LOWEST_ACTIVE_REG, NO_HIGHEST_ACTIVE_REG, []);
      var st := Grouped(12, 0, [EXIT], 20, false, IDLE, None);
      Push(NO_TEXT, st, At(18), 0) == Some(st.(stack := [EXIT] + [f]))
  {
    assert Saved([IDLE, IDLE], NO_LOWEST_ACTIVE_REG, NO_HIGHEST_ACTIVE_REG) == [];
    assert [EXIT][..0] == [] && Avail([EXIT]) == 7 && Asked(NO_LOWEST_ACTIVE_REG, NO_HIGHEST_ACTIVE_REG) == 4;
    assert Grown(20, 11, 7) == Some(20);
  }

  lemma {:induction false} PastItsEnd()
    ensures !LoopJumpAt(EMPTY_TURN, 18)
  {
  }

  lemma {:induction false} TurnEnds()
    ensures Step(EMPTY_TURN, NO_TEXT, Grouped(18, 0, [EXIT], 20, false, IDLE, None)) == Done(0)
  {
  }

  lemma {:induction false} TurnAround(st: State)
    requires st.info == [IDLE, IDLE]
    ensures LoopAround(EMPTY_TURN, st, 12, 1) == Some(0) && JumpTarget(EMPTY_TURN, 0) == 18
  {
    assert JumpTarget(EMPTY_TURN, 15) == 0;
  }

  lemma {:induction false} EmptyTurnLeaves()
    ensures Emit(TURN_TREE) == EMPTY_TURN && Match(EMPTY_TURN, NO_TEXT, 6) == Done(0)
  {
    hide Step, Emit;
    TurnCode();
    var code, cfg := EMPTY_TURN, NO_TEXT;
    assert Start(cfg) == Go(Grouped(0, 0, [], 5, false, IDLE, None)) by { assert seq(2, _ => IDLE) == [IDLE, IDLE]; }
    TurnBegins();
    TurnTakesNothing();
    TurnLeaves();
    TurnEnds();
    SixSteps(code, cfg, Grouped(0, 0, [], 5, false, IDLE, None), Grouped(3, 0, [EXIT], 10, true, IDLE, None),
      Grouped(6, 0, [EXIT], 10, true, BEGUN, None), Grouped(9, 0, [EXIT, Saves(12, 0, BEGUN)], 20, true, BEGUN, None),
      Grouped(12, 0, [EXIT], 20, true, BEGUN, None), Grouped(18, 0, [EXIT], 20, false, IDLE, None), 0);
  }
}
