// Two patterns whose registers leave step.  In both, an abandoned alternative leaves group 1 active, for
// the failure point that brings the matcher back saved no register; closing a later group then finds group
// 1 below it, and the highest active register falls under the lowest.
module RegexStrays {
  import opened Bytes
  import opened RegexTree
  import opened RegexCode
  import opened RegexResid
  import opened RegexMachine
  import opened Wrappers
  import opened RegexRoles
  import opened RegexGroups
  import opened RegexOpen
  import opened RegexExamples

  // ---- Single commands ----

  lemma {:induction false} Literal(code: seq<byte>, cfg: Config, st: State, p: int, d: nat)
    requires 0 <= st.p < |code| && Fetch(code, st.p).Exact? && Moves(code, cfg.env, st.p, st.d) == To(p, d)
    ensures Step(code, cfg, st) == Go(st.(p := p, d := d, info := MarkMatched(st.info, st.low, st.high)))
  {
    hide Fetch, Moves, MarkMatched;
  }

  // A literal that fails, with one failure point to go back to.
  lemma {:induction false} Misses(code: seq<byte>, cfg: Config, st: State, f: Frame, p: nat)
    requires 0 <= st.p < |code| && Fetch(code, st.p).Exact? && Moves(code, cfg.env, st.p, st.d) == Move.Stuck
    requires st.stack == [f] && f.pat == At(p) && p < |code| && code[p] != MAYBE_POP_JUMP && code[p] != POP_FAILURE_JUMP
    requires code[p] != JUMP
    ensures Step(code, cfg, st) ==
      Go(st.(p := p, d := f.str, stack := [], low := f.low, high := f.high, info := Restored(st.info, f.low, f.saved)))
  {
    hide Fetch, Moves, Restored;
    assert st.stack[..0] == [];
  }

  lemma {:induction false} Begins(code: seq<byte>, cfg: Config, st: State, reg: byte, inner: byte)
    requires 0 <= st.p < |code| && Fetch(code, st.p) == StartMem(reg, inner)
    ensures Step(code, cfg, st) == Go(StartGroup(st, reg))
  {
    hide Fetch, StartGroup;
  }

  // A group closed with no loop around it.
  lemma {:induction false} Closes(code: seq<byte>, cfg: Config, st: State, reg: byte, inner: byte)
    requires 0 <= st.p < |code| - 3 && Fetch(code, st.p) == StopMem(reg, inner)
    requires code[st.p + 3] == START_MEMORY || code[st.p + 3] == ON_FAILURE_JUMP
    ensures Step(code, cfg, st) == Go(StopGroup(st, reg).(p := st.p + 3))
  {
    hide Fetch, StopGroup;
  }

  lemma {:induction false} Choice(code: seq<byte>, cfg: Config, st: State, exit: int)
    requires 0 <= st.p < |code| - 3 && Fetch(code, st.p) == OnFail(exit) && code[st.p + 3] != START_MEMORY
    requires code[st.p + 3] != NO_OP
    ensures Step(code, cfg, st) == PushThen(cfg, st, At(exit), st.d, st.p + 3)
  {
    hide Fetch, Push;
    assert SkipNoOps(code, st.p + 3) == st.p + 3;
  }

  lemma {:induction false} Then(code: seq<byte>, cfg: Config, st: State, st': State, n: nat, o: Outcome)
    requires Step(code, cfg, st) == Go(st') && Run(code, cfg, Go(st'), n) == o
    ensures Run(code, cfg, Go(st), n + 1) == o
  {
    hide Step;
  }

  // ---- How both begin: x(ab)|x(a)... against xa... ----

  // on_failure_jump, x, (ab), jump_past_alt, x, (a).
  function Opening(rest: byte): seq<byte> {
    [14, 16, 0, 1, 1, 120, 5, 1, 0, 1, 2, 97, 98, 6, 1, 0, 13, rest, 0, 1, 1, 120, 5, 2, 0, 1, 1, 97, 6, 2, 0]
  }

  ghost predicate Opens(code: seq<byte>, rest: byte) {
    31 < |code| && code[..31] == Opening(rest) && code[31] == START_MEMORY
  }

  function Idle(p: int, d: nat, stack: seq<Frame>, info: seq<RegInfo>): State {
    State(p, d, stack, 5, NO_LOWEST_ACTIVE_REG, NO_HIGHEST_ACTIVE_REG, info, None)
  }

  function One(p: int, d: nat, stack: seq<Frame>, info: seq<RegInfo>, reg: nat): State {
    State(p, d, stack, 5, reg, reg, info, None)
  }

  lemma {:induction false} OpeningByte(code: seq<byte>, rest: byte, k: nat)
    requires Opens(code, rest) && k < 31
    ensures |Opening(rest)| == 31 && code[k] == Opening(rest)[k]
  {
    assert code[k] == code[..31][k];
  }

  // A three-byte command of the opening.
  lemma {:induction false} OpeningCommand(code: seq<byte>, rest: byte, p: nat)
    requires Opens(code, rest) && p < 29
    ensures var s := Opening(rest); |s| == 31 && code[p] == s[p] && code[p + 1] == s[p + 1] && code[p + 2] == s[p + 2]
  {
    hide Opens, Opening;
    OpeningByte(code, rest, p);
    OpeningByte(code, rest, p + 1);
    OpeningByte(code, rest, p + 2);
  }

  lemma {:induction false} OpeningFetches(code: seq<byte>, rest: byte)
    requires Opens(code, rest)
    ensures Fetch(code, 0) == OnFail(19) && Fetch(code, 6) == StartMem(1, 0)
    ensures Fetch(code, 22) == StartMem(2, 0) && Fetch(code, 28) == StopMem(2, 0)
  {
    hide Fetch, Opens;
    OpensLong(code, rest);
    OpeningCommand(code, rest, 0);
    OpeningCommand(code, rest, 6);
    OpeningCommand(code, rest, 22);
    OpeningCommand(code, rest, 28);
    Decodes(code, 0, 14, 16, 0);
    Decodes(code, 6, 5, 1, 0);
    Decodes(code, 22, 5, 2, 0);
    Decodes(code, 28, 6, 2, 0);
  }

  lemma {:induction false} OpensLong(code: seq<byte>, rest: byte)
    requires Opens(code, rest)
    ensures 31 < |code| && code[31] == START_MEMORY
  {
  }

  lemma {:induction false} OneChar(code: seq<byte>, p: nat, c: byte)
    requires p + 2 < |code| && code[p] == EXACTN && code[p + 1] == 1 && code[p + 2] == c
    ensures Fetch(code, p) == Exact([c])
  {
    assert code[p + 2..p + 3] == [c];
  }

  lemma {:induction false} OpeningLiterals(code: seq<byte>, rest: byte)
    requires Opens(code, rest)
    ensures Fetch(code, 3) == Exact([120]) && Fetch(code, 9) == Exact([97, 98])
    ensures Fetch(code, 19) == Exact([120]) && Fetch(code, 25) == Exact([97])
    ensures code[3] == code[19] == EXACTN
  {
    hide Fetch, Opens;
    OpensLong(code, rest);
    OpeningCommand(code, rest, 3);
    OpeningCommand(code, rest, 9);
    OpeningCommand(code, rest, 10);
    OpeningCommand(code, rest, 19);
    OpeningCommand(code, rest, 25);
    OneChar(code, 3, 120);
    OneChar(code, 19, 120);
    OneChar(code, 25, 97);
    assert code[11..13] == [97, 98];
    DecodesExact(code, 9, [97, 98]);
  }

  // The text at d is the literal at p, or is not.
  lemma {:induction false} Reads(code: seq<byte>, env: Env, p: nat, cs: seq<byte>, d: nat)
    requires p < |code| && Fetch(code, p) == Exact(cs)
    ensures LitAt(env, cs, d) ==> Moves(code, env, p, d) == To(p + 2 + |cs|, d + |cs|)
    ensures !LitAt(env, cs, d) ==> Moves(code, env, p, d) == Move.Stuck
  {
    hide Fetch;
  }

  lemma {:induction false} NoneMarked(info: seq<RegInfo>, low: nat, high: nat)
    requires low > high
    ensures MarkMatched(info, low, high) == info && Restored(info, low, []) == info
  {
  }

  // Up to the end of (a): group 1 is still active.
  lemma {:induction false} OpeningRun(code: seq<byte>, rest: byte, cfg: Config, info: seq<RegInfo>, n: nat, o: Outcome)
    requires Opens(code, rest) && cfg.pos == 0 && 2 <= |cfg.env.text| && cfg.env.text[..2] == [120, 97]
    requires !LitAt(cfg.env, [97, 98], 1)
    requires |info| > 2 && (forall r <- info :: r == IDLE)
    requires Run(code, cfg, Go(Idle(31, 2, [], info[1 := BEGUN][2 := OUTSIDE])), n) == o
    ensures Run(code, cfg, Go(Idle(0, 0, [], info)), n + 8) == o
  {
    hide Step, Run, Fetch, Opens, Moves;
    var begun := info[1 := BEGUN];
    OpeningSecond(code, rest, cfg, begun);
    OpeningFirst(code, rest, cfg, info);
    Then(code, cfg, One(28, 2, [], begun[2 := INSIDE], 2), Idle(31, 2, [], begun[2 := OUTSIDE]), n, o);
    Then(code, cfg, One(25, 1, [], begun[2 := BEGUN], 2), One(28, 2, [], begun[2 := INSIDE], 2), n + 1, o);
    Then(code, cfg, Idle(22, 1, [], begun), One(25, 1, [], begun[2 := BEGUN], 2), n + 2, o);
    Then(code, cfg, Idle(19, 0, [], begun), Idle(22, 1, [], begun), n + 3, o);
    Then(code, cfg, One(9, 1, [Point(19, 0)], begun, 1), Idle(19, 0, [], begun), n + 4, o);
    Then(code, cfg, Idle(6, 1, [Point(19, 0)], info), One(9, 1, [Point(19, 0)], begun, 1), n + 5, o);
    Then(code, cfg, Idle(3, 0, [Point(19, 0)], info), Idle(6, 1, [Point(19, 0)], info), n + 6, o);
    Then(code, cfg, Idle(0, 0, [], info), Idle(3, 0, [Point(19, 0)], info), n + 7, o);
  }

  // The first alternative, up to going back.
  lemma {:induction false} OpeningFirst(code: seq<byte>, rest: byte, cfg: Config, info: seq<RegInfo>)
    requires Opens(code, rest) && 2 <= |cfg.env.text| && cfg.env.text[..2] == [120, 97] && !LitAt(cfg.env, [97, 98], 1)
    requires |info| > 2
    ensures var begun, f := info[1 := BEGUN], [Point(19, 0)];
      && Step(code, cfg, Idle(0, 0, [], info)) == Go(Idle(3, 0, f, info))
      && Step(code, cfg, Idle(3, 0, f, info)) == Go(Idle(6, 1, f, info))
      && Step(code, cfg, Idle(6, 1, f, info)) == Go(One(9, 1, f, begun, 1))
      && Step(code, cfg, One(9, 1, f, begun, 1)) == Go(Idle(19, 0, [], begun))
  {
    hide Step, Fetch, Moves, MarkMatched, Restored;
    OpeningFetches(code, rest);
    OpeningLiterals(code, rest);
    var begun, f := info[1 := BEGUN], [Point(19, 0)];
    assert [] + [Point(19, 0)] == f;
    Choice(code, cfg, Idle(0, 0, [], info), 19);
    assert Saved(info, NO_LOWEST_ACTIVE_REG, NO_HIGHEST_ACTIVE_REG) == [];
    NoneMarked(info, NO_LOWEST_ACTIVE_REG, NO_HIGHEST_ACTIVE_REG);
    NoneMarked(begun, NO_LOWEST_ACTIVE_REG, NO_HIGHEST_ACTIVE_REG);
    assert cfg.env.text[0..1] == [120];
    Reads(code, cfg.env, 3, [120], 0);
    Literal(code, cfg, Idle(3, 0, f, info), 6, 1);
    Begins(code, cfg, Idle(6, 1, f, info), 1, 0);
    Reads(code, cfg.env, 9, [97, 98], 1);
    Misses(code, cfg, One(9, 1, f, begun, 1), Point(19, 0), 19);
  }

  // The second one, up to the end of its first group.
  lemma {:induction false} OpeningSecond(code: seq<byte>, rest: byte, cfg: Config, info: seq<RegInfo>)
    requires Opens(code, rest) && 2 <= |cfg.env.text| && cfg.env.text[..2] == [120, 97] && |info| > 2
    ensures Step(code, cfg, Idle(19, 0, [], info)) == Go(Idle(22, 1, [], info))
    ensures Step(code, cfg, Idle(22, 1, [], info)) == Go(One(25, 1, [], info[2 := BEGUN], 2))
    ensures Step(code, cfg, One(25, 1, [], info[2 := BEGUN], 2)) == Go(One(28, 2, [], info[2 := INSIDE], 2))
    ensures Step(code, cfg, One(28, 2, [], info[2 := INSIDE], 2)) == Go(Idle(31, 2, [], info[2 := OUTSIDE]))
  {
    hide Step, Fetch, Moves, MarkMatched, ActiveBelow;
    OpeningFetches(code, rest);
    OpeningLiterals(code, rest);
    assert cfg.env.text[0..1] == [120]
      && cfg.env.text[1..2] == [97] by { assert cfg.env.text[1] == cfg.env.text[..2][1]; }
    Reads(code, cfg.env, 19, [120], 0);
    NoneMarked(info, NO_LOWEST_ACTIVE_REG, NO_HIGHEST_ACTIVE_REG);
    Literal(code, cfg, Idle(19, 0, [], info), 22, 1);
    Begins(code, cfg, Idle(22, 1, [], info), 2, 0);
    Reads(code, cfg.env, 25, [97], 1);
    MarksOne(info[2 := BEGUN], 2);
    Literal(code, cfg, One(25, 1, [], info[2 := BEGUN], 2), 28, 2);
    assert info[2 := BEGUN][2 := INSIDE] == info[2 := INSIDE] && info[2 := INSIDE][2 := OUTSIDE] == info[2 := OUTSIDE];
    Closes(code, cfg, One(28, 2, [], info[2 := INSIDE], 2), 2, 0);
  }

  lemma {:induction false} MarksOne(info: seq<RegInfo>, reg: nat)
    requires reg < |info|
    ensures MarkMatched(info, reg, reg) == info[reg := info[reg].(matched := true)]
  {
  }

  // ---- Then both come to ((c)?), with groups `reg' and `reg' + 1 ----

  ghost predicate Middle(code: seq<byte>, p: nat, reg: byte) {
    && reg < 255 && p + 18 < |code|
    && Fetch(code, p) == StartMem(reg, 1) && Fetch(code, p + 3) == OnFail(p + 15)
    && Fetch(code, p + 6) == StartMem(reg + 1, 0) && code[p + 6] == START_MEMORY && code[p + 7] == reg + 1
      && code[p + 8] == 0
    && Fetch(code, p + 9) == Exact([99]) && Fetch(code, p + 15) == StopMem(reg, 1) && code[p + 15] == STOP_MEMORY
    && code[p + 18] == ON_FAILURE_JUMP
  }

  function Astray(p: int, d: nat, stack: seq<Frame>, low: nat, high: nat, info: seq<RegInfo>): State {
    State(p, d, stack, 10, low, high, info, None)
  }

  // Of the registers below reg + 2, only group 1 is active.
  predicate LeftActive(info: seq<RegInfo>, reg: nat) {
    && 2 < reg && reg + 1 < |info| && info[1].active && info[reg] == info[reg + 1] == IDLE
    && forall r :: 1 < r <= reg + 1 ==> !info[r].active
  }

  // Where no c follows: the group is closed with group 1 taken for the highest active one.
  lemma {:induction false} MiddleRun(code: seq<byte>, cfg: Config, p: nat, reg: byte, d: nat, info: seq<RegInfo>,
        n: nat, o: Outcome)
    requires Middle(code, p, reg) && LeftActive(info, reg) && !LitAt(cfg.env, [99], d) && cfg.nsub > 1
    requires Run(code, cfg, Go(Astray(p + 18, d, [], reg, 1, info)), n) == o
    ensures Run(code, cfg, Go(Idle(p, d, [], info)), n + 5) == o
  {
    hide Step, Run, Fetch, Middle, Moves, LeftActive;
    Covered(info, reg);
    MiddleEnters(code, cfg, p, reg, d, info);
    MiddleLeaves(code, cfg, p, reg, d, info);
    var f := Frame(At(p + 15), d, reg, reg + 1, [BEGUN, IDLE]);
    var begun := info[reg := BEGUN];
    Then(code, cfg, Astray(p + 15, d, [], reg, reg + 1, begun), Astray(p + 18, d, [], reg, 1, info), n, o);
    Then(code, cfg, Astray(p + 9, d, [f], reg, reg + 1, begun[reg + 1 := BEGUN]),
      Astray(p + 15, d, [], reg, reg + 1, begun), n + 1, o);
    Then(code, cfg, Astray(p + 6, d, [f], reg, reg + 1, begun),
      Astray(p + 9, d, [f], reg, reg + 1, begun[reg + 1 := BEGUN]), n + 2, o);
    Then(code, cfg, One(p + 3, d, [], begun, reg), Astray(p + 6, d, [f], reg, reg + 1, begun), n + 3, o);
    Then(code, cfg, Idle(p, d, [], info), One(p + 3, d, [], begun, reg), n + 4, o);
  }

  lemma {:induction false} Covered(info: seq<RegInfo>, reg: nat)
    requires LeftActive(info, reg)
    ensures reg + 1 < |info|
    ensures var begun := info[reg := BEGUN];
      && Saved(begun, reg, reg + 1) == [BEGUN, IDLE]
      && Restored(begun[reg + 1 := BEGUN], reg, [BEGUN, IDLE]) == begun && begun[reg := IDLE] == info
  {
    var begun := info[reg := BEGUN];
    var s := Saved(begun, reg, reg + 1);
    assert |s| == 2 && s[0] == InfoOf(begun, reg + 0) && s[1] == InfoOf(begun, reg + 1);
  }

  // Into the inner group; the point for going without it covers both groups.
  lemma {:induction false} MiddleEnters(code: seq<byte>, cfg: Config, p: nat, reg: byte, d: nat, info: seq<RegInfo>)
    requires Middle(code, p, reg) && LeftActive(info, reg) && reg + 1 < |info| && cfg.nsub > 1
    ensures var begun, f := info[reg := BEGUN], Frame(At(p + 15), d, reg, reg + 1, [BEGUN, IDLE]);
      && Step(code, cfg, Idle(p, d, [], info)) == Go(One(p + 3, d, [], begun, reg))
      && Step(code, cfg, One(p + 3, d, [], begun, reg)) == Go(Astray(p + 6, d, [f], reg, reg + 1, begun))
      && Step(code, cfg, Astray(p + 6, d, [f], reg, reg + 1, begun)) ==
        Go(Astray(p + 9, d, [f], reg, reg + 1, begun[reg + 1 := BEGUN]))
  {
    hide Step, Fetch, Saved, LeftActive;
    Covered(info, reg);
    var begun, f := info[reg := BEGUN], Frame(At(p + 15), d, reg, reg + 1, [BEGUN, IDLE]);
    Begins(code, cfg, Idle(p, d, [], info), reg, 1);
    Begins(code, cfg, Astray(p + 6, d, [f], reg, reg + 1, begun), reg + 1, 0);
    assert [] + [f] == [f];
    assert Step(code, cfg, One(p + 3, d, [], begun, reg)) == Go(Astray(p + 6, d, [f], reg, reg + 1, begun)) by {
      CoveringChoice(code, cfg, p + 3, reg, d, begun);
    }
  }

  lemma {:induction false} CoveringChoice(code: seq<byte>, cfg: Config, p: nat, reg: byte, d: nat, info: seq<RegInfo>)
    requires p + 5 < |code| && reg < 255 && Fetch(code, p) == OnFail(p + 12) && cfg.nsub > 1
    requires code[p + 3] == START_MEMORY && code[p + 4] == reg + 1 && code[p + 5] == 0
    requires Saved(info, reg, reg + 1) == [BEGUN, IDLE] && reg != NO_LOWEST_ACTIVE_REG
    ensures Step(code, cfg, One(p, d, [], info, reg))
      == Go(Astray(p + 3, d, [] + [Frame(At(p + 12), d, reg, reg + 1, [BEGUN, IDLE])], reg, reg + 1, info))
  {
    hide Fetch, Saved;
    var st := One(p, d, [], info, reg);
    assert CoverGroup(code, st, p + 3) == st.(high := reg + 1);
    assert Asked(reg, reg + 1) == 10;
    assert Grown(5, 10, MostItems(cfg)) == Some(10);
  }

  lemma {:induction false} MiddleLeaves(code: seq<byte>, cfg: Config, p: nat, reg: byte, d: nat, info: seq<RegInfo>)
    requires Middle(code, p, reg) && LeftActive(info, reg) && reg + 1 < |info| && !LitAt(cfg.env, [99], d)
    ensures var begun, f := info[reg := BEGUN], Frame(At(p + 15), d, reg, reg + 1, [BEGUN, IDLE]);
      && Step(code, cfg, Astray(p + 9, d, [f], reg, reg + 1, begun[reg + 1 := BEGUN])) ==
        Go(Astray(p + 15, d, [], reg, reg + 1, begun))
      && Step(code, cfg, Astray(p + 15, d, [], reg, reg + 1, begun)) == Go(Astray(p + 18, d, [], reg, 1, info))
  {
    hide Step, Fetch, Moves, Restored, ActiveBelow;
    Covered(info, reg);
    var begun, f := info[reg := BEGUN], Frame(At(p + 15), d, reg, reg + 1, [BEGUN, IDLE]);
    Reads(code, cfg.env, p + 9, [99], d);
    Misses(code, cfg, Astray(p + 9, d, [f], reg, reg + 1, begun[reg + 1 := BEGUN]), f, p + 15);
    Closes(code, cfg, Astray(p + 15, d, [], reg, reg + 1, begun), reg, 1);
    FindsFirst(info, reg);
  }

  lemma {:induction false} FindsFirst(info: seq<RegInfo>, r: nat)
    requires 1 < r <= |info| && info[1].active && forall k :: 1 < k < r ==> !info[k].active
    ensures ActiveBelow(info, r) == 1
  {
    if r > 2 { FindsFirst(info, r - 1); }
  }

  // A program that begins so and goes on with `tail'.
  lemma {:induction false} TailByte(rest: byte, tail: seq<byte>, k: nat)
    requires k < |tail|
    ensures var code := Opening(rest) + tail; |code| == 31 + |tail| && code[31 + k] == tail[k]
  {
  }

  lemma {:induction false} TailOpens(rest: byte, tail: seq<byte>)
    requires tail != [] && tail[0] == START_MEMORY
    ensures Opens(Opening(rest) + tail, rest)
  {
    assert (Opening(rest) + tail)[..31] == Opening(rest);
  }

  // ((c)?) k bytes into the tail.
  lemma {:induction false} TailMiddle(rest: byte, tail: seq<byte>, k: nat, reg: byte)
    requires k + 18 < |tail| && reg < 255
    requires tail[k..k + 19] == [5, reg, 1, 14, 9, 0, 5, reg + 1, 0, 1, 1, 99, 6, reg + 1, 0, 6, reg, 1, 14]
    ensures Middle(Opening(rest) + tail, 31 + k, reg)
  {
    var code := Opening(rest) + tail;
    assert code[31 + k..31 + k + 19] == tail[k..k + 19];
    MiddleBytes(code, 31 + k, reg);
  }

  lemma {:induction false} MiddleBytes(code: seq<byte>, p: nat, reg: byte)
    requires reg < 255 && p + 18 < |code|
    requires code[p..p + 19] == [5, reg, 1, 14, 9, 0, 5, reg + 1, 0, 1, 1, 99, 6, reg + 1, 0, 6, reg, 1, 14]
    ensures Middle(code, p, reg)
  {
    hide Fetch;
    ghost var s := code[p..p + 19];
    assert code[p] == s[0] && code[p + 1] == s[1] && code[p + 2] == s[2] && code[p + 3] == s[3] && code[p + 4] == s[4];
    assert code[p + 5] == s[5] && code[p + 6] == s[6] && code[p + 7] == s[7] && code[p + 8] == s[8]
      && code[p + 9] == s[9];
    assert code[p + 10] == s[10] && code[p + 11] == s[11] && code[p + 15] == s[15] && code[p + 16] == s[16];
    assert code[p + 17] == s[17] && code[p + 18] == s[18];
    Decodes(code, p, 5, reg, 1);
    Decodes(code, p + 3, 14, 9, 0);
    Decodes(code, p + 6, 5, reg + 1, 0);
    OneChar(code, p + 9, 99);
    Decodes(code, p + 15, 6, reg, 1);
  }

  // d? at the end of what has been emitted so far.
  const OPT_D: seq<byte> := [14, 3, 0, 1, 1, 100]

  lemma {:induction false} OptBytes(code: seq<byte>, p: nat)
    requires p + 6 <= |code| && code[p..p + 6] == OPT_D
    ensures Fetch(code, p) == OnFail(p + 6) && Fetch(code, p + 3) == Exact([100]) && code[p + 3] == EXACTN
    ensures code[p] == ON_FAILURE_JUMP
  {
    hide Fetch;
    var s := code[p..p + 6];
    assert code[p] == s[0] && code[p + 1] == s[1] && code[p + 2] == s[2];
    assert code[p + 3] == s[3] && code[p + 4] == s[4] && code[p + 5] == s[5];
    Decodes(code, p, 14, 3, 0);
    OneChar(code, p + 3, 100);
  }

  lemma {:induction false} TailOptD(rest: byte, tail: seq<byte>, k: nat)
    requires k + 6 <= |tail| && tail[k..k + 6] == OPT_D
    ensures var code, p := Opening(rest) + tail, 31 + k;
      && p + 6 <= |code| && Fetch(code, p) == OnFail(p + 6) && Fetch(code, p + 3) == Exact([100])
      && code[p + 3] == EXACTN && code[p] == ON_FAILURE_JUMP
  {
    hide Fetch;
    var code := Opening(rest) + tail;
    assert code[31 + k..31 + k + 6] == tail[k..k + 6];
    OptBytes(code, 31 + k);
  }

  // ---- x(ab)|x(a)(a)((c)?)d? against xaa overflows, though xaa matches ----

  const WRAPPED_TAIL: seq<byte> :=
    [5, 3, 0, 1, 1, 97, 6, 3, 0, 5, 4, 1, 14, 9, 0, 5, 5, 0, 1, 1, 99, 6, 5, 0, 6, 4, 1] + OPT_D
  const WRAPPED := Opening(45) + WRAPPED_TAIL
  const XAA := Config(Env([120, 97, 97], false, false), 0, 5)
  const FIVE_GROUPS := seq(6, _ => IDLE)[1 := BEGUN][2 := OUTSIDE]

  lemma {:induction false} WrappedFetches()
    ensures |WRAPPED| == 64 && Opens(WRAPPED, 45) && Middle(WRAPPED, 40, 4)
    ensures Fetch(WRAPPED, 31) == StartMem(3, 0) && Fetch(WRAPPED, 34) == Exact([97])
    ensures Fetch(WRAPPED, 37) == StopMem(3, 0)
    ensures Fetch(WRAPPED, 58) == OnFail(64) && WRAPPED[61] == EXACTN && WRAPPED[40] == START_MEMORY
  {
    hide Fetch, Opening, Middle, Opens;
    TailOpens(45, WRAPPED_TAIL);
    OpensLong(WRAPPED, 45);
    TailMiddle(45, WRAPPED_TAIL, 9, 4);
    ThirdBytes();
    TailOptD(45, WRAPPED_TAIL, 27);
    TailByte(45, WRAPPED_TAIL, 9);
  }

  lemma {:induction false} ThirdBytes()
    ensures Fetch(WRAPPED, 31) == StartMem(3, 0) && Fetch(WRAPPED, 34) == Exact([97])
    ensures Fetch(WRAPPED, 37) == StopMem(3, 0)
  {
    hide Fetch, Opening;
    TailByte(45, WRAPPED_TAIL, 0); TailByte(45, WRAPPED_TAIL, 1); TailByte(45, WRAPPED_TAIL, 2);
    TailByte(45, WRAPPED_TAIL, 3); TailByte(45, WRAPPED_TAIL, 4); TailByte(45, WRAPPED_TAIL, 5);
    TailByte(45, WRAPPED_TAIL, 6); TailByte(45, WRAPPED_TAIL, 7); TailByte(45, WRAPPED_TAIL, 8);
    Decodes(WRAPPED, 31, 5, 3, 0);
    OneChar(WRAPPED, 34, 97);
    Decodes(WRAPPED, 37, 6, 3, 0);
  }

  // The asked room wraps around to almost a whole word, and the stack is doubled until that is refused.
  lemma {:induction false} GrownRefused(size: nat, need: nat, limit: nat)
    requires 0 < size && need > 2 * RE_MAX_FAILURES * limit && size < need
    ensures Grown(size, need, limit) == None
    decreases need - size
  {
    if size <= RE_MAX_FAILURES * limit { GrownRefused(2 * size, need, limit); }
  }

  lemma {:induction false} WrappedPush(info: seq<RegInfo>)
    ensures Step(WRAPPED, XAA, Astray(58, 3, [], 4, 1, info)) == Done(-2)
  {
    hide Fetch, Step, WRAPPED, Grown, Opens, Middle;
    WrappedFetches();
    var st := Astray(58, 3, [], 4, 1, info);
    Choice(WRAPPED, XAA, st, 64);
    assert Asked(4, 1) == WORD - 2 && MostItems(XAA) == 19;
    GrownRefused(10, WORD - 2, 19);
  }

  lemma {:induction false} WrappedThird()
    ensures var info := FIVE_GROUPS;
      && |info| == 6
      && Step(WRAPPED, XAA, Idle(31, 2, [], info)) == Go(One(34, 2, [], info[3 := BEGUN], 3))
      && Step(WRAPPED, XAA, One(34, 2, [], info[3 := BEGUN], 3)) == Go(One(37, 3, [], info[3 := INSIDE], 3))
      && Step(WRAPPED, XAA, One(37, 3, [], info[3 := INSIDE], 3)) == Go(Idle(40, 3, [], info[3 := OUTSIDE]))
  {
    hide Step, Fetch, Moves, MarkMatched, ActiveBelow, WRAPPED, Opens, Middle;
    WrappedFetches();
    var info := FIVE_GROUPS;
    Begins(WRAPPED, XAA, Idle(31, 2, [], info), 3, 0);
    assert XAA.env.text[2..3] == [97];
    Reads(WRAPPED, XAA.env, 34, [97], 2);
    MarksOne(info[3 := BEGUN], 3);
    assert info[3 := BEGUN][3 := INSIDE] == info[3 := INSIDE] && info[3 := INSIDE][3 := OUTSIDE] == info[3 := OUTSIDE];
    Literal(WRAPPED, XAA, One(34, 2, [], info[3 := BEGUN], 3), 37, 3);
    Closes(WRAPPED, XAA, One(37, 3, [], info[3 := INSIDE], 3), 3, 0);
  }

  lemma {:induction false} WrappedRun()
    ensures Match(WRAPPED, XAA, 17) == Done(-2)
  {
    hide Step, Run, Fetch, Moves, WRAPPED, Opens, Middle;
    WrappedFetches();
    var info := FIVE_GROUPS[3 := OUTSIDE];
    WrappedThird();
    WrappedPush(info);
    EndsIn(WRAPPED, XAA, Astray(58, 3, [], 4, 1, info), Done(-2));
    assert LeftActive(info, 4);
    MiddleRun(WRAPPED, XAA, 40, 4, 3, info, 1, Done(-2));
    Then(WRAPPED, XAA, One(37, 3, [], FIVE_GROUPS[3 := INSIDE], 3), Idle(40, 3, [], info), 6, Done(-2));
    Then(WRAPPED, XAA, One(34, 2, [], FIVE_GROUPS[3 := BEGUN], 3), One(37, 3, [], FIVE_GROUPS[3 := INSIDE], 3), 7,
      Done(-2));
    Then(WRAPPED, XAA, Idle(31, 2, [], FIVE_GROUPS), One(34, 2, [], FIVE_GROUPS[3 := BEGUN], 3), 8, Done(-2));
    assert XAA.env.text[..2] == [120, 97] && XAA.env.text[1..3][1] == 97;
    OpeningRun(WRAPPED, 45, XAA, seq(6, _ => IDLE), 9, Done(-2));
  }

  lemma {:induction false} EndsIn(code: seq<byte>, cfg: Config, st: State, o: Outcome)
    requires Step(code, cfg, st) == o && !o.Go?
    ensures Run(code, cfg, Go(st), 1) == o
  {
    hide Step;
  }

  const WRAPPED_TREE :=
    Alt(Cat(Lit([120]), Group(1, 0, Lit([97, 98]))),
        Cat(Lit([120]), Cat(Group(2, 0, Lit([97])), Cat(Group(3, 0, Lit([97])),
          Cat(Group(4, 1, Opt(Group(5, 0, Lit([99])))), Opt(Lit([100])))))))

  // At the last choice registers 4 to 1 are active: almost 2^32 items are asked for.  There is no room for
  // them, so the match fails with -2; and the first group to blame comes first after a choice.
  lemma {:induction false} AlmostAWordAsked()
    ensures Emit(WRAPPED_TREE) == WRAPPED && Match(WRAPPED, XAA, 17) == Done(-2)
    ensures Spans(WRAPPED_TREE, XAA.env, 0, 3) && Simple(WRAPPED_TREE) && Numbered(WRAPPED_TREE, 0)
    ensures !Tame(WRAPPED_TREE)
  {
    hide Match, Emit, Spans, WRAPPED, Simple, Numbered, Tame;
    WrappedCode();
    WrappedRun();
    WrappedSpans();
    WrappedShape();
  }

  lemma {:induction false} WrappedShape()
    ensures Simple(WRAPPED_TREE) && Numbered(WRAPPED_TREE, 0) && !Tame(WRAPPED_TREE)
  {
    hide Simple, Numbered, TameFrom, Groups;
    var g, inner, d := Group(3, 0, Lit([97])), Group(4, 1, Opt(Group(5, 0, Lit([99])))), Opt(Lit([100]));
    InnerShape(4);
    OptDShape(5);
    CharGroupShape(3, 97);
    CatShape(inner, d, 3);
    CatShape(g, Cat(inner, d), 2);
    OpeningShape(Cat(g, Cat(inner, d)));
  }

  // What the parts of both trees are: simple, numbered in turn, and tame or not.
  predicate Part(t: Re, m: nat, groups: nat) {
    Simple(t) && Numbered(t, m) && Groups(t) == groups
  }

  lemma {:induction false} CharGroupShape(reg: nat, c: byte)
    requires reg >= 1
    ensures var t := Group(reg, 0, Lit([c])); Part(t, reg - 1, 1) && TameFrom(t, false, 2) && Len(t) > 0
  {
  }

  lemma {:induction false} InnerShape(reg: nat)
    requires 2 < reg < MAX_REGNUM
    ensures var t := Group(reg, 1, Opt(Group(reg + 1, 0, Lit([99]))));
      Part(t, reg - 1, 2) && !TameFrom(t, false, 2) && Len(t) > 0
  {
    hide Simple, Numbered, TameFrom;
    CharGroupShape(reg + 1, 99);
    InnerAround(reg, Group(reg + 1, 0, Lit([99])));
  }

  lemma {:induction false} InnerAround(reg: nat, g: Re)
    requires 2 < reg < MAX_REGNUM && Part(g, reg, 1)
    ensures var t := Group(reg, 1, Opt(g)); Part(t, reg - 1, 2) && !TameFrom(t, false, 2) && Len(t) > 0
  {
    assert Groups(Opt(g)) == 1;
  }

  lemma {:induction false} OptDShape(m: nat)
    ensures var t := Opt(Lit([100])); Part(t, m, 0) && TameFrom(t, false, 2) && Len(t) > 0
  {
  }

  lemma {:induction false} CatShape(a: Re, b: Re, m: nat)
    requires Simple(a) && Simple(b) && Numbered(a, m) && Numbered(b, m + Groups(a)) && Len(a) > 0
    ensures Part(Cat(a, b), m, Groups(a) + Groups(b)) && Len(Cat(a, b)) > 0
    ensures TameFrom(Cat(a, b), false, 2) <==> TameFrom(a, false, 2) && TameFrom(b, false, 2)
  {
    hide TameFrom, Simple, Numbered, Groups, Len;
    CatTame(a, b);
    CatPart(a, b, m);
    CatLonger(a, b);
  }

  lemma {:induction false} CatPart(a: Re, b: Re, m: nat)
    requires Simple(a) && Simple(b) && Numbered(a, m) && Numbered(b, m + Groups(a))
    ensures Part(Cat(a, b), m, Groups(a) + Groups(b))
  {
  }

  lemma {:induction false} CatLonger(a: Re, b: Re)
    ensures Len(Cat(a, b)) >= Len(a)
  {
  }

  lemma {:induction false} CatTame(a: Re, b: Re)
    ensures TameFrom(Cat(a, b), false, 2) <==> TameFrom(a, false, 2) && TameFrom(b, false, 2)
  {
  }

  lemma {:induction false} OpeningShape(rest: Re)
    requires Simple(rest) && Numbered(rest, 2) && !TameFrom(rest, false, 2)
    ensures var t := Alt(Cat(Lit([120]), Group(1, 0, Lit([97, 98]))),
      Cat(Lit([120]), Cat(Group(2, 0, Lit([97])), rest)));
      Simple(t) && Numbered(t, 0) && !TameFrom(t, false, 2)
  {
    hide Simple, Numbered, TameFrom, Groups, Len;
    var x := Lit([120]);
    var a, b := Cat(x, Group(1, 0, Lit([97, 98]))), Cat(Group(2, 0, Lit([97])), rest);
    CharGroupShape(2, 97);
    FirstShape();
    CatShape(Group(2, 0, Lit([97])), rest, 1);
    CatShape(x, b, 1);
    AltShape(a, Cat(x, b));
  }

  lemma {:induction false} FirstShape()
    ensures Part(Cat(Lit([120]), Group(1, 0, Lit([97, 98]))), 0, 1)
    ensures Part(Lit([120]), 1, 0) && Len(Lit([120])) > 0
  {
  }

  lemma {:induction false} AltShape(a: Re, b: Re)
    requires Part(a, 0, 1) && Simple(b) && Numbered(b, 1) && !TameFrom(b, false, 2)
    ensures Simple(Alt(a, b)) && Numbered(Alt(a, b), 0) && !TameFrom(Alt(a, b), false, 2)
  {
  }

  lemma {:induction false} LitCode(cs: seq<byte>)
    requires 1 <= |cs| <= 255
    ensures Emit(Lit(cs)) == [1, |cs|] + cs
  {
  }

  lemma {:induction false} GroupBytes(reg: nat, inner: nat, a: Re)
    requires 1 <= reg <= MAX_REGNUM && inner < 256 && WellFormed(a) && !a.Alt?
    ensures WellFormed(Group(reg, inner, a))
    ensures Emit(Group(reg, inner, a)) == [5, reg, inner] + Emit(a) + [6, reg, inner]
  {
    assert Emit(Group(reg, inner, a)) == [5, reg, inner] + Emit(a) + [] + [6, reg, inner];
  }

  lemma {:induction false} OptBytesOf(a: Re, n: byte)
    requires WellFormed(a) && Len(a) == n
    ensures WellFormed(Opt(a)) && Emit(Opt(a)) == [14, n, 0] + Emit(a) && Len(Opt(a)) == 3 + n
  {
  }

  // The first alternative, and the second up to the rest of it.
  lemma {:induction false} OpeningCode(rest: Re, tail: seq<byte>)
    requires WellFormed(rest) && Emit(rest) == tail && |tail| + 12 < 256
    ensures var t := Alt(Cat(Lit([120]), Group(1, 0, Lit([97, 98]))),
      Cat(Lit([120]), Cat(Group(2, 0, Lit([97])), rest)));
      WellFormed(t) && Emit(t) == Opening(|tail| + 12) + tail
  {
    hide Emit, Opening;
    FirstCode();
    SecondCode(rest);
    OpeningJoins(Cat(Lit([120]), Group(1, 0, Lit([97, 98]))), Cat(Lit([120]), Cat(Group(2, 0, Lit([97])), rest)), tail);
  }

  lemma {:induction false} FirstCode()
    ensures var a := Cat(Lit([120]), Group(1, 0, Lit([97, 98])));
      WellFormed(a) && Emit(a) == [1, 1, 120] + ([5, 1, 0] + [1, 2, 97, 98] + [6, 1, 0])
  {
    hide Emit;
    LitCode([120]);
    LitCode([97, 98]);
    GroupBytes(1, 0, Lit([97, 98]));
    CatEmits(Lit([120]), Group(1, 0, Lit([97, 98])));
  }

  lemma {:induction false} SecondCode(rest: Re)
    requires WellFormed(rest)
    ensures var b := Cat(Lit([120]), Cat(Group(2, 0, Lit([97])), rest));
      WellFormed(b) && Emit(b) == [1, 1, 120] + (([5, 2, 0] + [1, 1, 97] + [6, 2, 0]) + Emit(rest))
  {
    hide Emit;
    LitCode([120]);
    LitCode([97]);
    GroupBytes(2, 0, Lit([97]));
    CatEmits(Group(2, 0, Lit([97])), rest);
    CatEmits(Lit([120]), Cat(Group(2, 0, Lit([97])), rest));
  }

  lemma {:induction false} OpeningJoins(a: Re, b: Re, tail: seq<byte>)
    requires WellFormed(a) && WellFormed(b) && !b.Alt? && |tail| + 12 < 256
    requires Emit(a) == [1, 1, 120] + ([5, 1, 0] + [1, 2, 97, 98] + [6, 1, 0])
    requires Emit(b) == [1, 1, 120] + (([5, 2, 0] + [1, 1, 97] + [6, 2, 0]) + tail)
    ensures Emit(Alt(a, b)) == Opening(|tail| + 12) + tail
  {
    hide Opening, Emit, JumpCode;
    assert |Emit(a)| == 13 && |Emit(b)| == |tail| + 12;
    AltEmits(a, b);
    OpeningBytes(|tail| + 12, Emit(a), Emit(b), tail);
  }

  lemma {:induction false} AltEmits(a: Re, b: Re)
    requires WellFormed(a) && WellFormed(b) && !b.Alt? && Len(a) == 13 && Len(b) < 256
    ensures Emit(Alt(a, b)) == [14, 16, 0] + Emit(a) + [13, Len(b), 0] + Emit(b)
  {
    assert JumpCode(ON_FAILURE_JUMP, 16) == [14, 16, 0] && JumpCode(JUMP_PAST_ALT, Len(b)) == [13, Len(b), 0];
  }

  const FIRST: seq<byte> := [1, 1, 120, 5, 1, 0, 1, 2, 97, 98, 6, 1, 0]
  const SECOND: seq<byte> := [1, 1, 120, 5, 2, 0, 1, 1, 97, 6, 2, 0]

  lemma {:induction false} OpeningBytes(n: byte, a: seq<byte>, b: seq<byte>, tail: seq<byte>)
    requires a == [1, 1, 120] + ([5, 1, 0] + [1, 2, 97, 98] + [6, 1, 0])
    requires b == [1, 1, 120] + (([5, 2, 0] + [1, 1, 97] + [6, 2, 0]) + tail)
    ensures [14, 16, 0] + a + [13, n, 0] + b == Opening(n) + tail
  {
    hide FIRST, SECOND, Opening;
    OpeningParts(n);
    SecondBytes(tail);
    Regroup([14, 16, 0] + FIRST + [13, n, 0], SECOND, tail);
  }

  lemma {:induction false} OpeningParts(n: byte)
    ensures Opening(n) == [14, 16, 0] + FIRST + [13, n, 0] + SECOND
    ensures FIRST == [1, 1, 120] + ([5, 1, 0] + [1, 2, 97, 98] + [6, 1, 0])
  {
  }

  lemma {:induction false} SecondBytes(tail: seq<byte>)
    ensures [1, 1, 120] + (([5, 2, 0] + [1, 1, 97] + [6, 2, 0]) + tail) == SECOND + tail
  {
    assert SECOND == [1, 1, 120] + ([5, 2, 0] + [1, 1, 97] + [6, 2, 0]);
    Regroup([1, 1, 120], [5, 2, 0] + [1, 1, 97] + [6, 2, 0], tail);
  }

  lemma {:induction false} Regroup(a: seq<byte>, b: seq<byte>, c: seq<byte>)
    ensures a + (b + c) == (a + b) + c
  {
  }

  // ((c)?)
  lemma {:induction false} InnerCode(reg: nat)
    requires 1 <= reg < MAX_REGNUM
    ensures var t := Group(reg, 1, Opt(Group(reg + 1, 0, Lit([99]))));
      WellFormed(t) && Emit(t) == [5, reg, 1, 14, 9, 0, 5, reg + 1, 0, 1, 1, 99, 6, reg + 1, 0, 6, reg, 1]
  {
    hide Emit;
    LitCode([99]);
    GroupBytes(reg + 1, 0, Lit([99]));
    OptBytesOf(Group(reg + 1, 0, Lit([99])), 9);
    GroupBytes(reg, 1, Opt(Group(reg + 1, 0, Lit([99]))));
  }

  lemma {:induction false} OptDCode()
    ensures WellFormed(Opt(Lit([100]))) && Emit(Opt(Lit([100]))) == OPT_D
  {
    hide Emit;
    LitCode([100]);
    OptBytesOf(Lit([100]), 3);
  }

  lemma {:induction false} WrappedCode()
    ensures Emit(WRAPPED_TREE) == WRAPPED
  {
    hide Emit, Opening;
    LitCode([97]);
    GroupBytes(3, 0, Lit([97]));
    InnerCode(4);
    OptDCode();
    var inner := Group(4, 1, Opt(Group(5, 0, Lit([99]))));
    CatEmits(inner, Opt(Lit([100])));
    CatEmits(Group(3, 0, Lit([97])), Cat(inner, Opt(Lit([100]))));
    WrappedBytes();
    OpeningCode(Cat(Group(3, 0, Lit([97])), Cat(inner, Opt(Lit([100])))), WRAPPED_TAIL);
  }

  lemma {:induction false} WrappedBytes()
    ensures ([5, 3, 0] + ([1, 1] + [97]) + [6, 3, 0])
      + ([5, 4, 1, 14, 9, 0, 5, 5, 0, 1, 1, 99, 6, 5, 0, 6, 4, 1] + OPT_D)
      == WRAPPED_TAIL
  {
    assert [5, 3, 0] + ([1, 1] + [97]) + [6, 3, 0] == [5, 3, 0, 1, 1, 97, 6, 3, 0];
  }

  lemma {:induction false} LitSpans(env: Env, c: byte, i: nat)
    requires i < |env.text| && env.text[i] == c
    ensures Spans(Lit([c]), env, i, i + 1)
  {
    assert env.text[i..i + 1] == [c];
  }

  lemma {:induction false} OptSpans(a: Re, env: Env, i: nat, j: nat)
    requires i == j <= |env.text| || Spans(a, env, i, j)
    ensures Spans(Opt(a), env, i, j)
  {
  }

  lemma {:induction false} GroupSpans(reg: nat, inner: nat, a: Re, env: Env, i: nat, j: nat)
    requires Spans(a, env, i, j)
    ensures Spans(Group(reg, inner, a), env, i, j)
  {
  }

  lemma {:induction false} WrappedSpans()
    ensures Spans(WRAPPED_TREE, XAA.env, 0, 3)
  {
    hide Spans;
    var env := XAA.env;
    var inner, d := Group(4, 1, Opt(Group(5, 0, Lit([99])))), Opt(Lit([100]));
    LitSpans(env, 120, 0);
    LitSpans(env, 97, 1);
    LitSpans(env, 97, 2);
    GroupSpans(2, 0, Lit([97]), env, 1, 2);
    GroupSpans(3, 0, Lit([97]), env, 2, 3);
    OptSpans(Group(5, 0, Lit([99])), env, 3, 3);
    GroupSpans(4, 1, Opt(Group(5, 0, Lit([99]))), env, 3, 3);
    OptSpans(Lit([100]), env, 3, 3);
    CatJoin(inner, d, env, 3, 3, 3);
    CatJoin(Group(3, 0, Lit([97])), Cat(inner, d), env, 2, 3, 3);
    SecondSpans(env, Cat(Group(3, 0, Lit([97])), Cat(inner, d)), 3);
  }

  lemma {:induction false} SecondSpans(env: Env, rest: Re, j: nat)
    requires 2 <= |env.text| && env.text[..2] == [120, 97] && Spans(rest, env, 2, j)
    ensures Spans(Alt(Cat(Lit([120]), Group(1, 0, Lit([97, 98]))), Cat(Lit([120]), Cat(Group(2, 0, Lit([97])), rest))),
      env, 0, j)
  {
    hide Spans;
    assert env.text[0] == env.text[..2][0] && env.text[1] == env.text[..2][1];
    LitSpans(env, 120, 0);
    LitSpans(env, 97, 1);
    GroupSpans(2, 0, Lit([97]), env, 1, 2);
    CatJoin(Group(2, 0, Lit([97])), rest, env, 1, 2, j);
    CatJoin(Lit([120]), Cat(Group(2, 0, Lit([97])), rest), env, 0, 1, j);
    AltSpans(Cat(Lit([120]), Group(1, 0, Lit([97, 98]))), Cat(Lit([120]), Cat(Group(2, 0, Lit([97])), rest)), env, 0,
      j);
  }

  lemma {:induction false} AltSpans(a: Re, b: Re, env: Env, i: nat, j: nat)
    requires Spans(b, env, i, j)
    ensures Spans(Alt(a, b), env, i, j)
  {
  }

  // ---- x(ab)|x(a)((c)?)d?d?d? against xadd writes past the end of the stack ----

  const SHORT_TAIL: seq<byte> := [5, 3, 1, 14, 9, 0, 5, 4, 0, 1, 1, 99, 6, 4, 0, 6, 3, 1] + (OPT_D + (OPT_D + OPT_D))
  const SHORT := Opening(48) + SHORT_TAIL
  const XADD := Config(Env([120, 97, 100, 100], false, false), 0, 4)
  const FOUR_GROUPS := seq(5, _ => IDLE)[1 := BEGUN][2 := OUTSIDE]

  lemma {:induction false} ShortFetches()
    ensures |SHORT| == 67 && Opens(SHORT, 48) && Middle(SHORT, 31, 3)
    ensures Fetch(SHORT, 49) == OnFail(55) && Fetch(SHORT, 52) == Exact([100]) && SHORT[52] == EXACTN
    ensures Fetch(SHORT, 55) == OnFail(61) && Fetch(SHORT, 58) == Exact([100]) && SHORT[58] == EXACTN
    ensures Fetch(SHORT, 61) == OnFail(67) && SHORT[64] == EXACTN
  {
    hide Fetch, Opening, Middle, Opens;
    TailOpens(48, SHORT_TAIL);
    TailByte(48, SHORT_TAIL, 0);
    TailMiddle(48, SHORT_TAIL, 0, 3);
    TailOptD(48, SHORT_TAIL, 18);
    TailOptD(48, SHORT_TAIL, 24);
    TailOptD(48, SHORT_TAIL, 30);
  }

  function Passed(p: int, d: nat): Frame {
    Frame(At(p), d, 3, 1, [])
  }

  // With registers 3 to 1 active a push asks for one item, and stores four.
  lemma {:induction false} ShortPush(p: nat, d: nat, stack: seq<Frame>, info: seq<RegInfo>)
    requires 0 < p < |SHORT| - 3 && Fetch(SHORT, p) == OnFail(p + 6) && SHORT[p + 3] == EXACTN && Avail(stack) < 10
    ensures Step(SHORT, XADD, Astray(p, d, stack, 3, 1, info)) ==
      if Avail(stack) + 4 <= 10 then Go(Astray(p + 3, d, stack + [Passed(p + 6, d)], 3, 1, info)) else Overrun
  {
    hide Fetch, Step, SHORT, Avail;
    var st := Astray(p, d, stack, 3, 1, info);
    Choice(SHORT, XADD, st, p + 6);
    assert Asked(3, 1) == 1 && Saved(info, 3, 1) == [];
  }

  lemma {:induction false} ShortEats(p: nat, d: nat, stack: seq<Frame>, info: seq<RegInfo>)
    requires p < |SHORT| && Fetch(SHORT, p) == Exact([100]) && (d == 2 || d == 3)
    ensures Step(SHORT, XADD, Astray(p, d, stack, 3, 1, info)) == Go(Astray(p + 3, d + 1, stack, 3, 1, info))
  {
    hide Fetch, Step, SHORT, Moves, MarkMatched;
    assert XADD.env.text[d..d + 1] == [100];
    Reads(SHORT, XADD.env, p, [100], d);
    NoneMarked(info, 3, 1);
    Literal(SHORT, XADD, Astray(p, d, stack, 3, 1, info), p + 3, d + 1);
  }

  lemma {:induction false} TwoPassed()
    ensures Avail([Passed(55, 2)]) == 4 && Avail([Passed(55, 2), Passed(61, 3)]) == 8 && Avail([]) == 0
  {
    assert [Passed(55, 2)][..0] == [] && [Passed(55, 2), Passed(61, 3)][..1] == [Passed(55, 2)];
  }

  // Two pushes fill eight of the ten items, and the third is taken to fit.
  lemma {:induction false} ShortEnd(info: seq<RegInfo>)
    ensures Run(SHORT, XADD, Go(Astray(49, 2, [], 3, 1, info)), 5) == Overrun
  {
    hide Fetch, Step, SHORT, Avail, Run, Opens, Middle;
    ShortFetches();
    TwoPassed();
    var one, two := [Passed(55, 2)], [Passed(55, 2), Passed(61, 3)];
    assert [] + [Passed(55, 2)] == one && one + [Passed(61, 3)] == two;
    ShortPush(49, 2, [], info);
    ShortEats(52, 2, one, info);
    ShortPush(55, 3, one, info);
    ShortEats(58, 3, two, info);
    ShortPush(61, 4, two, info);
    EndsIn(SHORT, XADD, Astray(61, 4, two, 3, 1, info), Overrun);
    Then(SHORT, XADD, Astray(58, 3, two, 3, 1, info), Astray(61, 4, two, 3, 1, info), 1, Overrun);
    Then(SHORT, XADD, Astray(55, 3, one, 3, 1, info), Astray(58, 3, two, 3, 1, info), 2, Overrun);
    Then(SHORT, XADD, Astray(52, 2, one, 3, 1, info), Astray(55, 3, one, 3, 1, info), 3, Overrun);
    Then(SHORT, XADD, Astray(49, 2, [], 3, 1, info), Astray(52, 2, one, 3, 1, info), 4, Overrun);
  }

  const SHORT_TREE :=
    Alt(Cat(Lit([120]), Group(1, 0, Lit([97, 98]))),
        Cat(Lit([120]), Cat(Group(2, 0, Lit([97])),
          Cat(Group(3, 1, Opt(Group(4, 0, Lit([99])))), Cat(Opt(Lit([100])), Cat(Opt(Lit([100])), Opt(Lit([100]))))))))

  lemma {:induction false} ShortCode()
    ensures Emit(SHORT_TREE) == SHORT
  {
    hide Emit, Opening;
    InnerCode(3);
    OptDCode();
    var inner, d := Group(3, 1, Opt(Group(4, 0, Lit([99])))), Opt(Lit([100]));
    CatEmits(d, d);
    CatEmits(d, Cat(d, d));
    CatEmits(inner, Cat(d, Cat(d, d)));
    OpeningCode(Cat(inner, Cat(d, Cat(d, d))), SHORT_TAIL);
  }

  lemma {:induction false} ShortSpans()
    ensures Spans(SHORT_TREE, XADD.env, 0, 4)
  {
    hide Spans;
    var env := XADD.env;
    var inner, d := Group(3, 1, Opt(Group(4, 0, Lit([99])))), Opt(Lit([100]));
    LitSpans(env, 100, 2);
    LitSpans(env, 100, 3);
    OptSpans(Lit([100]), env, 2, 3);
    OptSpans(Lit([100]), env, 3, 4);
    OptSpans(Lit([100]), env, 4, 4);
    OptSpans(Group(4, 0, Lit([99])), env, 2, 2);
    GroupSpans(3, 1, Opt(Group(4, 0, Lit([99]))), env, 2, 2);
    CatJoin(d, d, env, 3, 4, 4);
    CatJoin(d, Cat(d, d), env, 2, 3, 4);
    CatJoin(inner, Cat(d, Cat(d, d)), env, 2, 2, 4);
    SecondSpans(env, Cat(inner, Cat(d, Cat(d, d))), 4);
  }

  // At each d? registers 3 to 1 are active: one item is asked for and four are stored, so the third push
  // writes past the end of a stack of ten items that already holds eight.
  lemma {:induction false} TooFewAsked()
    ensures Emit(SHORT_TREE) == SHORT && Match(SHORT, XADD, 18) == Overrun
    ensures Spans(SHORT_TREE, XADD.env, 0, 4) && Simple(SHORT_TREE) && Numbered(SHORT_TREE, 0) && !Tame(SHORT_TREE)
  {
    hide Match, Emit, Spans, SHORT, Simple, Numbered, Tame;
    ShortCode();
    ShortSpans();
    ShortRun();
    ShortShape();
  }

  lemma {:induction false} ShortRun()
    ensures Match(SHORT, XADD, 18) == Overrun
  {
    hide Run, SHORT, Fetch, Opens, Middle, Moves;
    ShortFetches();
    ShortEnd(FOUR_GROUPS);
    assert LeftActive(FOUR_GROUPS, 3);
    assert XADD.env.text[2..3] == [100];
    MiddleRun(SHORT, XADD, 31, 3, 2, FOUR_GROUPS, 5, Overrun);
    assert XADD.env.text[..2] == [120, 97] && XADD.env.text[1..3][1] == 100;
    OpeningRun(SHORT, 48, XADD, seq(5, _ => IDLE), 10, Overrun);
  }

  lemma {:induction false} ShortShape()
    ensures Simple(SHORT_TREE) && Numbered(SHORT_TREE, 0) && !Tame(SHORT_TREE)
  {
    hide Simple, Numbered, TameFrom, Groups;
    var inner, d := Group(3, 1, Opt(Group(4, 0, Lit([99])))), Opt(Lit([100]));
    InnerShape(3);
    OptDShape(4);
    CatShape(d, d, 4);
    CatShape(d, Cat(d, d), 4);
    CatShape(inner, Cat(d, Cat(d, d)), 2);
    OpeningShape(Cat(inner, Cat(d, Cat(d, d))));
  }
}
