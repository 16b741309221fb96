// Soundness of the matcher, for every program the compiler emits: whatever length it returns
// is matched by the tree, and it never pops an empty failure stack.
module RegexSound {
  import opened Bytes
  import opened RegexTree
  import opened RegexCode
  import opened RegexResid
  import opened RegexPaths
  import opened RegexMachine
  import opened Wrappers
  import opened RegexDepth

  // The code is exactly that of t.
  ghost predicate Program(code: seq<byte>, t: Re) {
    Embeds(code, 0, t) && |code| == Len(t) <= MAX_REACH
  }

  // Whatever can be reached from position p with the text at d is a match from the start.
  ghost predicate Within(t: Re, cfg: Config, p: int, d: nat) {
    && 0 <= p <= Len(t) && Boundary(t, p) && cfg.pos <= d <= |cfg.env.text|
    && forall e: nat :: Spans(Resid(t, p), cfg.env, d, e) ==> Spans(t, cfg.env, cfg.pos, e)
  }

  // A match found earlier.
  ghost predicate BestOk(t: Re, cfg: Config, best: Option<nat>) {
    best.Some? ==> cfg.pos <= best.value < |cfg.env.text| && Spans(t, cfg.env, cfg.pos, best.value)
  }

  // The i-th failure point from the bottom resumes within the program, no deeper than i loops.
  ghost predicate FrameOk(t: Re, cfg: Config, f: Frame, i: int) {
    f.pat.At? ==> Within(t, cfg, f.pat.p, f.str) && Depth(t, f.pat.p) <= i
  }

  ghost predicate StackOk(t: Re, cfg: Config, stack: seq<Frame>) {
    forall i :: 0 <= i < |stack| ==> FrameOk(t, cfg, stack[i], i)
  }

  // What every step keeps.
  ghost predicate Inv(t: Re, cfg: Config, st: State) {
    && Within(t, cfg, st.p, st.d) && Depth(t, st.p) <= |st.stack|
    && BestOk(t, cfg, st.best) && StackOk(t, cfg, st.stack)
  }

  ghost predicate OutcomeOk(t: Re, cfg: Config, o: Outcome) {
    match o
    case Go(st) => Inv(t, cfg, st)
    case Done(r) => r >= -2 && (r >= 0 ==> Spans(t, cfg.env, cfg.pos, cfg.pos + r))
    case Crash => false
    case Overrun => true
  }

  lemma {:induction false} StackPrefix(t: Re, cfg: Config, stack: seq<Frame>)
    requires StackOk(t, cfg, stack) && stack != []
    ensures StackOk(t, cfg, stack[..|stack| - 1]) && FrameOk(t, cfg, stack[|stack| - 1], |stack| - 1)
  {
    hide FrameOk;
    var s := stack[..|stack| - 1];
    forall i | 0 <= i < |s| ensures FrameOk(t, cfg, s[i], i) {
      assert s[i] == stack[i];
    }
  }

  lemma {:induction false} StackPush(t: Re, cfg: Config, stack: seq<Frame>, f: Frame)
    requires StackOk(t, cfg, stack) && FrameOk(t, cfg, f, |stack|)
    ensures StackOk(t, cfg, stack + [f])
  {
    hide FrameOk;
    var s := stack + [f];
    forall i | 0 <= i < |s| ensures FrameOk(t, cfg, s[i], i) {
      if i < |stack| { assert s[i] == stack[i]; }
    }
  }

  lemma {:induction false} FailOk(code: seq<byte>, t: Re, cfg: Config, st: State)
    requires BestOk(t, cfg, st.best) && StackOk(t, cfg, st.stack)
    ensures OutcomeOk(t, cfg, Fail(code, cfg, st))
    decreases |st.stack|
  {
    hide Within, Depth, LoopJumpAt, StackOk;
    if st.stack != [] {
      StackPrefix(t, cfg, st.stack);
      var f := st.stack[|st.stack| - 1];
      var st' := st.(stack := st.stack[..|st.stack| - 1], low := f.low, high := f.high,
                     info := Restored(st.info, f.low, f.saved));
      match f.pat
      case Null => FailOk(code, t, cfg, st');
      case At(p) => FailOk(code, t, cfg, st'.(p := p, d := f.str));
    }
  }

  lemma {:induction false} AtEndOk(code: seq<byte>, t: Re, cfg: Config, st: State)
    requires Inv(t, cfg, st) && st.p == Len(t)
    ensures OutcomeOk(t, cfg, AtEnd(code, cfg, st))
  {
    hide Resid, Spans, Depth, StackOk, Fail;
    ResidAtEnd(t);
    EndIsMatch(t, cfg, st.d);
    if st.d != |cfg.env.text| && st.stack != [] {
      var longer := st.best.None? || st.d > st.best.value;
      FailOk(code, t, cfg, if longer then st.(best := Some(st.d)) else st);
    }
  }

  lemma {:induction false} EndIsMatch(t: Re, cfg: Config, d: nat)
    requires Within(t, cfg, Len(t), d)
    ensures Spans(t, cfg.env, cfg.pos, d)
  {
    ResidAtEnd(t);
    assert Spans(Eps, cfg.env, d, d);
  }

  // ---- Where one command leads ----

  lemma {:induction false} WithinTo(t: Re, cfg: Config, q: int, d: nat, p: int, d': nat)
    requires Within(t, cfg, q, d) && StepKeeps(t, 0, q, cfg.env, d, To(p, d'))
    ensures Within(t, cfg, p, d')
  {
    hide Resid, Spans, Boundary, Len;
    assert p - 0 == p;
  }

  lemma {:induction false} WithinEither(t: Re, cfg: Config, q: int, d: nat, p1: int, p2: int)
    requires Within(t, cfg, q, d) && StepKeeps(t, 0, q, cfg.env, d, Either(p1, p2))
    ensures Within(t, cfg, p1, d) && Within(t, cfg, p2, d)
  {
    hide Resid, Spans, Boundary, Len;
    assert p1 - 0 == p1 && p2 - 0 == p2;
  }

  // Everything known about one command of the program.
  lemma {:induction false} Command(code: seq<byte>, t: Re, cfg: Config, q: int, d: nat)
    requires Program(code, t) && Within(t, cfg, q, d) && q < Len(t)
    ensures DepthFacts(t, 0, q, Fetch(code, q))
    ensures var m := Moves(code, cfg.env, q, d);
      && (m.To? ==> Within(t, cfg, m.p, m.d))
      && (m.Either? ==> Within(t, cfg, m.p1, d) && Within(t, cfg, m.p2, d))
  {
    hide Resid, Spans, StepKeeps, Moves, DepthFacts, Fetch, Embeds;
    DepthStep(code, 0, t, q);
    ResidStep(code, 0, t, q, cfg.env, d);
    match Moves(code, cfg.env, q, d)
    case Stuck =>
    case To(p, d') => WithinTo(t, cfg, q, d, p, d');
    case Either(p1, p2) => WithinEither(t, cfg, q, d, p1, p2);
  }

  lemma {:induction false} PushOk(t: Re, cfg: Config, st: State, pat: Place, str: nat)
    requires StackOk(t, cfg, st.stack) && (pat.At? ==> Within(t, cfg, pat.p, str) && Depth(t, pat.p) <= |st.stack|)
    ensures var o := Push(cfg, st, pat, str);
      o.Some? ==> (
        && StackOk(t, cfg, o.value.stack) && |o.value.stack| == |st.stack| + 1
        && o.value.best == st.best && o.value.p == st.p && o.value.d == st.d)
  {
    hide Within, Depth, StackOk, Saved, Grown, Avail;
    StackPush(t, cfg, st.stack, Frame(pat, str, st.low, st.high, Saved(st.info, st.low, st.high)));
  }

  lemma {:induction false} PushThenOk(t: Re, cfg: Config, st: State, pat: Place, str: nat, p: int)
    requires BestOk(t, cfg, st.best) && StackOk(t, cfg, st.stack)
    requires pat.At? ==> Within(t, cfg, pat.p, str) && Depth(t, pat.p) <= |st.stack|
    requires Within(t, cfg, p, st.d) && Depth(t, p) <= |st.stack| + 1
    ensures OutcomeOk(t, cfg, PushThen(cfg, st, pat, str, p))
  {
    hide Within, Depth, StackOk, Push;
    PushOk(t, cfg, st, pat, str);
  }

  lemma {:induction false} PopThenOk(t: Re, cfg: Config, st: State, p: int)
    requires BestOk(t, cfg, st.best) && StackOk(t, cfg, st.stack)
    requires Within(t, cfg, p, st.d) && Depth(t, p) < |st.stack|
    ensures OutcomeOk(t, cfg, PopThen(st, p))
  {
    hide Within, Depth, StackOk;
    StackPrefix(t, cfg, st.stack);
  }

  // The empty-iteration exit: the jump after the group leads to the loop's head, and the head's
  // way out carries on from the same place in the text.
  lemma {:induction false} LoopAroundOk(code: seq<byte>, t: Re, cfg: Config, st: State, q: nat, reg: byte)
    requires Program(code, t) && Within(t, cfg, q, st.d) && q < Len(t) && Fetch(code, q).StopMem?
    ensures var head := LoopAround(code, st, q, reg);
      head.Some? ==> (
        && Within(t, cfg, JumpTarget(code, head.value), st.d)
        && Depth(t, JumpTarget(code, head.value)) < Depth(t, q))
  {
    hide Within, Depth, Boundary, Spans, Resid, Embeds;
    var o := LoopAround(code, st, q, reg);
    if o.Some? {
      Command(code, t, cfg, q, st.d);
      LoopHeadOk(code, t, cfg, q + 3, st.d, o.value);
    }
  }

  lemma {:induction false} LoopHeadOk(code: seq<byte>, t: Re, cfg: Config, j: nat, d: nat, head: int)
    requires Program(code, t) && Within(t, cfg, j, d) && j < Len(t)
    requires var op := code[j]; op == POP_FAILURE_JUMP || op == MAYBE_POP_JUMP || op == JUMP || op == DUMMY_FAILURE_JUMP
    requires head == JumpTarget(code, j) && head < j + 3 && Bytes.At(code, head) == ON_FAILURE_JUMP
    ensures Within(t, cfg, JumpTarget(code, head), d) && Depth(t, JumpTarget(code, head)) < Depth(t, j)
  {
    hide Within, Depth, Boundary, Spans, Resid, Embeds;
    Command(code, t, cfg, j, d);
    assert Fetch(code, j) == Goto(MaybePop, head);
    assert Moves(code, cfg.env, j, d) == To(head, d);
    WithinBounds(t, cfg, head, d);
    Command(code, t, cfg, head, d);
    assert Fetch(code, head) == OnFail(JumpTarget(code, head));
  }

  lemma {:induction false} WithinBounds(t: Re, cfg: Config, p: int, d: nat)
    requires Within(t, cfg, p, d)
    ensures 0 <= p <= Len(t)
  {
  }

  lemma {:induction false} StopOk(code: seq<byte>, t: Re, cfg: Config, st: State, reg: byte, inner: byte)
    requires Program(code, t) && Inv(t, cfg, st) && st.p < Len(t) && Fetch(code, st.p) == StopMem(reg, inner)
    ensures OutcomeOk(t, cfg, Execute(code, cfg, st))
  {
    hide Within, Depth, Boundary, Spans, Resid, Embeds, StackOk, Fetch, LoopAround, Fail, Push;
    WithinBounds(t, cfg, st.p, st.d);
    var st' := StopGroup(st, reg);
    Command(code, t, cfg, st.p, st.d);
    LoopAroundOk(code, t, cfg, st', st.p, reg);
    match LoopAround(code, st', st.p, reg)
    case None =>
    case Some(head) =>
      var exit := JumpTarget(code, head);
      PushOk(t, cfg, st', RegexMachine.At(exit), st.d);
      var o := Push(cfg, st', RegexMachine.At(exit), st.d);
      if o.Some? { FailOk(code, t, cfg, o.value); }
  }

  lemma {:induction false} JumpOk(code: seq<byte>, t: Re, cfg: Config, st: State, kind: JumpKind, target: int)
    requires Program(code, t) && Inv(t, cfg, st) && st.p < Len(t) && Fetch(code, st.p) == Goto(kind, target)
    ensures OutcomeOk(t, cfg, Execute(code, cfg, st))
  {
    hide Within, Depth, Boundary, Spans, Resid, Embeds, StackOk, Fetch, PushThen, PopThen, Decide;
    Command(code, t, cfg, st.p, st.d);
    match kind
    case DummyFailure => PushThenOk(t, cfg, st, Null, 0, target);
    case MaybePop => if Decide(code, st.p) { PopThenOk(t, cfg, st, target); }
    case _ =>
  }

  lemma {:induction false} ExecuteOk(code: seq<byte>, t: Re, cfg: Config, st: State)
    requires Program(code, t) && Inv(t, cfg, st) && st.p < Len(t)
    ensures OutcomeOk(t, cfg, Execute(code, cfg, st))
  {
    hide Within, Depth, Boundary, Spans, Resid, Embeds, StackOk, Fetch, PushThen, Fail;
    WithinBounds(t, cfg, st.p, st.d);
    Command(code, t, cfg, st.p, st.d);
    match Fetch(code, st.p)
    case StopMem(reg, inner) => StopOk(code, t, cfg, st, reg, inner);
    case Goto(kind, target) => JumpOk(code, t, cfg, st, kind, target);
    case OnFail(target) =>
      PushThenOk(t, cfg, CoverGroup(code, st, st.p + 3), RegexMachine.At(target), st.d, st.p + 3);
    case PushDummy => PushThenOk(t, cfg, st, Null, 0, st.p + 1);
    case NoOp =>
    case Bad =>
    case StartMem(_, _) =>
    case _ => if Moves(code, cfg.env, st.p, st.d).Stuck? { FailOk(code, t, cfg, st); }
  }

  lemma {:induction false} StepOk(code: seq<byte>, t: Re, cfg: Config, st: State)
    requires Program(code, t) && Inv(t, cfg, st)
    ensures OutcomeOk(t, cfg, Step(code, cfg, st))
  {
    hide Depth, Boundary, Spans, Resid, Embeds, StackOk, Execute, AtEnd;
    if st.p == |code| {
      AtEndOk(code, t, cfg, st);
    } else {
      ExecuteOk(code, t, cfg, st);
    }
  }

  lemma {:induction false} StartOk(code: seq<byte>, t: Re, cfg: Config)
    requires Program(code, t)
    ensures OutcomeOk(t, cfg, Start(cfg))
  {
    hide Spans, Resid;
    StartIsBoundary(t);
    DepthAtStart(t);
    AtStart(t, cfg.env, cfg.pos);
  }

  lemma {:induction false} RunOk(code: seq<byte>, t: Re, cfg: Config, o: Outcome, n: nat)
    requires Program(code, t) && OutcomeOk(t, cfg, o)
    ensures OutcomeOk(t, cfg, Run(code, cfg, o, n))
    decreases n
  {
    hide Inv, Step, Program, Spans;
    if n > 0 && o.Go? {
      StepOk(code, t, cfg, o.st);
      RunOk(code, t, cfg, Step(code, cfg, o.st), n - 1);
    }
  }

  // Whenever the matcher returns a length, the tree matches that stretch, and that stretch labels
  // a path through the program; and the matcher never pops an empty failure stack.
  lemma {:induction false} MatcherSound(t: Re, cfg: Config, n: nat)
    requires WellFormed(t) && Len(t) <= MAX_REACH
    ensures var o := Match(Emit(t), cfg, n);
      && !o.Crash? && (o.Done? ==> o.result >= -2)
      && (o.Done? && o.result >= 0 ==>
            && Spans(t, cfg.env, cfg.pos, cfg.pos + o.result)
            && Leads(Emit(t), cfg.env, 0, cfg.pos, Len(t), cfg.pos + o.result))
  {
    hide Inv, Step, Spans, Run, Start, Leads, Emit, Len;
    var code := Emit(t);
    assert code[0..0 + Len(t)] == code;
    StartOk(code, t, cfg);
    RunOk(code, t, cfg, Start(cfg), n);
    var o := Match(code, cfg, n);
    if o.Done? && o.result >= 0 {
      SpansInText(t, cfg.env, cfg.pos, cfg.pos + o.result);
      PathsSpellTree(t, cfg.env, cfg.pos, cfg.pos + o.result);
    }
  }

  lemma {:induction false} SpansInText(t: Re, env: Env, i: nat, j: nat)
    requires Spans(t, env, i, j)
    ensures i <= j <= |env.text|
  {
  }
}
