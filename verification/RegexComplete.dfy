// Completeness and termination of the matcher where every loop repeats one character.
module RegexComplete {
  import opened Bytes
  import opened RegexTree
  import opened RegexCode
  import opened RegexResid
  import opened RegexDepth
  import opened RegexMachine
  import opened Wrappers
  import opened RegexSound
  import opened RegexRoles
  import opened RegexDecide

  // Some end at or beyond e is reachable from position p with the text at d.
  ghost predicate Reaches(t: Re, env: Env, p: int, d: nat, e: nat) {
    0 <= p <= Len(t) && exists f: nat :: e <= f && Spans(Resid(t, p), env, d, f)
  }

  // Some end at or beyond e is held as the best so far, or reachable from a stacked failure point.
  ghost predicate Held(t: Re, env: Env, best: Option<nat>, stack: seq<Frame>, e: nat) {
    (best.Some? && e <= best.value) || HeldBelow(t, env, stack, e)
  }

  ghost predicate HeldBelow(t: Re, env: Env, stack: seq<Frame>, e: nat)
    decreases |stack|
  {
    stack != [] &&
    (FrameReaches(t, env, stack[|stack| - 1], e) || HeldBelow(t, env, stack[..|stack| - 1], e))
  }

  ghost predicate FrameReaches(t: Re, env: Env, f: Frame, e: nat) {
    f.pat.At? && Reaches(t, env, f.pat.p, f.str, e)
  }

  // No match is lost: each is outdone by something current, held or stacked.
  ghost predicate NothingLost(t: Re, cfg: Config, p: int, d: nat, best: Option<nat>, stack: seq<Frame>) {
    forall e: nat :: Spans(t, cfg.env, cfg.pos, e) ==>
      Reaches(t, cfg.env, p, d, e) || Held(t, cfg.env, best, stack, e)
  }

  // The same, when the current state is a dead end.
  ghost predicate NothingLostBelow(t: Re, cfg: Config, best: Option<nat>, stack: seq<Frame>) {
    forall e: nat :: Spans(t, cfg.env, cfg.pos, e) ==> Held(t, cfg.env, best, stack, e)
  }

  // Failure points resume outside loops.
  ghost predicate FreeFrame(t: Re, f: Frame) {
    f.pat.At? ==> IsRole(t, 0, f.pat.p, Free)
  }

  ghost predicate FreeStack(t: Re, stack: seq<Frame>) {
    forall i :: 0 <= i < |stack| ==> FreeFrame(t, stack[i])
  }

  // Inside a loop, the top failure point is the loop's own, from where this round began, or the
  // dummy pushed on entering a `+'.
  ghost predicate LoopTop(code: seq<byte>, t: Re, env: Env, p: int, d: nat, stack: seq<Frame>) {
    0 <= p <= Len(t) &&
    match RoleOf(t, 0, p)
    case Free => true
    case Body(head) =>
      && stack != [] && 0 <= head < |code|
      && (stack[|stack| - 1].pat == Null || OwnPoint(code, head, stack[|stack| - 1], d))
    case Back(head) =>
      && stack != [] && 0 <= head && head + 3 < |code| && d >= 1
      && (stack[|stack| - 1].pat == Null ||
           (OwnPoint(code, head, stack[|stack| - 1], d - 1)
            && d <= |env.text| && Accepts(Fetch(code, head + 3), env.text[d - 1])))
  }

  ghost predicate OwnPoint(code: seq<byte>, head: int, f: Frame, d: nat)
    requires 0 <= head < |code|
  {
    Fetch(code, head) == OnFail(JumpTarget(code, head)) && f.pat == At(JumpTarget(code, head)) && f.str == d
  }

  ghost predicate SimpleInv(code: seq<byte>, t: Re, cfg: Config, st: State) {
    && Inv(t, cfg, st)
    && NothingLost(t, cfg, st.p, st.d, st.best, st.stack)
    && FreeStack(t, st.stack)
    && LoopTop(code, t, cfg.env, st.p, st.d, st.stack)
  }

  // Some length is returned exactly when there is a match, and the whole rest exactly when it matches.
  ghost predicate Decides(t: Re, cfg: Config, r: int) {
    && r >= -1
    && (r >= 0 <==> exists e: nat :: Spans(t, cfg.env, cfg.pos, e))
    && (cfg.pos + r == |cfg.env.text| <==> Spans(t, cfg.env, cfg.pos, |cfg.env.text|))
  }

  // The same, unless the failure stack overflows; RegexOverflow tells when it cannot.
  ghost predicate Final(t: Re, cfg: Config, r: int) {
    r == -2 || Decides(t, cfg, r)
  }

  ghost predicate SimpleOutcome(code: seq<byte>, t: Re, cfg: Config, o: Outcome) {
    match o
    case Go(st) => SimpleInv(code, t, cfg, st)
    case Done(r) => Final(t, cfg, r)
    case Crash => false
    case Overrun => true
  }

  // ---- Reaching ends, step by step ----

  lemma {:induction false} ReachesTo(t: Re, env: Env, q: int, d: nat, p: int, d': nat)
    requires 0 <= q <= Len(t) && StepKeeps(t, 0, q, env, d, To(p, d'))
    ensures forall e: nat :: Reaches(t, env, q, d, e) <==> Reaches(t, env, p, d', e)
  {
    hide Resid, Spans, Boundary, Len;
    assert p - 0 == p;
    forall e: nat ensures Reaches(t, env, q, d, e) <==> Reaches(t, env, p, d', e) {
      if Reaches(t, env, q, d, e) {
        var f: nat :| e <= f && Spans(Resid(t, q), env, d, f);
        assert Spans(Resid(t, p), env, d', f);
      }
      if Reaches(t, env, p, d', e) {
        var f: nat :| e <= f && Spans(Resid(t, p), env, d', f);
        assert Spans(Resid(t, q), env, d, f);
      }
    }
  }

  lemma {:induction false} ReachesEither(t: Re, env: Env, q: int, d: nat, p1: int, p2: int)
    requires 0 <= q <= Len(t) && StepKeeps(t, 0, q, env, d, Either(p1, p2))
    ensures forall e: nat :: Reaches(t, env, q, d, e) <==> Reaches(t, env, p1, d, e) || Reaches(t, env, p2, d, e)
  {
    hide Resid, Spans, Boundary, Len;
    assert p1 - 0 == p1 && p2 - 0 == p2;
    forall e: nat ensures Reaches(t, env, q, d, e) <==> Reaches(t, env, p1, d, e) || Reaches(t, env, p2, d, e) {
      ReachesEitherAt(t, env, q, d, p1, p2, e);
    }
  }

  lemma {:induction false} ReachesEitherAt(t: Re, env: Env, q: int, d: nat, p1: int, p2: int, e: nat)
    requires 0 <= q <= Len(t) && 0 <= p1 <= Len(t) && 0 <= p2 <= Len(t)
    requires forall f: nat :: Spans(Resid(t, q), env, d, f) <==>
      Spans(Resid(t, p1), env, d, f) || Spans(Resid(t, p2), env, d, f)
    ensures Reaches(t, env, q, d, e) <==> Reaches(t, env, p1, d, e) || Reaches(t, env, p2, d, e)
  {
    hide Resid, Spans, Len;
    if Reaches(t, env, q, d, e) {
      var f: nat :| e <= f && Spans(Resid(t, q), env, d, f);
      assert Spans(Resid(t, p1), env, d, f) || Spans(Resid(t, p2), env, d, f);
    }
  }

  lemma {:induction false} ReachesStuck(t: Re, env: Env, q: int, d: nat, e: nat)
    requires 0 <= q <= Len(t) && StepKeeps(t, 0, q, env, d, Stuck)
    ensures !Reaches(t, env, q, d, e)
  {
    hide Resid, Spans, Len;
  }

  lemma {:induction false} LostTo(t: Re, cfg: Config, q: int, d: nat, p: int, d': nat, best: Option<nat>,
        stack: seq<Frame>)
    requires 0 <= q <= Len(t) && StepKeeps(t, 0, q, cfg.env, d, To(p, d'))
    requires NothingLost(t, cfg, q, d, best, stack)
    ensures NothingLost(t, cfg, p, d', best, stack)
  {
    hide Reaches, Held, Spans, StepKeeps, Len;
    ReachesTo(t, cfg.env, q, d, p, d');
  }

  lemma {:induction false} LostStuck(t: Re, cfg: Config, q: int, d: nat, best: Option<nat>, stack: seq<Frame>)
    requires 0 <= q <= Len(t) && StepKeeps(t, 0, q, cfg.env, d, Stuck)
    requires NothingLost(t, cfg, q, d, best, stack)
    ensures NothingLostBelow(t, cfg, best, stack)
  {
    hide Reaches, Held, Spans, StepKeeps, Len;
    forall e: nat | Spans(t, cfg.env, cfg.pos, e) ensures Held(t, cfg.env, best, stack, e) {
      ReachesStuck(t, cfg.env, q, d, e);
    }
  }

  lemma {:induction false} HeldPush(t: Re, env: Env, best: Option<nat>, stack: seq<Frame>, f: Frame, e: nat)
    ensures Held(t, env, best, stack + [f], e) <==> FrameReaches(t, env, f, e) || Held(t, env, best, stack, e)
  {
    hide FrameReaches;
    var s := stack + [f];
    assert s[..|s| - 1] == stack;
    assert HeldBelow(t, env, s, e) == (FrameReaches(t, env, f, e) || HeldBelow(t, env, stack, e));
  }

  lemma {:induction false} HeldPop(t: Re, env: Env, best: Option<nat>, stack: seq<Frame>, e: nat)
    requires stack != []
    ensures Held(t, env, best, stack, e) <==>
      FrameReaches(t, env, stack[|stack| - 1], e) || Held(t, env, best, stack[..|stack| - 1], e)
  {
    hide FrameReaches;
  }

  // Going one way and pushing the other loses nothing.
  lemma {:induction false} LostEither(t: Re, cfg: Config, q: int, d: nat, p1: int, p2: int, best: Option<nat>,
        stack: seq<Frame>, f: Frame)
    requires 0 <= q <= Len(t) && StepKeeps(t, 0, q, cfg.env, d, Either(p1, p2))
    requires NothingLost(t, cfg, q, d, best, stack) && f.pat == RegexMachine.At(p2) && f.str == d
    ensures NothingLost(t, cfg, p1, d, best, stack + [f])
  {
    hide Reaches, Held, Spans, StepKeeps, Len;
    ReachesEither(t, cfg.env, q, d, p1, p2);
    forall e: nat | Spans(t, cfg.env, cfg.pos, e)
      ensures Reaches(t, cfg.env, p1, d, e) || Held(t, cfg.env, best, stack + [f], e)
    {
      HeldPush(t, cfg.env, best, stack, f, e);
    }
  }

  lemma {:induction false} LostPushNull(t: Re, cfg: Config, p: int, d: nat, best: Option<nat>, stack: seq<Frame>,
        f: Frame)
    requires NothingLost(t, cfg, p, d, best, stack) && f.pat == Null
    ensures NothingLost(t, cfg, p, d, best, stack + [f])
  {
    hide Reaches, Held, Spans;
    forall e: nat | Spans(t, cfg.env, cfg.pos, e)
      ensures Reaches(t, cfg.env, p, d, e) || Held(t, cfg.env, best, stack + [f], e)
    {
      HeldPush(t, cfg.env, best, stack, f, e);
    }
  }

  // Popping a point whose ends are reachable anyway loses nothing.
  lemma {:induction false} LostPop(t: Re, cfg: Config, p: int, d: nat, best: Option<nat>, stack: seq<Frame>)
    requires NothingLost(t, cfg, p, d, best, stack) && stack != []
    requires forall e: nat :: FrameReaches(t, cfg.env, stack[|stack| - 1], e) ==> Reaches(t, cfg.env, p, d, e)
    ensures NothingLost(t, cfg, p, d, best, stack[..|stack| - 1])
  {
    hide Reaches, Held, Spans, FrameReaches;
    forall e: nat | Spans(t, cfg.env, cfg.pos, e)
      ensures Reaches(t, cfg.env, p, d, e) || Held(t, cfg.env, best, stack[..|stack| - 1], e)
    {
      HeldPop(t, cfg.env, best, stack, e);
    }
  }

  // Recording the place where the pattern ended.
  lemma {:induction false} LostRecord(t: Re, cfg: Config, d: nat, best: Option<nat>, best': Option<nat>,
        stack: seq<Frame>)
    requires NothingLost(t, cfg, Len(t), d, best, stack)
    requires best'.Some? && d <= best'.value && (best.Some? ==> best.value <= best'.value)
    ensures NothingLostBelow(t, cfg, best', stack)
  {
    hide Spans, HeldBelow, Len;
    forall e: nat | Spans(t, cfg.env, cfg.pos, e) ensures Held(t, cfg.env, best', stack, e) {
      if Reaches(t, cfg.env, Len(t), d, e) { ReachesEnd(t, cfg.env, d, e); }
    }
  }

  lemma {:induction false} ReachesEnd(t: Re, env: Env, d: nat, e: nat)
    requires Reaches(t, env, Len(t), d, e)
    ensures e <= d
  {
    var f: nat :| e <= f && Spans(Resid(t, Len(t)), env, d, f);
    EpsAtEnd(t, env, d, f);
  }

  // ---- Failing ----

  lemma {:induction false} FreePrefix(t: Re, stack: seq<Frame>)
    requires FreeStack(t, stack) && stack != []
    ensures FreeStack(t, stack[..|stack| - 1]) && FreeFrame(t, stack[|stack| - 1])
  {
    hide FreeFrame;
    var s := stack[..|stack| - 1];
    forall i | 0 <= i < |s| ensures FreeFrame(t, s[i]) { assert s[i] == stack[i]; }
  }

  lemma {:induction false} FreePush(t: Re, stack: seq<Frame>, f: Frame)
    requires FreeStack(t, stack) && FreeFrame(t, f)
    ensures FreeStack(t, stack + [f])
  {
    hide FreeFrame;
    var s := stack + [f];
    forall i | 0 <= i < |s| ensures FreeFrame(t, s[i]) {
      if i < |stack| { assert s[i] == stack[i]; }
    }
  }

  lemma {:induction false} FreeIsNoLoopJump(code: seq<byte>, t: Re, cfg: Config, p: int, d: nat)
    requires Program(code, t) && Simple(t) && Within(t, cfg, p, d) && IsRole(t, 0, p, Free)
    ensures !LoopJumpAt(code, p)
  {
    hide Resid, Spans, Embeds, Boundary, RoleOf;
    if p < Len(t) {
      RoleStep(code, 0, t, p);
      assert 0 + p == p && p - 0 == p;
    }
  }

  lemma {:induction false} GiveUpFinal(t: Re, cfg: Config, best: Option<nat>)
    requires BestOk(t, cfg, best) && NothingLostBelow(t, cfg, best, []) && cfg.pos <= |cfg.env.text|
    ensures Final(t, cfg, (match best case None => -1 case Some(b) => b - cfg.pos))
  {
    hide Spans;
    var n := |cfg.env.text|;
    forall e: nat | Spans(t, cfg.env, cfg.pos, e) ensures best.Some? && e <= best.value {
      assert Held(t, cfg.env, best, [], e);
    }
  }

  lemma {:induction false} FailFinds(code: seq<byte>, t: Re, cfg: Config, st: State)
    requires Program(code, t) && Simple(t) && cfg.pos <= |cfg.env.text|
    requires BestOk(t, cfg, st.best) && StackOk(t, cfg, st.stack) && FreeStack(t, st.stack)
    requires NothingLostBelow(t, cfg, st.best, st.stack)
    ensures SimpleOutcome(code, t, cfg, Fail(code, cfg, st))
    decreases |st.stack|
  {
    hide Within, Depth, StackOk, FreeStack, LoopJumpAt, Embeds, NothingLostBelow, NothingLost, IsRole, Simple, LoopTop,
      Spans;
    if st.stack == [] {
      GiveUpFinal(t, cfg, st.best);
    } else {
      StackPrefix(t, cfg, st.stack);
      FreePrefix(t, st.stack);
      var f, s := st.stack[|st.stack| - 1], st.stack[..|st.stack| - 1];
      var st' := st.(stack := s, low := f.low, high := f.high, info := Restored(st.info, f.low, f.saved));
      match f.pat
      case Null =>
        DropNull(t, cfg, st.best, st.stack);
        FailFinds(code, t, cfg, st');
      case At(p) =>
        FreeIsNoLoopJump(code, t, cfg, p, f.str);
        Resume(t, cfg, st.best, st.stack);
        FreeTop(code, t, cfg.env, p, f.str, s);
    }
  }

  lemma {:induction false} DropNull(t: Re, cfg: Config, best: Option<nat>, stack: seq<Frame>)
    requires stack != [] && stack[|stack| - 1].pat == Null && NothingLostBelow(t, cfg, best, stack)
    ensures NothingLostBelow(t, cfg, best, stack[..|stack| - 1])
  {
    hide Spans, Held;
    forall e: nat | Spans(t, cfg.env, cfg.pos, e) ensures Held(t, cfg.env, best, stack[..|stack| - 1], e) {
      HeldPop(t, cfg.env, best, stack, e);
    }
  }

  lemma {:induction false} Resume(t: Re, cfg: Config, best: Option<nat>, stack: seq<Frame>)
    requires stack != [] && stack[|stack| - 1].pat.At? && NothingLostBelow(t, cfg, best, stack)
    ensures var f := stack[|stack| - 1]; NothingLost(t, cfg, f.pat.p, f.str, best, stack[..|stack| - 1])
  {
    hide Spans, Held, Reaches;
    var f := stack[|stack| - 1];
    forall e: nat | Spans(t, cfg.env, cfg.pos, e)
      ensures Reaches(t, cfg.env, f.pat.p, f.str, e) || Held(t, cfg.env, best, stack[..|stack| - 1], e)
    {
      HeldPop(t, cfg.env, best, stack, e);
    }
  }

  lemma {:induction false} FreeTop(code: seq<byte>, t: Re, env: Env, p: int, d: nat, stack: seq<Frame>)
    requires IsRole(t, 0, p, Free)
    ensures LoopTop(code, t, env, p, d, stack)
  {
    assert p - 0 == p;
  }

  // ---- One step ----

  lemma {:induction false} SimpleCommand(code: seq<byte>, t: Re, cfg: Config, q: int, d: nat)
    requires Program(code, t) && Simple(t) && Within(t, cfg, q, d) && q < Len(t)
    ensures RoleFacts(code, t, 0, q, Fetch(code, q)) && StepKeeps(t, 0, q, cfg.env, d, Moves(code, cfg.env, q, d))
  {
    hide Fetch, RoleFacts, StepKeeps, Moves, Spans, Resid, Embeds;
    RoleStep(code, 0, t, q);
    assert 0 + q == q;
    ResidStep(code, 0, t, q, cfg.env, d);
  }

  lemma {:induction false} AtEndFinds(code: seq<byte>, t: Re, cfg: Config, st: State)
    requires Program(code, t) && Simple(t) && SimpleInv(code, t, cfg, st) && st.p == Len(t)
    ensures SimpleOutcome(code, t, cfg, AtEnd(code, cfg, st))
  {
    hide Spans, Depth, StackOk, FreeStack, Fail, Embeds, NothingLost, NothingLostBelow, LoopTop, Resid, Boundary,
      Simple, Final;
    var n := |cfg.env.text|;
    EndIsMatch(t, cfg, st.d);
    if st.d == n {
      WholeIsFinal(t, cfg);
    } else if st.stack == [] {
      LastIsFinal(t, cfg, st.d, st.best);
    } else {
      var longer := st.best.None? || st.d > st.best.value;
      var best := if longer then Some(st.d) else st.best;
      LostRecord(t, cfg, st.d, st.best, best, st.stack);
      FailFinds(code, t, cfg, st.(best := best));
    }
  }

  lemma {:induction false} WholeIsFinal(t: Re, cfg: Config)
    requires Spans(t, cfg.env, cfg.pos, |cfg.env.text|) && cfg.pos <= |cfg.env.text|
    ensures Final(t, cfg, |cfg.env.text| - cfg.pos)
  {
    hide Spans;
  }

  lemma {:induction false} LastIsFinal(t: Re, cfg: Config, d: nat, best: Option<nat>)
    requires NothingLost(t, cfg, Len(t), d, best, []) && BestOk(t, cfg, best)
    requires Spans(t, cfg.env, cfg.pos, d) && cfg.pos <= d < |cfg.env.text|
    ensures Final(t, cfg, (if best.Some? then best.value else d) - cfg.pos)
  {
    hide Spans;
    var n := |cfg.env.text|;
    if Spans(t, cfg.env, cfg.pos, n) {
      if Reaches(t, cfg.env, Len(t), d, n) { ReachesEnd(t, cfg.env, d, n); }
    }
  }

  // Text-consuming and position-testing commands, and group commands.
  lemma {:induction false} MoveFinds(code: seq<byte>, t: Re, cfg: Config, st: State, st': State)
    requires Program(code, t) && Simple(t) && SimpleInv(code, t, cfg, st) && st.p < Len(t)
    requires var i := Fetch(code, st.p); !i.Goto? && !i.OnFail? && !i.PushDummy?
    requires Moves(code, cfg.env, st.p, st.d) == To(st'.p, st'.d) && st'.best == st.best && st'.stack == st.stack
    requires Inv(t, cfg, st')
    ensures SimpleInv(code, t, cfg, st')
  {
    hide Spans, Depth, StackOk, FreeStack, Embeds, NothingLost, Resid, Boundary, Simple, StepKeeps, Fetch, Inv, LoopTop;
    InvWithin(t, cfg, st);
    SimpleCommand(code, t, cfg, st.p, st.d);
    LostTo(t, cfg, st.p, st.d, st'.p, st'.d, st.best, st.stack);
    MoveTop(code, t, cfg.env, st.p, st.d, st'.p, st'.d, st.stack);
  }

  lemma {:induction false} InvWithin(t: Re, cfg: Config, st: State)
    requires Inv(t, cfg, st)
    ensures Within(t, cfg, st.p, st.d) && 0 <= st.p <= Len(t)
  {
  }

  lemma {:induction false} MoveTop(code: seq<byte>, t: Re, env: Env, p: int, d: nat, p': int, d': nat,
        stack: seq<Frame>)
    requires 0 <= p < Len(t) && |code| == Len(t) && RoleFacts(code, t, 0, p, Fetch(code, p))
    requires var i := Fetch(code, p); !i.Goto? && !i.OnFail? && !i.PushDummy?
    requires Moves(code, env, p, d) == To(p', d') && LoopTop(code, t, env, p, d, stack)
    ensures LoopTop(code, t, env, p', d', stack)
  {
    hide Fetch, RoleOf, OwnPoint;
    var i := Fetch(code, p);
    assert p - 0 == p && p' - 0 == p';
    assert p' == p + Size(i);
    if RoleOf(t, 0, p).Body? {
      EatenOne(code, env, p, d);
    }
  }

  lemma {:induction false} EatenOne(code: seq<byte>, env: Env, p: nat, d: nat)
    requires p < |code| && EatsOne(Fetch(code, p)) && Moves(code, env, p, d).To?
    ensures Moves(code, env, p, d).d == d + 1 <= |env.text| && Accepts(Fetch(code, p), env.text[d])
  {
    hide Fetch;
    if Fetch(code, p).Exact? {
      LitNeedsFirst(env, Fetch(code, p).chars, d);
    }
  }

  lemma {:induction false} EatFinds(code: seq<byte>, t: Re, cfg: Config, st: State)
    requires Program(code, t) && Simple(t) && SimpleInv(code, t, cfg, st) && st.p < Len(t)
    requires var i := Fetch(code, st.p); i.Exact? || i.AnyChar? || i.CharSet? || i.BegLine? || i.EndLine?
    ensures SimpleOutcome(code, t, cfg, Execute(code, cfg, st))
  {
    hide Spans, Depth, StackOk, FreeStack, Embeds, NothingLost, NothingLostBelow, Resid, Boundary, Simple, StepKeeps,
      Fetch, Inv, LoopTop, Moves, Fail, RoleFacts;
    ExecuteOk(code, t, cfg, st);
    InvWithin(t, cfg, st);
    match Moves(code, cfg.env, st.p, st.d)
    case To(p, d) =>
      MoveFinds(code, t, cfg, st, Execute(code, cfg, st).st);
    case _ =>
      SimpleCommand(code, t, cfg, st.p, st.d);
      EatMoves(code, cfg.env, st.p, st.d);
      LostStuck(t, cfg, st.p, st.d, st.best, st.stack);
      InvParts(t, cfg, st);
      FailFinds(code, t, cfg, st);
  }

  lemma {:induction false} EatMoves(code: seq<byte>, env: Env, p: nat, d: nat)
    requires p < |code|
    requires var i := Fetch(code, p); i.Exact? || i.AnyChar? || i.CharSet? || i.BegLine? || i.EndLine?
    ensures !Moves(code, env, p, d).Either?
  {
    hide Fetch;
  }

  lemma {:induction false} InvParts(t: Re, cfg: Config, st: State)
    requires Inv(t, cfg, st)
    ensures BestOk(t, cfg, st.best) && StackOk(t, cfg, st.stack) && cfg.pos <= |cfg.env.text|
  {
  }

  // No group of a simple program is repeated.
  lemma {:induction false} NoLoopAround(code: seq<byte>, t: Re, cfg: Config, st: State, q: nat, d: nat, reg: byte)
    requires Program(code, t) && Simple(t) && Within(t, cfg, q, d) && q < Len(t) && Fetch(code, q).StopMem?
    ensures LoopAround(code, st, q, reg) == None
  {
    hide Spans, Embeds, Resid, Boundary, Simple, StepKeeps, Fetch, Within, LoopAround, DepthFacts;
    SimpleCommand(code, t, cfg, q, d);
    Command(code, t, cfg, q, d);
    assert IsRole(t, 0, q + 3, Free) by { assert !RoleOf(t, 0, q).Body?; }
    assert Moves(code, cfg.env, q, d) == To(q + 3, d);
    if q + 3 < Len(t) {
      Command(code, t, cfg, q + 3, d);
      SimpleCommand(code, t, cfg, q + 3, d);
      NotAround(code, t, st, q, reg);
    } else {
      NothingAround(code, st, q, reg);
    }
  }

  lemma {:induction false} NothingAround(code: seq<byte>, st: State, q: nat, reg: byte)
    requires q + 3 >= |code|
    ensures LoopAround(code, st, q, reg) == None
  {
  }

  lemma {:induction false} NotAround(code: seq<byte>, t: Re, st: State, q: nat, reg: byte)
    requires q + 3 < Len(t) == |code| && IsRole(t, 0, q + 3, Free)
    requires RoleFacts(code, t, 0, q + 3, Fetch(code, q + 3)) && DepthFacts(t, 0, q + 3, Fetch(code, q + 3))
    ensures LoopAround(code, st, q, reg) == None
  {
    hide RoleOf, Depth;
    assert q + 3 - 0 == q + 3;
  }

  lemma {:induction false} GroupFinds(code: seq<byte>, t: Re, cfg: Config, st: State)
    requires Program(code, t) && Simple(t) && SimpleInv(code, t, cfg, st) && st.p < Len(t)
    requires var i := Fetch(code, st.p); i.StartMem? || i.StopMem?
    ensures SimpleOutcome(code, t, cfg, Execute(code, cfg, st))
  {
    hide Spans, Depth, StackOk, FreeStack, Embeds, NothingLost, Resid, Boundary, Simple, StepKeeps, Fetch, Inv, LoopTop,
      LoopAround;
    ExecuteOk(code, t, cfg, st);
    InvWithin(t, cfg, st);
    var i := Fetch(code, st.p);
    if i.StopMem? {
      NoLoopAround(code, t, cfg, StopGroup(st, i.reg), st.p, st.d, i.reg);
    }
    MoveFinds(code, t, cfg, st, Execute(code, cfg, st).st);
  }

  lemma {:induction false} ForkFinds(code: seq<byte>, t: Re, cfg: Config, st: State, target: int)
    requires Program(code, t) && Simple(t) && SimpleInv(code, t, cfg, st) && st.p < Len(t)
    requires Fetch(code, st.p) == OnFail(target)
    ensures SimpleOutcome(code, t, cfg, Execute(code, cfg, st))
  {
    hide Spans, Depth, StackOk, FreeStack, Embeds, NothingLost, Resid, Boundary, Simple, StepKeeps, Fetch, Inv, LoopTop,
      Push, RoleFacts;
    ExecuteOk(code, t, cfg, st);
    InvWithin(t, cfg, st);
    SimpleCommand(code, t, cfg, st.p, st.d);
    var covered := CoverGroup(code, st, st.p + 3);
    PushShape(cfg, covered, RegexMachine.At(target), st.d);
    var o := Push(cfg, covered, RegexMachine.At(target), st.d);
    if o.Some? {
      var f := o.value.stack[|st.stack|];
      LostEither(t, cfg, st.p, st.d, st.p + 3, target, st.best, st.stack, f);
      ForkTop(code, t, cfg.env, st.p, target, st.d, st.stack, f);
      FreePush(t, st.stack, f);
    }
  }

  lemma {:induction false} PushShape(cfg: Config, st: State, pat: Place, str: nat)
    ensures var o := Push(cfg, st, pat, str);
      o.Some? ==> (
        && |o.value.stack| == |st.stack| + 1 && o.value.stack == st.stack + [o.value.stack[|st.stack|]]
        && o.value.stack[|st.stack|].pat == pat && o.value.stack[|st.stack|].str == str
        && o.value.best == st.best && o.value.p == st.p && o.value.d == st.d)
  {
    hide Grown, Avail;
  }

  lemma {:induction false} ForkTop(code: seq<byte>, t: Re, env: Env, p: int, target: int, d: nat, stack: seq<Frame>,
        f: Frame)
    requires 0 <= p < Len(t) == |code| && Fetch(code, p) == OnFail(target) && RoleFacts(code, t, 0, p, OnFail(target))
    requires f.pat == RegexMachine.At(target) && f.str == d
    ensures LoopTop(code, t, env, p + 3, d, stack + [f]) && FreeFrame(t, f)
  {
    hide RoleOf;
    assert p + 3 - 0 == p + 3;
    var s := stack + [f];
    assert s[|s| - 1] == f;
  }

  lemma {:induction false} DummyFinds(code: seq<byte>, t: Re, cfg: Config, st: State)
    requires Program(code, t) && Simple(t) && SimpleInv(code, t, cfg, st) && st.p < Len(t)
    requires var i := Fetch(code, st.p); i.PushDummy? || (i.Goto? && i.kind.DummyFailure?)
    ensures SimpleOutcome(code, t, cfg, Execute(code, cfg, st))
  {
    hide Spans, Depth, StackOk, FreeStack, Embeds, NothingLost, Resid, Boundary, Simple, StepKeeps, Fetch, Inv, LoopTop,
      Push, RoleFacts, DepthFacts;
    ExecuteOk(code, t, cfg, st);
    InvWithin(t, cfg, st);
    SimpleCommand(code, t, cfg, st.p, st.d);
    Command(code, t, cfg, st.p, st.d);
    PushShape(cfg, st, Null, 0);
    var o, p := Push(cfg, st, Null, 0), DummyNext(Fetch(code, st.p), st.p);
    if o.Some? {
      var f := o.value.stack[|st.stack|];
      assert Moves(code, cfg.env, st.p, st.d) == To(p, st.d);
      LostTo(t, cfg, st.p, st.d, p, st.d, st.best, st.stack);
      LostPushNull(t, cfg, p, st.d, st.best, st.stack, f);
      DummyTop(code, t, cfg.env, st.p, st.d, st.stack, f);
      FreePush(t, st.stack, f);
    }
  }

  function DummyNext(i: Instr, p: int): int {
    if i.Goto? then i.target else p + 1
  }

  lemma {:induction false} DummyTop(code: seq<byte>, t: Re, env: Env, p: int, d: nat, stack: seq<Frame>, f: Frame)
    requires 0 <= p < Len(t) == |code|
    requires var i := Fetch(code, p); i.PushDummy? || (i.Goto? && i.kind.DummyFailure?)
    requires RoleFacts(code, t, 0, p, Fetch(code, p)) && DepthFacts(t, 0, p, Fetch(code, p)) && f.pat == Null
    ensures LoopTop(code, t, env, DummyNext(Fetch(code, p), p), d, stack + [f])
  {
    hide RoleOf, Depth, Fetch;
    var i, s := Fetch(code, p), stack + [f];
    assert s[|s| - 1] == f;
    assert p - 0 == p && DummyNext(i, p) - 0 == DummyNext(i, p);
    if i.PushDummy? { assert !RoleOf(t, 0, p).Body?; }
  }

  lemma {:induction false} PlainJumpFinds(code: seq<byte>, t: Re, cfg: Config, st: State, kind: JumpKind, target: int)
    requires Program(code, t) && Simple(t) && SimpleInv(code, t, cfg, st) && st.p < Len(t)
    requires Fetch(code, st.p) == Goto(kind, target) && Inv(t, cfg, st.(p := target))
    requires kind.PastAlt? || kind.MaybePop?
    ensures SimpleInv(code, t, cfg, st.(p := target))
  {
    hide Spans, Depth, StackOk, FreeStack, Embeds, NothingLost, Resid, Boundary, Simple, StepKeeps, Fetch, Inv, LoopTop;
    InvWithin(t, cfg, st);
    SimpleCommand(code, t, cfg, st.p, st.d);
    assert Moves(code, cfg.env, st.p, st.d) == To(target, st.d);
    LostTo(t, cfg, st.p, st.d, target, st.d, st.best, st.stack);
    FreeTop(code, t, cfg.env, target, st.d, st.stack);
  }

  // Dropping the loop's failure point at its closing jump.
  lemma {:induction false} DropFinds(code: seq<byte>, t: Re, cfg: Config, st: State, target: int)
    requires Program(code, t) && Simple(t) && SimpleInv(code, t, cfg, st) && st.p < Len(t)
    requires Fetch(code, st.p) == Goto(MaybePop, target) && Decide(code, st.p) && st.stack != []
    requires var st' := st.(stack := st.stack[..|st.stack| - 1], p := target);
      Inv(t, cfg, st') && Inv(t, cfg, st.(p := target))
    ensures SimpleInv(code, t, cfg, st.(stack := st.stack[..|st.stack| - 1], p := target))
  {
    hide Spans, Depth, StackOk, FreeStack, Embeds, NothingLost, Resid, Boundary, Simple, StepKeeps, Fetch, Inv, LoopTop,
      FrameReaches, Decide, RoleFacts;
    PlainJumpFinds(code, t, cfg, st, MaybePop, target);
    InvWithin(t, cfg, st);
    InvWithin(t, cfg, st.(p := target));
    SimpleCommand(code, t, cfg, st.p, st.d);
    var f := st.stack[|st.stack| - 1];
    forall e: nat | FrameReaches(t, cfg.env, f, e) ensures Reaches(t, cfg.env, target, st.d, e) {
      DroppedReach(code, t, cfg, st.p, st.d, target, st.stack, e);
    }
    LostPop(t, cfg, target, st.d, st.best, st.stack);
    FreePrefix(t, st.stack);
    LoopHeadFree(code, t, st.p, target);
    FreeTop(code, t, cfg.env, target, st.d, st.stack[..|st.stack| - 1]);
  }

  lemma {:induction false} LoopHeadFree(code: seq<byte>, t: Re, p: int, target: int)
    requires RoleFacts(code, t, 0, p, Goto(MaybePop, target))
    ensures IsRole(t, 0, target, Free)
  {
  }

  lemma {:induction false} DroppedReach(code: seq<byte>, t: Re, cfg: Config, j: int, d: nat, head: int,
        stack: seq<Frame>, e: nat)
    requires Program(code, t) && Simple(t) && 0 <= j < Len(t) && Fetch(code, j) == Goto(MaybePop, head)
    requires Decide(code, j)
    requires RoleFacts(code, t, 0, j, Fetch(code, j)) && LoopTop(code, t, cfg.env, j, d, stack) && stack != []
    requires Within(t, cfg, head, d) && FrameReaches(t, cfg.env, stack[|stack| - 1], e)
    ensures Reaches(t, cfg.env, head, d, e)
  {
    hide Spans, Embeds, Resid, Boundary, Simple, StepKeeps, Fetch, Decide, RoleOf, Within, IsRole;
    assert j - 0 == j;
    var f := stack[|stack| - 1];
    OwnExit(code, j, head);
    var g: nat :| e <= g && Spans(Resid(t, j + 3), cfg.env, d - 1, g);
    SimpleCommand(code, t, cfg, head, d);
    HeadBranches(code, t, cfg, head, j + 3, d);
    DroppedEnds(code, t, cfg.env, j, head, d - 1, g);
    SkipKeeps(code, t, cfg.env, j + 3, d);
    EpsHere(t, cfg.env, d);
    assert Spans(Resid(t, j + 3), cfg.env, d, d);
    assert Spans(Resid(t, head), cfg.env, d, d);
  }

  lemma {:induction false} OwnExit(code: seq<byte>, j: int, head: int)
    requires 0 <= head < |code| && Fetch(code, head) == OnFail(j + 3)
    ensures JumpTarget(code, head) == j + 3
  {
  }

  lemma {:induction false} EpsHere(t: Re, env: Env, d: nat)
    requires d <= |env.text|
    ensures Spans(Resid(t, Len(t)), env, d, d)
  {
  }

  lemma {:induction false} HeadBranches(code: seq<byte>, t: Re, cfg: Config, head: int, x: int, d: nat)
    requires 0 <= head < Len(t) == |code| && Fetch(code, head) == OnFail(x)
    requires StepKeeps(t, 0, head, cfg.env, d, Moves(code, cfg.env, head, d))
    ensures 0 <= x <= Len(t) && Boundary(t, x)
    ensures forall e: nat :: Spans(Resid(t, x), cfg.env, d, e) ==> Spans(Resid(t, head), cfg.env, d, e)
  {
    hide Fetch, Spans, Resid, Boundary;
    assert Moves(code, cfg.env, head, d) == Either(head + 3, x);
    assert x - 0 == x;
  }

  lemma {:induction false} JumpFinds(code: seq<byte>, t: Re, cfg: Config, st: State, kind: JumpKind, target: int)
    requires Program(code, t) && Simple(t) && SimpleInv(code, t, cfg, st) && st.p < Len(t)
    requires Fetch(code, st.p) == Goto(kind, target) && !kind.DummyFailure?
    ensures SimpleOutcome(code, t, cfg, Execute(code, cfg, st))
  {
    hide Spans, Depth, StackOk, FreeStack, Embeds, NothingLost, Resid, Boundary, Simple, StepKeeps, Fetch, LoopTop,
      Decide, RoleFacts;
    ExecuteOk(code, t, cfg, st);
    InvWithin(t, cfg, st);
    SimpleCommand(code, t, cfg, st.p, st.d);
    Command(code, t, cfg, st.p, st.d);
    JumpKinds(code, t, st.p, kind, target);
    assert Moves(code, cfg.env, st.p, st.d) == To(target, st.d);
    if kind.MaybePop? && Decide(code, st.p) {
      DropFinds(code, t, cfg, st, target);
    } else {
      PlainJumpFinds(code, t, cfg, st, kind, target);
    }
  }

  lemma {:induction false} JumpKinds(code: seq<byte>, t: Re, p: int, kind: JumpKind, target: int)
    requires RoleFacts(code, t, 0, p, Goto(kind, target)) && 0 <= p < Len(t)
    ensures kind.MaybePop? || kind.DummyFailure? || kind.PastAlt?
  {
  }

  lemma {:induction false} ExecuteFinds(code: seq<byte>, t: Re, cfg: Config, st: State)
    requires Program(code, t) && Simple(t) && SimpleInv(code, t, cfg, st) && st.p < Len(t)
    ensures SimpleOutcome(code, t, cfg, Execute(code, cfg, st))
  {
    hide SimpleInv, SimpleOutcome, Embeds, Simple, Fetch, Execute, DepthFacts;
    SimpleWithin(code, t, cfg, st);
    Command(code, t, cfg, st.p, st.d);
    NotBad(t, 0, st.p, Fetch(code, st.p));
    match Fetch(code, st.p)
    case NoOp =>
    case Bad =>
    case StartMem(_, _) => GroupFinds(code, t, cfg, st);
    case StopMem(_, _) => GroupFinds(code, t, cfg, st);
    case OnFail(target) => ForkFinds(code, t, cfg, st, target);
    case PushDummy => DummyFinds(code, t, cfg, st);
    case Goto(kind, target) =>
      if kind.DummyFailure? { DummyFinds(code, t, cfg, st); } else { JumpFinds(code, t, cfg, st, kind, target); }
    case _ => EatFinds(code, t, cfg, st);
  }

  lemma {:induction false} SimpleWithin(code: seq<byte>, t: Re, cfg: Config, st: State)
    requires SimpleInv(code, t, cfg, st)
    ensures Inv(t, cfg, st) && Within(t, cfg, st.p, st.d) && 0 <= st.p <= Len(t)
  {
  }

  lemma {:induction false} StepFinds(code: seq<byte>, t: Re, cfg: Config, st: State)
    requires Program(code, t) && Simple(t) && SimpleInv(code, t, cfg, st)
    ensures SimpleOutcome(code, t, cfg, Step(code, cfg, st))
  {
    hide SimpleInv, SimpleOutcome, Embeds, Simple, Execute, AtEnd;
    SimpleWithin(code, t, cfg, st);
    if st.p == |code| {
      AtEndFinds(code, t, cfg, st);
    } else {
      ExecuteFinds(code, t, cfg, st);
    }
  }

  lemma {:induction false} StartFinds(code: seq<byte>, t: Re, cfg: Config)
    requires Program(code, t) && cfg.pos <= |cfg.env.text|
    ensures SimpleOutcome(code, t, cfg, Start(cfg))
  {
    hide Spans, Resid, Embeds, Depth;
    StartOk(code, t, cfg);
    RoleAtStart(t, 0);
    FreeTop(code, t, cfg.env, 0, cfg.pos, []);
    EmbedsFits(code, 0, t);
    StartNothingLost(t, cfg);
  }

  lemma {:induction false} StartNothingLost(t: Re, cfg: Config)
    requires WellFormed(t)
    ensures NothingLost(t, cfg, 0, cfg.pos, None, [])
  {
    hide Spans, Resid, WellFormed;
    AtStart(t, cfg.env, cfg.pos);
    forall e: nat | Spans(t, cfg.env, cfg.pos, e) ensures Reaches(t, cfg.env, 0, cfg.pos, e) {
      assert Spans(Resid(t, 0), cfg.env, cfg.pos, e);
    }
  }

  lemma {:induction false} RunFinds(code: seq<byte>, t: Re, cfg: Config, o: Outcome, n: nat)
    requires Program(code, t) && Simple(t) && SimpleOutcome(code, t, cfg, o)
    ensures SimpleOutcome(code, t, cfg, Run(code, cfg, o, n))
    decreases n
  {
    hide SimpleInv, Step, Program, Simple, Final;
    if n > 0 && o.Go? {
      StepFinds(code, t, cfg, o.st);
      RunFinds(code, t, cfg, Step(code, cfg, o.st), n - 1);
    }
  }
}
