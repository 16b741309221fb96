// The program rewrites itself as it runs; the rewriting is stable.  A match on the program left
// behind by any number of earlier matches gives the same result as on the freshly compiled one.
module RegexRewrite {
  import opened Bytes
  import opened RegexTree
  import opened RegexCode
  import opened RegexResid
  import opened RegexDepth
  import opened RegexTiles
  import opened RegexMachine
  import opened Wrappers
  import opened RegexSound

  // A loop jump of the fresh program that has been rewritten to what its decision calls for.
  ghost predicate Settled(code0: seq<byte>, t: Re, k: nat, b: byte)
    requires k < |code0|
  {
    Boundary(t, k) && code0[k] == MAYBE_POP_JUMP && b == (if Decide(code0, k) then POP_FAILURE_JUMP else JUMP)
  }

  // The program `code' is the fresh `code0', some of its loop jumps settled.
  ghost predicate Variant(code0: seq<byte>, t: Re, code: seq<byte>) {
    |code| == |code0| && forall k :: 0 <= k < |code| ==> code[k] == code0[k] || Settled(code0, t, k, code[k])
  }

  predicate Rewritable(b: byte) {
    b == MAYBE_POP_JUMP || b == POP_FAILURE_JUMP || b == JUMP
  }

  // Bytes are the same, or both are loop-jump opcodes.
  lemma {:induction false} SameOrJumps(code0: seq<byte>, t: Re, code: seq<byte>, x: int)
    requires Variant(code0, t, code)
    ensures Bytes.At(code, x) == Bytes.At(code0, x) || (Rewritable(Bytes.At(code, x)) && Rewritable(Bytes.At(code0, x)))
  {
    hide Boundary, Decide;
  }

  // Operand bytes are the same.
  lemma {:induction false} SameOperand(code0: seq<byte>, t: Re, code: seq<byte>, x: int)
    requires Variant(code0, t, code) && !Boundary(t, x)
    ensures Bytes.At(code, x) == Bytes.At(code0, x)
  {
    hide Boundary, Decide;
  }

  lemma {:induction false} SameOperands(code0: seq<byte>, t: Re, code: seq<byte>, q: nat, n: nat)
    requires Variant(code0, t, code) && q + n <= |code0|
    requires forall x: int :: q < x < q + n ==> !Boundary(t, x)
    ensures |code| == |code0|
    ensures forall x: int :: q < x < q + n ==> code[x] == code0[x]
  {
    hide Boundary, Variant;
    SameLength(code0, t, code);
    forall x: int | q < x < q + n ensures code[x] == code0[x] {
      SameOperand(code0, t, code, x);
    }
  }

  lemma {:induction false} SameLength(code0: seq<byte>, t: Re, code: seq<byte>)
    requires Variant(code0, t, code)
    ensures |code| == |code0|
  {
  }

  // A command of the variant: the fresh one, or its loop jump settled.
  lemma {:induction false} SameCommand(code0: seq<byte>, t: Re, code: seq<byte>, q: nat)
    requires Program(code0, t) && Variant(code0, t, code) && q < Len(t) && Boundary(t, q)
    ensures |code| == |code0|
    ensures code[q] == code0[q] ==> Fetch(code, q) == Fetch(code0, q)
    ensures code[q] != code0[q] ==>
      Fetch(code0, q) == Goto(MaybePop, JumpTarget(code0, q)) &&
      Fetch(code, q) == Goto(if Decide(code0, q) then PopFailure else Plain, JumpTarget(code0, q))
    ensures Size(Fetch(code0, q)) == 3 ==> JumpTarget(code, q) == JumpTarget(code0, q)
  {
    hide Boundary, Embeds, Decide, DepthFacts, Depth;
    TileStep(code0, 0, t, q);
    DepthStep(code0, 0, t, q);
    NotBadCommand(t, 0, q, Fetch(code0, q));
    var i := Fetch(code0, q);
    SameOperands(code0, t, code, q, Size(i));
    FetchAgrees(code0, code, q);
    SettledHere(code0, t, code, q);
  }

  lemma {:induction false} NotBadCommand(t: Re, o: nat, q: int, i: Instr)
    requires 0 <= q <= Len(t) && DepthFacts(t, o, q, i)
    ensures i != Bad && i != NoOp
  {
  }

  lemma {:induction false} SettledHere(code0: seq<byte>, t: Re, code: seq<byte>, q: nat)
    requires Variant(code0, t, code) && q < |code0|
    ensures code[q] != code0[q] ==> Settled(code0, t, q, code[q])
  {
    hide Boundary, Decide;
  }

  lemma {:induction false} FetchAgrees(code0: seq<byte>, code: seq<byte>, q: nat)
    requires |code| == |code0| && q < |code| && Fetch(code0, q) != Bad
    requires q + Size(Fetch(code0, q)) <= |code|
    requires forall x: int :: q < x < q + Size(Fetch(code0, q)) ==> code[x] == code0[x]
    ensures code[q] == code0[q] ==> Fetch(code, q) == Fetch(code0, q)
    ensures Size(Fetch(code0, q)) == 3 ==> JumpTarget(code, q) == JumpTarget(code0, q)
  {
    var i := Fetch(code0, q);
    if i.Exact? || i.CharSet? {
      assert code[q + 1] == code0[q + 1];
      assert code[q + 2..q + Size(i)] == code0[q + 2..q + Size(i)];
    }
    if Size(i) == 3 {
      assert code[q + 1] == code0[q + 1] && code[q + 2] == code0[q + 2];
    }
  }

  // ---- The decision reads nothing that is rewritten ----

  const NO_TEXT := Env([], false, false)

  // Where a command of the fresh program leads is a boundary.
  lemma {:induction false} Leading(code0: seq<byte>, t: Re, q: nat)
    requires Program(code0, t) && q < Len(t) && Boundary(t, q)
    ensures var i := Fetch(code0, q);
      && (i.StartMem? || i.StopMem? || i.OnFail? ==> Boundary(t, q + 3))
      && (i.OnFail? || i.Goto? ==> Boundary(t, i.target) && 0 <= i.target <= Len(t))
  {
    hide Boundary, Resid, Spans, Embeds, Fetch;
    ResidStep(code0, 0, t, q, NO_TEXT, 0);
    var m := Moves(code0, NO_TEXT, q, 0);
    assert m.To? ==> m.p - 0 == m.p;
    assert m.Either? ==> m.p1 - 0 == m.p1 && m.p2 - 0 == m.p2;
  }

  lemma {:induction false} SameSkip(code0: seq<byte>, t: Re, code: seq<byte>, p: nat)
    requires Program(code0, t) && Variant(code0, t, code) && 0 <= p <= Len(t) && Boundary(t, p)
    ensures SkipGroups(code, p) == SkipGroups(code0, p) <= Len(t) && Boundary(t, SkipGroups(code0, p))
    decreases Len(t) - p
  {
    hide Boundary, Embeds, Variant;
    SameLength(code0, t, code);
    SameOrJumps(code0, t, code, p);
    if p + 2 < |code0| && (code0[p] == STOP_MEMORY || code0[p] == START_MEMORY) {
      Leading(code0, t, p);
      SameSkip(code0, t, code, p + 3);
    }
  }

  // A loop jump of the fresh program, the head it leads to, and the body after the head.
  lemma {:induction false} LoopShape(code0: seq<byte>, t: Re, j: nat)
    requires Program(code0, t) && j < Len(t) && Boundary(t, j) && code0[j] == MAYBE_POP_JUMP
    ensures var head := JumpTarget(code0, j);
      && j + 3 <= Len(t) && Boundary(t, j + 3) && 0 <= head && head + 3 <= j && Boundary(t, head)
        && Boundary(t, head + 3)
  {
    hide Boundary, Embeds;
    BackToHead(code0, 0, t, j);
    Leading(code0, t, j);
    var head := JumpTarget(code0, j);
    assert Fetch(code0, head) == OnFail(j + 3);
    Leading(code0, t, head);
  }

  lemma {:induction false} BackToHead(code: seq<byte>, o: nat, t: Re, q: int)
    requires Embeds(code, o, t) && Len(t) <= MAX_REACH && 0 <= q < Len(t) && Boundary(t, q)
    requires code[o + q] == MAYBE_POP_JUMP
    ensures var head := JumpTarget(code, o + q);
      o <= head && head + 3 <= o + q && Fetch(code, head) == OnFail(o + q + 3)
    decreases t
  {
    hide Embeds, Structure, Parts, Boundary;
    Layout(code, o, t);
    EmbedsFits(code, o, t);
    if Own(t, q) {
      OwnBack(code, o, t, q);
    } else {
      PartHolds(t, q);
      PartEmbeds(code, o, t, q);
      var p := PartAt(t, q);
      assert o + p.k + (q - p.k) == o + q;
      BackToHead(code, o + p.k, p.s, q - p.k);
    }
  }

  lemma {:induction false} OwnBack(code: seq<byte>, o: nat, t: Re, q: int)
    requires o + Len(t) <= |code| && Structure(code, o, t) && 0 <= q < Len(t) && Boundary(t, q) && Own(t, q)
    requires Fetch(code, o + q) == Goto(MaybePop, JumpTarget(code, o + q))
    ensures var head := JumpTarget(code, o + q);
      o <= head && head + 3 <= o + q && Fetch(code, head) == OnFail(o + q + 3)
  {
    hide Fetch;
    if t.Group? {
      GroupHasNoJump(code, o, t, q);
    }
  }

  lemma {:induction false} GroupHasNoJump(code: seq<byte>, o: nat, t: Re, q: int)
    requires t.Group? && o + Len(t) <= |code| && Structure(code, o, t) && 0 <= q < Len(t) && Boundary(t, q) && Own(t, q)
    ensures !Fetch(code, o + q).Goto?
  {
    hide Fetch;
    var g := GroupOpen(t.reg);
    if q < g { GroupFront(t.a, g, q); } else { GroupBack(t.a, g, q); }
  }

  // The command at a boundary looks the same in both programs, as far as anything looks ahead.
  ghost predicate Glance(code0: seq<byte>, code: seq<byte>, q: int) {
    var a, b := Bytes.At(code, q), Bytes.At(code0, q);
    && (a == b || (Rewritable(a) && Rewritable(b)))
    && (b == EXACTN ==> Bytes.At(code, q + 2) == Bytes.At(code0, q + 2))
    && (b == START_MEMORY ==>
      Bytes.At(code, q + 1) == Bytes.At(code0, q + 1) && Bytes.At(code, q + 2) == Bytes.At(code0, q + 2))
    && (b == CHARSET || b == CHARSET_NOT ==>
          forall x: int :: q < x < q + 2 + Bytes.At(code0, q + 1) ==> Bytes.At(code, x) == Bytes.At(code0, x))
  }

  lemma {:induction false} SameGlance(code0: seq<byte>, t: Re, code: seq<byte>, q: nat)
    requires Program(code0, t) && Variant(code0, t, code) && 0 <= q <= Len(t) && Boundary(t, q)
    ensures Glance(code0, code, q)
  {
    hide Boundary, Embeds, Variant, DepthFacts, Depth, Glance;
    SameOrJumps(code0, t, code, q);
    if q < Len(t) {
      TileStep(code0, 0, t, q);
      DepthStep(code0, 0, t, q);
      NotBadCommand(t, 0, q, Fetch(code0, q));
      SameOperands(code0, t, code, q, Size(Fetch(code0, q)));
      GlanceOperands(code0, code, q);
    } else {
      GlancePastEnd(code0, t, code, q);
    }
  }

  lemma {:induction false} GlancePastEnd(code0: seq<byte>, t: Re, code: seq<byte>, q: nat)
    requires Variant(code0, t, code) && q >= |code0|
    ensures Glance(code0, code, q)
  {
    hide Boundary, Decide;
  }

  lemma {:induction false} GlanceOperands(code0: seq<byte>, code: seq<byte>, q: nat)
    requires |code| == |code0| && q < |code| && Fetch(code0, q) != Bad && q + Size(Fetch(code0, q)) <= |code|
    requires forall x: int :: q < x < q + Size(Fetch(code0, q)) ==> code[x] == code0[x]
    requires code[q] == code0[q] || (Rewritable(code[q]) && Rewritable(code0[q]))
    ensures Glance(code0, code, q)
  {
  }

  lemma {:induction false} SameDecision(code0: seq<byte>, t: Re, code: seq<byte>, j: nat)
    requires Program(code0, t) && Variant(code0, t, code) && j < Len(t) && Boundary(t, j) && code0[j] == MAYBE_POP_JUMP
    ensures Decide(code, j) == Decide(code0, j)
  {
    hide Boundary, Embeds, Variant, SkipGroups, Fetch;
    LoopShape(code0, t, j);
    SameLength(code0, t, code);
    SameTarget(code0, t, code, j);
    SameSkip(code0, t, code, j + 3);
    var f, head := SkipGroups(code0, j + 3), JumpTarget(code0, j);
    SameGlance(code0, t, code, f);
    SameGlance(code0, t, code, head + 3);
    SameChoice(code0, code, j, f, head);
  }

  lemma {:induction false} SameTarget(code0: seq<byte>, t: Re, code: seq<byte>, j: nat)
    requires Program(code0, t) && Variant(code0, t, code) && j < Len(t) && Boundary(t, j) && code0[j] == MAYBE_POP_JUMP
    ensures JumpTarget(code, j) == JumpTarget(code0, j)
  {
    hide Boundary, Embeds, Variant;
    SameCommand(code0, t, code, j);
  }

  lemma {:induction false} SameChoice(code0: seq<byte>, code: seq<byte>, j: nat, f: nat, head: int)
    requires |code| == |code0| && JumpTarget(code, j) == JumpTarget(code0, j) == head
    requires SkipGroups(code, j + 3) == SkipGroups(code0, j + 3) == f
    requires Glance(code0, code, f) && Glance(code0, code, head + 3)
    ensures Decide(code, j) == Decide(code0, j)
  {
    hide JumpTarget, SkipGroups, Bit;
    var h, c := head + 3, Bytes.At(code0, f + 2);
    var body, n: int := Bytes.At(code0, h), Bytes.At(code0, h + 1);
    if body == CHARSET || body == CHARSET_NOT {
      assert head + 4 == h + 1 && Bytes.At(code, h + 1) == n;
      var m: int := (n * 8) % 256;
      if c < m {
        ModBelow(n);
        assert c / 8 < n;
        assert head + 5 + c / 8 == h + 2 + c / 8;
      }
    }
  }

  lemma {:induction false} ModBelow(n: int)
    requires n >= 0
    ensures (n * 8) % 256 <= n * 8
  {
  }

  // ---- Both programs take the same steps ----

  lemma {:induction false} SameLoopJump(code0: seq<byte>, t: Re, code: seq<byte>, p: int)
    requires Program(code0, t) && Variant(code0, t, code) && 0 <= p <= Len(t) && Boundary(t, p)
    ensures LoopJumpAt(code, p) == LoopJumpAt(code0, p)
  {
    hide Boundary, Embeds, Variant, Decide, DepthFacts;
    SameLength(code0, t, code);
    if p < Len(t) {
      SameOrJumps(code0, t, code, p);
      FreshJump(code0, t, p);
      if code0[p] == MAYBE_POP_JUMP {
        SameTarget(code0, t, code, p);
        SameOrJumps(code0, t, code, JumpTarget(code0, p));
      }
    }
  }

  // A fresh program holds no settled jumps.
  lemma {:induction false} FreshJump(code0: seq<byte>, t: Re, p: nat)
    requires Program(code0, t) && p < Len(t) && Boundary(t, p)
    ensures Rewritable(code0[p]) ==> code0[p] == MAYBE_POP_JUMP
    ensures code0[p] != NO_OP
  {
    hide Boundary, Embeds, Depth;
    DepthStep(code0, 0, t, p);
  }

  lemma {:induction false} SameFail(code0: seq<byte>, t: Re, code: seq<byte>, cfg: Config, st: State)
    requires Program(code0, t) && Variant(code0, t, code) && StackOk(t, cfg, st.stack)
    ensures Fail(code, cfg, st) == Fail(code0, cfg, st)
    decreases |st.stack|
  {
    hide Embeds, Variant, Decide, LoopJumpAt, StackOk, Depth, Boundary, Spans, Resid;
    if st.stack != [] {
      StackPrefix(t, cfg, st.stack);
      var f := st.stack[|st.stack| - 1];
      var st' := st.(stack := st.stack[..|st.stack| - 1], low := f.low, high := f.high,
                     info := Restored(st.info, f.low, f.saved));
      match f.pat
      case Null => SameFail(code0, t, code, cfg, st');
      case At(p) =>
        SameLoopJump(code0, t, code, p);
        SameFail(code0, t, code, cfg, st'.(p := p, d := f.str));
    }
  }

  lemma {:induction false} SameAround(code0: seq<byte>, t: Re, code: seq<byte>, st: State, q: nat, reg: byte)
    requires Program(code0, t) && Variant(code0, t, code) && q < Len(t) && Boundary(t, q) && Fetch(code0, q).StopMem?
    ensures LoopAround(code, st, q, reg) == LoopAround(code0, st, q, reg)
  {
    hide Boundary, Embeds, Variant, Decide, Fetch, DepthFacts, LoopAround;
    SameLength(code0, t, code);
    SameOrJumps(code0, t, code, q - 2);
    Leading(code0, t, q);
    BoundaryInRange(t, q + 3);
    if q + 3 < Len(t) {
      SameAroundAt(code0, t, code, st, q, reg);
    } else {
      NoneAround(code0, code, st, q, reg);
    }
  }

  lemma {:induction false} NoneAround(code0: seq<byte>, code: seq<byte>, st: State, q: nat, reg: byte)
    requires |code| == |code0| <= q + 3
    ensures LoopAround(code, st, q, reg) == LoopAround(code0, st, q, reg)
  {
  }

  lemma {:induction false} SameAroundAt(code0: seq<byte>, t: Re, code: seq<byte>, st: State, q: nat, reg: byte)
    requires Program(code0, t) && Variant(code0, t, code) && q + 3 < Len(t) && Boundary(t, q + 3)
    requires var a, b := Bytes.At(code, q - 2), Bytes.At(code0, q - 2); a == b || (Rewritable(a) && Rewritable(b))
    ensures LoopAround(code, st, q, reg) == LoopAround(code0, st, q, reg)
  {
    hide Boundary, Embeds, Variant, Decide, Fetch;
    SameLength(code0, t, code);
    SameOrJumps(code0, t, code, q + 3);
    FreshJump(code0, t, q + 3);
    if code0[q + 3] == MAYBE_POP_JUMP {
      SameTarget(code0, t, code, q + 3);
      LoopShape(code0, t, q + 3);
      var head := JumpTarget(code0, q + 3);
      SameOrJumps(code0, t, code, head);
      SameGlance(code0, t, code, head + 3);
    } else if code0[q + 3] == DUMMY_FAILURE_JUMP {
      DummyForward(code0, t, q + 3);
      SameCommand(code0, t, code, q + 3);
      DummyForwardSame(code0, code, q + 3);
    }
  }

  lemma {:induction false} DummyForward(code0: seq<byte>, t: Re, p: nat)
    requires Program(code0, t) && p < Len(t) && Boundary(t, p) && code0[p] == DUMMY_FAILURE_JUMP
    ensures JumpTarget(code0, p) == p + 6
  {
    hide Boundary, Embeds, Depth;
    DepthStep(code0, 0, t, p);
  }

  lemma {:induction false} DummyForwardSame(code0: seq<byte>, code: seq<byte>, p: nat)
    requires |code| == |code0| && p < |code| && Fetch(code, p) == Fetch(code0, p) && code0[p] == DUMMY_FAILURE_JUMP
    ensures JumpTarget(code, p) == JumpTarget(code0, p)
  {
  }

  lemma {:induction false} SameCover(code0: seq<byte>, t: Re, code: seq<byte>, st: State, p: nat)
    requires Program(code0, t) && Variant(code0, t, code) && p <= Len(t) && Boundary(t, p)
    ensures CoverGroup(code, st, p) == CoverGroup(code0, st, p)
  {
    hide Boundary, Embeds, Variant, Decide, Fetch;
    SameLength(code0, t, code);
    SameGlance(code0, t, code, p);
    if p < Len(t) {
      FreshJump(code0, t, p);
      assert SkipNoOps(code0, p) == p == SkipNoOps(code, p);
    }
  }

  lemma {:induction false} SameExecute(code0: seq<byte>, t: Re, code: seq<byte>, cfg: Config, st: State)
    requires Program(code0, t) && Variant(code0, t, code) && Inv(t, cfg, st) && 0 <= st.p < Len(t) == |code|
    ensures Execute(code, cfg, st) == Execute(code0, cfg, st)
  {
    hide Boundary, Embeds, Variant, Decide, Fetch, Fail, Push, StackOk, Spans, Resid, Depth, LoopAround, CoverGroup,
      SkipGroups;
    SameCommand(code0, t, code, st.p);
    Leading(code0, t, st.p);
    if code[st.p] != code0[st.p] {
      assert Execute(code, cfg, st) == Execute(code0, cfg, st);
    } else {
      var i := Fetch(code0, st.p);
      if i.StopMem? {
        SameStop(code0, t, code, cfg, st);
      } else if i.OnFail? {
        BoundaryInRange(t, st.p + 3);
        SameCover(code0, t, code, st, st.p + 3);
      } else if i.Goto? {
        SameGoto(code0, t, code, cfg, st);
      } else {
        SameFail(code0, t, code, cfg, st);
        SameMoves(code0, code, cfg.env, st.p, st.d);
      }
    }
  }

  lemma {:induction false} SameMoves(code0: seq<byte>, code: seq<byte>, env: Env, p: nat, d: nat)
    requires p < |code| == |code0| && Fetch(code, p) == Fetch(code0, p)
    ensures Moves(code, env, p, d) == Moves(code0, env, p, d)
  {
    hide Fetch;
  }

  lemma {:induction false} SameGoto(code0: seq<byte>, t: Re, code: seq<byte>, cfg: Config, st: State)
    requires Program(code0, t) && Variant(code0, t, code) && 0 <= st.p < Len(t) == |code| && Boundary(t, st.p)
    requires Fetch(code, st.p) == Fetch(code0, st.p) && Fetch(code0, st.p).Goto?
    ensures Execute(code, cfg, st) == Execute(code0, cfg, st)
  {
    hide Boundary, Embeds, Variant, Decide, Push, SkipGroups;
    if code0[st.p] == MAYBE_POP_JUMP { SameDecision(code0, t, code, st.p); }
  }

  lemma {:induction false} SameStop(code0: seq<byte>, t: Re, code: seq<byte>, cfg: Config, st: State)
    requires Program(code0, t) && Variant(code0, t, code) && Inv(t, cfg, st) && 0 <= st.p < Len(t) == |code|
    requires Fetch(code, st.p) == Fetch(code0, st.p) && Fetch(code0, st.p).StopMem?
    ensures Execute(code, cfg, st) == Execute(code0, cfg, st)
  {
    hide Boundary, Embeds, Variant, Decide, Fetch, Fail, Push, StackOk, Spans, Resid, Depth, LoopAround, DepthFacts;
    var reg := Fetch(code0, st.p).reg;
    var st' := StopGroup(st, reg);
    SameAround(code0, t, code, st', st.p, reg);
    var o := LoopAround(code0, st', st.p, reg);
    if o.Some? {
      SameExit(code0, t, code, cfg, st', st.p, reg);
      LoopAroundOk(code0, t, cfg, st', st.p, reg);
      var exit := RegexMachine.At(JumpTarget(code0, o.value));
      Command(code0, t, cfg, st.p, st.d);
      PushOk(t, cfg, st', exit, st.d);
      var pushed := Push(cfg, st', exit, st.d);
      if pushed.Some? { SameFail(code0, t, code, cfg, pushed.value); }
    }
  }

  // The way out of the loop around a group is read from operand bytes.
  lemma {:induction false} SameExit(code0: seq<byte>, t: Re, code: seq<byte>, cfg: Config, st: State, q: nat, reg: byte)
    requires Program(code0, t) && Variant(code0, t, code) && Within(t, cfg, q, st.d) && q < Len(t) == |code|
    requires Fetch(code0, q).StopMem?
    requires LoopAround(code0, st, q, reg).Some?
    ensures var head := LoopAround(code0, st, q, reg).value; JumpTarget(code, head) == JumpTarget(code0, head)
  {
    hide Boundary, Embeds, Variant, Decide, Spans, Resid, Depth;
    Leading(code0, t, q);
    FreshJump(code0, t, q + 3);
    if code0[q + 3] == MAYBE_POP_JUMP {
      LoopShape(code0, t, q + 3);
      SameCommand(code0, t, code, JumpTarget(code0, q + 3));
    } else {
      DummyForward(code0, t, q + 3);
    }
  }

  lemma {:induction false} SameStep(code0: seq<byte>, t: Re, code: seq<byte>, cfg: Config, st: State)
    requires Program(code0, t) && Variant(code0, t, code) && Inv(t, cfg, st)
    ensures Step(code, cfg, st) == Step(code0, cfg, st)
  {
    hide Boundary, Embeds, Variant, Execute, Spans, Resid, Depth, StackOk, Fail;
    SameLength(code0, t, code);
    if st.p == |code0| {
      if st.d != |cfg.env.text| && st.stack != [] {
        var longer := st.best.None? || st.d > st.best.value;
        SameFail(code0, t, code, cfg, if longer then st.(best := Some(st.d)) else st);
      }
    } else {
      SameExecute(code0, t, code, cfg, st);
    }
  }

  // A rewriting step leaves another variant.
  lemma {:induction false} VariantKept(code0: seq<byte>, t: Re, code: seq<byte>, p: int)
    requires Program(code0, t) && Variant(code0, t, code) && 0 <= p <= Len(t) && Boundary(t, p)
    ensures Variant(code0, t, Rewritten(code, p))
  {
    hide Boundary, Embeds, Decide;
    if p < |code| && code[p] == MAYBE_POP_JUMP {
      assert code0[p] == MAYBE_POP_JUMP;
      SameDecision(code0, t, code, p);
    }
  }

  // Running a variant while rewriting it gives what running the fresh program without rewriting
  // gives, and leaves a variant.
  lemma {:induction false} RewritingRun(code0: seq<byte>, t: Re, code: seq<byte>, cfg: Config, o: Outcome, n: nat)
    requires Program(code0, t) && Variant(code0, t, code) && OutcomeOk(t, cfg, o)
    ensures var (o', code') := RunRewriting(code, cfg, o, n);
      o' == Run(code0, cfg, o, n) && Variant(code0, t, code')
    decreases n
  {
    hide Embeds, Variant, Step, Rewritten, Spans, Resid, Depth, StackOk;
    if n > 0 && o.Go? {
      SameStep(code0, t, code, cfg, o.st);
      VariantKept(code0, t, code, o.st.p);
      StepOk(code0, t, cfg, o.st);
      RewritingRun(code0, t, Rewritten(code, o.st.p), cfg, Step(code0, cfg, o.st), n - 1);
    }
  }

  // A match to be run, with a bound on its steps.
  datatype Job = Job(cfg: Config, steps: nat)

  // The program after running the jobs in turn, each on what the one before left.
  function After(code: seq<byte>, jobs: seq<Job>): seq<byte>
    decreases |jobs|
  {
    if jobs == [] then code
    else
      var before := After(code, jobs[..|jobs| - 1]);
      var job := jobs[|jobs| - 1];
      RunRewriting(before, job.cfg, Start(job.cfg), job.steps).1
  }

  lemma {:induction false} AfterIsVariant(t: Re, jobs: seq<Job>)
    requires WellFormed(t) && Len(t) <= MAX_REACH
    ensures Variant(Emit(t), t, After(Emit(t), jobs))
    decreases |jobs|
  {
    hide Variant, RunRewriting, Start, Emit, Len;
    var code := Emit(t);
    assert code[0..0 + Len(t)] == code;
    if jobs == [] {
      FreshIsVariant(code, t);
    } else {
      AfterIsVariant(t, jobs[..|jobs| - 1]);
      var job := jobs[|jobs| - 1];
      StartOk(code, t, job.cfg);
      RewritingRun(code, t, After(code, jobs[..|jobs| - 1]), job.cfg, Start(job.cfg), job.steps);
    }
  }

  lemma {:induction false} FreshIsVariant(code: seq<byte>, t: Re)
    ensures Variant(code, t, code)
  {
  }

  // Self-modification is stable.
  lemma {:induction false} EarlierMatchesDoNotMatter(t: Re, jobs: seq<Job>, cfg: Config, n: nat)
    requires WellFormed(t) && Len(t) <= MAX_REACH
    ensures RunRewriting(After(Emit(t), jobs), cfg, Start(cfg), n).0 == RunRewriting(Emit(t), cfg, Start(cfg), n).0
    ensures RunRewriting(After(Emit(t), jobs), cfg, Start(cfg), n).0 == Match(Emit(t), cfg, n)
  {
    hide Variant, RunRewriting, Start, Emit, Len, Run;
    var code := Emit(t);
    assert code[0..0 + Len(t)] == code;
    AfterIsVariant(t, jobs);
    AfterIsVariant(t, []);
    StartOk(code, t, cfg);
    RewritingRun(code, t, After(code, jobs), cfg, Start(cfg), n);
    RewritingRun(code, t, After(code, []), cfg, Start(cfg), n);
  }
}
