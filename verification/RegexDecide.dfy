// What the maybe_pop_jump decision amounts to, and when it is right.
module RegexDecide {
  import opened Bytes
  import opened RegexTree
  import opened RegexCode
  import opened RegexResid
  import opened RegexDepth
  import opened RegexMachine
  import opened RegexSound
  import opened RegexRoles

  // The one-character command i matches c.
  predicate Accepts(i: Instr, c: byte) {
    match i
    case AnyChar => AnyMatches(c)
    case CharSet(neg, bits) => SetMatches(neg, bits, c)
    case Exact(cs) => |cs| == 1 && cs[0] == c
    case _ => false
  }

  predicate Wide(i: Instr) {
    i.CharSet? && !i.neg && |i.bits| == 32
  }

  // A loop jump at j, its head, and the command it repeats.
  ghost predicate LoopJump(code: seq<byte>, j: nat, head: nat) {
    && head + 3 < j < |code| && Fetch(code, j) == Goto(MaybePop, head)
    && EatsOne(Fetch(code, head + 3))
    && (Fetch(code, head + 3).CharSet? ==> |Fetch(code, head + 3).bits| <= 32)
  }

  // Before a literal, the failure point is dropped exactly when the body is not `.' and either
  // cannot match the literal's first character, or is a positive set with a full 32-byte bitmap:
  // the length in bits, 256, is truncated to 0 there, and the set passes for empty.
  lemma {:induction false} DecideBeforeLiteral(code: seq<byte>, j: nat, head: nat)
    requires LoopJump(code, j, head)
    requires var f := SkipGroups(code, j + 3); f < |code| && Fetch(code, f).Exact?
    ensures var f, body := SkipGroups(code, j + 3), Fetch(code, head + 3);
      Decide(code, j) <==>
        if Wide(body) then true
        else if body.AnyChar? || (body.CharSet? && |body.bits| == 32) then false
        else !Accepts(body, Fetch(code, f).chars[0])
  {
    hide Fetch, SkipGroups, Bit, InMap, JumpTarget;
    var f, body := SkipGroups(code, j + 3), Fetch(code, head + 3);
    LiteralBytes(code, f);
    LiteralBytes(code, head + 3);
    OpcodeOf(code, j);
    OpcodeOf(code, head + 3);
    if body.CharSet? { SetDecision(code, head, body, Fetch(code, f).chars[0]); }
  }

  lemma {:induction false} LiteralBytes(code: seq<byte>, p: nat)
    requires p < |code|
    ensures Fetch(code, p).Exact? ==>
      Bytes.At(code, p) == EXACTN && Fetch(code, p).chars != [] && Bytes.At(code, p + 2) == Fetch(code, p).chars[0]
  {
    hide JumpTarget;
  }

  lemma {:induction false} OpcodeOf(code: seq<byte>, p: nat)
    requires p < |code|
    ensures Fetch(code, p).Goto? ==> JumpTarget(code, p) == Fetch(code, p).target
    ensures Fetch(code, p).AnyChar? ==> Bytes.At(code, p) == ANYCHAR
  {
    hide JumpTarget;
  }

  lemma {:induction false} SetDecision(code: seq<byte>, head: nat, body: Instr, c: byte)
    requires head + 3 < |code| && Fetch(code, head + 3) == body && body.CharSet? && |body.bits| <= 32
    ensures Bytes.At(code, head + 4) == |body.bits|
    ensures var hit := c < (Bytes.At(code, head + 4) * 8) % 256 && Bit(Bytes.At(code, head + 5 + c / 8), c % 8);
      hit == (|body.bits| < 32 && InMap(body.bits, c))
    ensures Bytes.At(code, head + 3) == (if body.neg then CHARSET_NOT else CHARSET)
  {
    var n := |body.bits|;
    assert body.bits == code[head + 5..head + 5 + n];
    if n < 32 {
      assert (n * 8) % 256 == n * 8;
      if c < n * 8 {
        assert code[head + 5 + c / 8] == body.bits[c / 8];
      }
    }
  }

  // Dropping the failure point before a literal is right (the body cannot match what follows)
  // exactly when the body is not a full-bitmap set containing that character.
  lemma {:induction false} DropIsRight(code: seq<byte>, j: nat, head: nat)
    requires LoopJump(code, j, head) && Decide(code, j)
    requires var f := SkipGroups(code, j + 3); f < |code| && Fetch(code, f).Exact?
    ensures var f, body := SkipGroups(code, j + 3), Fetch(code, head + 3);
      var c := Fetch(code, f).chars[0];
      !Accepts(body, c) <==> !(Wide(body) && InMap(body.bits, c))
  {
    DecideBeforeLiteral(code, j, head);
  }

  // ---- Why dropping loses nothing ----

  // Group commands leave the reachable ends alone.
  lemma {:induction false} SkipKeeps(code: seq<byte>, t: Re, env: Env, p: int, d: nat)
    requires Program(code, t) && 0 <= p <= Len(t) && Boundary(t, p) && d <= |env.text|
    ensures var f := SkipGroups(code, p);
      0 <= f <= Len(t) && Boundary(t, f) && SameFrom(Resid(t, p), d, Resid(t, f), d, env)
    decreases |code| - p
  {
    hide Resid, Spans, Boundary, Embeds;
    if p + 2 < |code| && (code[p] == STOP_MEMORY || code[p] == START_MEMORY) {
      ResidStep(code, 0, t, p, env, d);
      assert Moves(code, env, p, d) == To(p + 3, d);
      assert p + 3 - 0 == p + 3;
      SkipKeeps(code, t, env, p + 3, d);
    }
  }

  // The ends reachable past the loop from the start of the last round: none beyond the place
  // itself, and that only at the end of the pattern.
  lemma {:induction false} DroppedEnds(code: seq<byte>, t: Re, env: Env, j: nat, head: nat, d: nat, e: nat)
    requires Program(code, t) && LoopJump(code, j, head) && Narrow(Fetch(code, head + 3))
    requires Decide(code, j) && j + 3 <= Len(t) && Boundary(t, j + 3)
    requires d < |env.text| && Accepts(Fetch(code, head + 3), env.text[d])
    requires Spans(Resid(t, j + 3), env, d, e)
    ensures SkipGroups(code, j + 3) == |code| && e == d
  {
    hide Resid, Spans, Boundary, Embeds, Fetch, Decide;
    var f := SkipGroups(code, j + 3);
    SkipKeeps(code, t, env, j + 3, d);
    if f == |code| {
      EpsAtEnd(t, env, d, e);
    } else {
      NoEnds(code, t, env, j, head, f, d);
    }
  }

  // A literal the last round's character cannot begin.
  lemma {:induction false} NoEnds(code: seq<byte>, t: Re, env: Env, j: nat, head: nat, f: nat, d: nat)
    requires Program(code, t) && LoopJump(code, j, head) && Narrow(Fetch(code, head + 3)) && Decide(code, j)
    requires f == SkipGroups(code, j + 3) && f < Len(t) && Boundary(t, f)
    requires d < |env.text| && Accepts(Fetch(code, head + 3), env.text[d])
    ensures forall e: nat :: !Spans(Resid(t, f), env, d, e)
  {
    hide Resid, Spans, Boundary, Embeds, Fetch, Decide;
    LiteralFollows(code, t, j, f);
    DecideBeforeLiteral(code, j, head);
    ResidStep(code, 0, t, f, env, d);
    LitNeedsFirst(env, Fetch(code, f).chars, d);
    assert Moves(code, env, f, d).Stuck?;
  }

  lemma {:induction false} EpsAtEnd(t: Re, env: Env, d: nat, e: nat)
    requires Spans(Resid(t, Len(t)), env, d, e)
    ensures e == d
  {
  }

  lemma {:induction false} LitNeedsFirst(env: Env, cs: seq<byte>, d: nat)
    requires |cs| > 0 && d < |env.text|
    ensures LitAt(env, cs, d) ==> env.text[d] == cs[0]
  {
    if d + |cs| <= |env.text| {
      assert env.text[d..d + |cs|][0] == env.text[d];
    }
  }

  // When the decision looks at a follower at all, the follower is a literal.
  lemma {:induction false} LiteralFollows(code: seq<byte>, t: Re, j: nat, f: nat)
    requires Program(code, t) && Decide(code, j) && f == SkipGroups(code, j + 3) && f < Len(t) && Boundary(t, f)
    ensures Fetch(code, f).Exact? && |Fetch(code, f).chars| > 0
  {
    hide DepthFacts;
    DepthStep(code, 0, t, f);
    NotBad(t, 0, f, Fetch(code, f));
    assert code[f] == EXACTN;
  }

  lemma {:induction false} NotBad(t: Re, o: nat, q: int, i: Instr)
    requires 0 <= q <= Len(t) && DepthFacts(t, o, q, i)
    ensures i != Bad && i != NoOp
  {
  }
}
