// The byte code: opcodes, instruction decoding, and the layout of each tree.
module RegexCode {
  import opened Bytes
  import opened RegexTree

  const NO_OP: byte := 0
  const EXACTN: byte := 1
  const ANYCHAR: byte := 2
  const CHARSET: byte := 3
  const CHARSET_NOT: byte := 4
  const START_MEMORY: byte := 5
  const STOP_MEMORY: byte := 6
  const BEGLINE: byte := 8
  const ENDLINE: byte := 9
  const JUMP: byte := 12
  const JUMP_PAST_ALT: byte := 13
  const ON_FAILURE_JUMP: byte := 14
  const POP_FAILURE_JUMP: byte := 16
  const MAYBE_POP_JUMP: byte := 17
  const DUMMY_FAILURE_JUMP: byte := 18
  const PUSH_DUMMY_FAILURE: byte := 19

  // The largest group number start_memory and stop_memory can name.
  const MAX_REGNUM := 255
  // Relative jumps reach this far; longer programs are outside the theorems.
  const MAX_REACH := 32767

  // ---- Decoding ----

  datatype JumpKind = Plain | PastAlt | PopFailure | MaybePop | DummyFailure

  // Jump targets are absolute.
  datatype Instr =
    | NoOp
    | Exact(chars: seq<byte>)
    | AnyChar
    | CharSet(neg: bool, bits: seq<byte>)
    | StartMem(reg: byte, inner: byte)
    | StopMem(reg: byte, inner: byte)
    | BegLine
    | EndLine
    | Goto(kind: JumpKind, target: int)
    | OnFail(target: int)
    | PushDummy
    | Bad

  // Where a three-byte jump at p leads.
  function JumpTarget(code: seq<byte>, p: nat): int {
    p + 3 + ExtractNumber(At(code, p + 1), At(code, p + 2))
  }

  // The instruction at p; Bad stands for opcodes outside the fragment.
  function Fetch(code: seq<byte>, p: nat): Instr
    requires p < |code|
  {
    var op, x := code[p], At(code, p + 1);
    if op == NO_OP then NoOp
    else if op == EXACTN then (if p + 2 + x <= |code| && x > 0 then Exact(code[p + 2..p + 2 + x]) else Bad)
    else if op == ANYCHAR then AnyChar
    else if op == CHARSET || op == CHARSET_NOT then
      (if p + 2 + x <= |code| then CharSet(op == CHARSET_NOT, code[p + 2..p + 2 + x]) else Bad)
    else if op == START_MEMORY then StartMem(x, At(code, p + 2))
    else if op == STOP_MEMORY then StopMem(x, At(code, p + 2))
    else if op == BEGLINE then BegLine
    else if op == ENDLINE then EndLine
    else if op == JUMP then Goto(Plain, JumpTarget(code, p))
    else if op == JUMP_PAST_ALT then Goto(PastAlt, JumpTarget(code, p))
    else if op == ON_FAILURE_JUMP then OnFail(JumpTarget(code, p))
    else if op == POP_FAILURE_JUMP then Goto(PopFailure, JumpTarget(code, p))
    else if op == MAYBE_POP_JUMP then Goto(MaybePop, JumpTarget(code, p))
    else if op == DUMMY_FAILURE_JUMP then Goto(DummyFailure, JumpTarget(code, p))
    else if op == PUSH_DUMMY_FAILURE then PushDummy
    else Bad
  }

  // ---- Layout ----

  predicate WellFormed(t: Re) {
    match t
    case Lit(cs) => 1 <= |cs| <= 255
    case Set(_, bits) => |bits| <= 32
    case Cat(a, b) => WellFormed(a) && WellFormed(b)
    case Alt(a, b) => WellFormed(a) && WellFormed(b)
    case Star(a) => WellFormed(a)
    case Plus(a) => WellFormed(a)
    case Opt(a) => WellFormed(a)
    case Group(reg, _, a) => reg >= 1 && WellFormed(a)
    case _ => true
  }

  function GroupOpen(reg: nat): nat { if reg <= MAX_REGNUM then 3 else 0 }

  // The push_dummy_failure closing a group of alternatives.
  function GroupDummy(a: Re): nat { if a.Alt? then 1 else 0 }

  function Len(t: Re): nat {
    match t
    case Eps => 0
    case Lit(cs) => 2 + |cs|
    case Set(_, bits) => 2 + |bits|
    case Cat(a, b) => Len(a) + Len(b)
    case Alt(a, b) => 6 + Len(a) + Len(b)
    case Star(a) => 6 + Len(a)
    case Plus(a) => 9 + Len(a)
    case Opt(a) => 3 + Len(a)
    case Group(reg, _, a) => 2 * GroupOpen(reg) + Len(a) + GroupDummy(a)
    case _ => 1
  }

  // STORE_JUMP with the distance already relative to the end of the jump.
  function JumpCode(op: byte, distance: int): (s: seq<byte>)
    ensures |s| == 3
  {
    [op] + StoreNumber(distance)
  }

  // From the jump closing one alternative to the jump closing the next, or to the end after the last.
  function PastAltDistance(rest: Re): nat {
    if rest.Alt? then 3 + Len(rest.a) else Len(rest)
  }

  function Emit(t: Re): (s: seq<byte>)
    requires WellFormed(t)
    ensures |s| == Len(t)
  {
    match t
    case Eps => []
    case Lit(cs) => [EXACTN, |cs|] + cs
    case Any => [ANYCHAR]
    case Set(neg, bits) => [if neg then CHARSET_NOT else CHARSET, |bits|] + bits
    case Bol => [BEGLINE]
    case Eol => [ENDLINE]
    case Dummy => [PUSH_DUMMY_FAILURE]
    case Cat(a, b) => Emit(a) + Emit(b)
    case Alt(a, b) =>
      JumpCode(ON_FAILURE_JUMP, Len(a) + 3) + Emit(a) + JumpCode(JUMP_PAST_ALT, PastAltDistance(b)) + Emit(b)
    case Star(a) =>
      JumpCode(ON_FAILURE_JUMP, Len(a) + 3) + Emit(a) + JumpCode(MAYBE_POP_JUMP, -(Len(a) + 6))
    case Plus(a) =>
      JumpCode(DUMMY_FAILURE_JUMP, 3) + JumpCode(ON_FAILURE_JUMP, Len(a) + 3) + Emit(a)
      + JumpCode(MAYBE_POP_JUMP, -(Len(a) + 6))
    case Opt(a) => JumpCode(ON_FAILURE_JUMP, Len(a)) + Emit(a)
    case Group(reg, inner, a) =>
      GroupCode(START_MEMORY, reg, inner) + Emit(a) + (if a.Alt? then [PUSH_DUMMY_FAILURE] else [])
      + GroupCode(STOP_MEMORY, reg, inner)
  }

  // Groups past MAX_REGNUM leave no trace in the code.
  function GroupCode(op: byte, reg: nat, inner: nat): (s: seq<byte>)
    ensures |s| == GroupOpen(reg)
  {
    if reg <= MAX_REGNUM then [op, reg, inner % 256] else []
  }

  // The code of t lies in `code' from position o on.
  ghost predicate Embeds(code: seq<byte>, o: nat, t: Re) {
    WellFormed(t) && o + Len(t) <= |code| && code[o..o + Len(t)] == Emit(t)
  }

  // q is the start of an instruction of t, or its end.
  predicate Boundary(t: Re, q: int) {
    q == Len(t) || (0 <= q < Len(t) &&
    match t
    case Cat(a, b) => if q < Len(a) then Boundary(a, q) else Boundary(b, q - Len(a))
    case Alt(a, b) =>
      q == 0 || (q <= 3 + Len(a) && Boundary(a, q - 3)) || Boundary(b, q - 6 - Len(a))
    case Star(a) => q == 0 || Boundary(a, q - 3)
    case Plus(a) => q == 0 || q == 3 || Boundary(a, q - 6)
    case Opt(a) => q == 0 || Boundary(a, q - 3)
    case Group(reg, _, a) =>
      q == 0 || Boundary(a, q - GroupOpen(reg)) || (q == Len(t) - GroupOpen(reg))
    case _ => q == 0)
  }

  // Neighbouring stretches of the buffer, read back one by one.
  lemma {:induction false} Slices(code: seq<byte>, o: nat, w1: seq<byte>, w2: seq<byte>, w3: seq<byte>, w4: seq<byte>)
    requires o + |w1| + |w2| + |w3| + |w4| <= |code|
    requires code[o..o + |w1| + |w2| + |w3| + |w4|] == w1 + w2 + w3 + w4
    ensures code[o..o + |w1|] == w1
    ensures code[o + |w1|..o + |w1| + |w2|] == w2
    ensures code[o + |w1| + |w2|..o + |w1| + |w2| + |w3|] == w3
    ensures code[o + |w1| + |w2| + |w3|..o + |w1| + |w2| + |w3| + |w4|] == w4
  {
    var w := w1 + w2 + w3 + w4;
    var n1, n2, n3 := |w1|, |w1| + |w2|, |w1| + |w2| + |w3|;
    SliceOf(code, o, w, 0, n1);
    SliceOf(code, o, w, n1, n2);
    SliceOf(code, o, w, n2, n3);
    SliceOf(code, o, w, n3, |w|);
    assert w[..n1] == w1;
    assert w[n1..n2] == w2;
    assert w[n2..n3] == w3;
    assert w[n3..] == w4;
  }

  lemma {:induction false} SliceOf(code: seq<byte>, o: nat, w: seq<byte>, i: nat, j: nat)
    requires o + |w| <= |code| && code[o..o + |w|] == w && i <= j <= |w|
    ensures code[o + i..o + j] == w[i..j]
    ensures forall k :: i <= k < j ==> code[o + k] == w[k]
  {
    forall k | i <= k < j ensures code[o + k] == w[k] {
      assert code[o..o + |w|][k] == code[o + k];
    }
    var u, v := code[o + i..o + j], w[i..j];
    assert |u| == |v|;
    forall k | 0 <= k < |u| ensures u[k] == v[k] {
      assert u[k] == code[o + (i + k)];
    }
  }

  // The decoded form of a three-byte jump.
  function JumpInstr(op: byte, target: int): Instr {
    if op == ON_FAILURE_JUMP then OnFail(target)
    else Goto(if op == JUMP_PAST_ALT then PastAlt else if op == MAYBE_POP_JUMP then MaybePop else DummyFailure, target)
  }

  lemma {:induction false} FetchJump(code: seq<byte>, p: nat, op: byte, distance: int)
    requires p + 3 <= |code| && code[p..p + 3] == JumpCode(op, distance)
    requires -32768 <= distance < 32768
    requires op == ON_FAILURE_JUMP || op == JUMP_PAST_ALT || op == MAYBE_POP_JUMP || op == DUMMY_FAILURE_JUMP
    ensures Fetch(code, p) == JumpInstr(op, p + 3 + distance)
  {
    SliceOf(code, p, JumpCode(op, distance), 0, 3);
    NumberRoundTrip(distance);
  }

  // The parts of a tree lie inside it.
  ghost predicate Parts(code: seq<byte>, o: nat, t: Re) {
    match t
    case Cat(a, b) => Embeds(code, o, a) && Embeds(code, o + Len(a), b)
    case Alt(a, b) => Embeds(code, o + 3, a) && Embeds(code, o + 6 + Len(a), b)
    case Star(a) => Embeds(code, o + 3, a)
    case Plus(a) => Embeds(code, o + 6, a)
    case Opt(a) => Embeds(code, o + 3, a)
    case Group(reg, _, a) => Embeds(code, o + GroupOpen(reg), a)
    case _ => true
  }

  // What stands at the structural positions of each tree.
  ghost predicate Structure(code: seq<byte>, o: nat, t: Re)
    requires o + Len(t) <= |code|
  {
    match t
    case Lit(cs) => |cs| > 0 && Fetch(code, o) == Exact(cs)
    case Any => Fetch(code, o) == AnyChar
    case Set(neg, bits) => Fetch(code, o) == CharSet(neg, bits)
    case Bol => Fetch(code, o) == BegLine
    case Eol => Fetch(code, o) == EndLine
    case Dummy => Fetch(code, o) == PushDummy
    case Alt(a, b) =>
      && Fetch(code, o) == OnFail(o + 6 + Len(a))
      && Fetch(code, o + 3 + Len(a)) == Goto(PastAlt, o + 6 + Len(a) + PastAltDistance(b))
    case Star(a) =>
      && Fetch(code, o) == OnFail(o + Len(t))
      && Fetch(code, o + 3 + Len(a)) == Goto(MaybePop, o)
    case Plus(a) =>
      && Fetch(code, o) == Goto(DummyFailure, o + 6)
      && Fetch(code, o + 3) == OnFail(o + Len(t))
      && Fetch(code, o + 6 + Len(a)) == Goto(MaybePop, o + 3)
    case Opt(a) => Fetch(code, o) == OnFail(o + Len(t))
    case Group(reg, inner, a) =>
      && (a.Alt? ==> Fetch(code, o + GroupOpen(reg) + Len(a)) == PushDummy)
      && (reg <= MAX_REGNUM ==>
            && Fetch(code, o) == StartMem(reg, inner % 256)
            && Fetch(code, o + 3 + Len(a) + GroupDummy(a)) == StopMem(reg, inner % 256))
    case _ => true
  }

  lemma {:induction false} Layout(code: seq<byte>, o: nat, t: Re)
    requires Embeds(code, o, t) && Len(t) <= MAX_REACH
    ensures Parts(code, o, t) && Structure(code, o, t)
  {
    match t
    case Eps =>
    case Cat(a, b) => CatLayout(code, o, a, b);
    case Alt(a, b) => AltLayout(code, o, a, b);
    case Star(a) => StarLayout(code, o, a);
    case Plus(a) => PlusLayout(code, o, a);
    case Opt(a) => OptLayout(code, o, a);
    case Group(reg, inner, a) => GroupLayout(code, o, reg, inner, a);
    case _ => LeafLayout(code, o, t);
  }

  lemma {:induction false} LeafLayout(code: seq<byte>, o: nat, t: Re)
    requires Embeds(code, o, t) && !t.Eps? && !t.Cat? && !t.Alt? && !t.Star? && !t.Plus? && !t.Opt? && !t.Group?
    ensures Structure(code, o, t)
  {
    var w := Emit(t);
    SliceOf(code, o, w, 0, |w|);
    assert code[o] == w[0];
    if t.Lit? {
      LeafOperands(code, o, [EXACTN, |t.chars|], t.chars);
    } else if t.Set? {
      LeafOperands(code, o, [if t.neg then CHARSET_NOT else CHARSET, |t.bits|], t.bits);
    }
  }

  lemma {:induction false} LeafOperands(code: seq<byte>, o: nat, head: seq<byte>, rest: seq<byte>)
    requires |head| == 2 && o + 2 + |rest| <= |code| && code[o..o + 2 + |rest|] == head + rest
    ensures code[o] == head[0] && code[o + 1] == head[1] && code[o + 2..o + 2 + |rest|] == rest
  {
    var w := head + rest;
    SliceOf(code, o, w, 0, 2);
    SliceOf(code, o, w, 2, |w|);
    assert code[o + 0] == w[0] && code[o + 1] == w[1];
    assert w[2..] == rest;
  }

  lemma {:induction false} CatLayout(code: seq<byte>, o: nat, a: Re, b: Re)
    requires Embeds(code, o, Cat(a, b))
    ensures Parts(code, o, Cat(a, b))
  {
    CatEmits(a, b);
    hide Emit, Len, WellFormed;
    PairSlices(code, o, Emit(a), Emit(b));
  }

  lemma {:induction false} PairSlices(code: seq<byte>, o: nat, x: seq<byte>, y: seq<byte>)
    requires o + |x| + |y| <= |code| && code[o..o + |x| + |y|] == x + y
    ensures code[o..o + |x|] == x && code[o + |x|..o + |x| + |y|] == y
  {
    SliceOf(code, o, x + y, 0, |x|);
    SliceOf(code, o, x + y, |x|, |x + y|);
    assert (x + y)[..|x|] == x && (x + y)[|x|..] == y;
  }

  lemma {:induction false} CatEmits(a: Re, b: Re)
    ensures WellFormed(Cat(a, b)) ==>
      WellFormed(a) && WellFormed(b) && Emit(Cat(a, b)) == Emit(a) + Emit(b) && Len(Cat(a, b)) == Len(a) + Len(b)
  {
  }

  lemma {:induction false} AltLayout(code: seq<byte>, o: nat, a: Re, b: Re)
    requires Embeds(code, o, Alt(a, b)) && Len(Alt(a, b)) <= MAX_REACH
    ensures Parts(code, o, Alt(a, b)) && Structure(code, o, Alt(a, b))
  {
    hide Fetch, JumpCode, Structure;
    AltSlices(code, o, a, b, Emit(a), Emit(b));
    AltStructure(code, o, a, b);
  }

  lemma {:induction false} AltSlices(code: seq<byte>, o: nat, a: Re, b: Re, wa: seq<byte>, wb: seq<byte>)
    requires |wa| == Len(a) && |wb| == Len(b) && o + 6 + |wa| + |wb| <= |code|
    requires code[o..o + 6 + |wa| + |wb|] ==
      JumpCode(ON_FAILURE_JUMP, Len(a) + 3) + wa + JumpCode(JUMP_PAST_ALT, PastAltDistance(b)) + wb
    ensures code[o..o + 3] == JumpCode(ON_FAILURE_JUMP, Len(a) + 3)
    ensures code[o + 3..o + 3 + Len(a)] == wa
    ensures code[o + 3 + Len(a)..o + 6 + Len(a)] == JumpCode(JUMP_PAST_ALT, PastAltDistance(b))
    ensures code[o + 6 + Len(a)..o + 6 + Len(a) + Len(b)] == wb
  {
    hide JumpCode;
    Slices(code, o, JumpCode(ON_FAILURE_JUMP, Len(a) + 3), wa, JumpCode(JUMP_PAST_ALT, PastAltDistance(b)), wb);
  }

  lemma {:induction false} AltStructure(code: seq<byte>, o: nat, a: Re, b: Re)
    requires Len(Alt(a, b)) <= MAX_REACH && o + Len(Alt(a, b)) <= |code|
    requires code[o..o + 3] == JumpCode(ON_FAILURE_JUMP, Len(a) + 3)
    requires code[o + 3 + Len(a)..o + 6 + Len(a)] == JumpCode(JUMP_PAST_ALT, PastAltDistance(b))
    ensures Structure(code, o, Alt(a, b))
  {
    hide Fetch, JumpCode;
    FetchJump(code, o, ON_FAILURE_JUMP, Len(a) + 3);
    FetchJump(code, o + 3 + Len(a), JUMP_PAST_ALT, PastAltDistance(b));
  }

  // The code of a loop.
  lemma {:induction false} StarEmits(x: Re)
    requires WellFormed(x)
    ensures WellFormed(Star(x)) && Len(Star(x)) == Len(x) + 6
    ensures Emit(Star(x)) == JumpCode(ON_FAILURE_JUMP, Len(x) + 3) + Emit(x) + JumpCode(MAYBE_POP_JUMP, -(Len(x) + 6))
  {
    hide JumpCode;
  }

  lemma {:induction false} PlusEmits(x: Re)
    requires WellFormed(x)
    ensures WellFormed(Plus(x)) && Len(Plus(x)) == Len(x) + 9
    ensures Emit(Plus(x)) == JumpCode(DUMMY_FAILURE_JUMP, 3) + JumpCode(ON_FAILURE_JUMP, Len(x) + 3) + Emit(x)
      + JumpCode(MAYBE_POP_JUMP, -(Len(x) + 6))
  {
    hide JumpCode;
  }

  lemma {:induction false} OptEmits(x: Re)
    requires WellFormed(x)
    ensures WellFormed(Opt(x)) && Len(Opt(x)) == Len(x) + 3
    ensures Emit(Opt(x)) == JumpCode(ON_FAILURE_JUMP, Len(x)) + Emit(x)
  {
    hide JumpCode;
  }

  lemma {:induction false} StarLayout(code: seq<byte>, o: nat, a: Re)
    requires Embeds(code, o, Star(a)) && Len(Star(a)) <= MAX_REACH
    ensures Parts(code, o, Star(a)) && Structure(code, o, Star(a))
  {
    hide Fetch, JumpCode, Structure, Emit, Len, WellFormed;
    StarEmbedded(code, o, a);
    TripleSlices(code, o, JumpCode(ON_FAILURE_JUMP, Len(a) + 3), Emit(a), JumpCode(MAYBE_POP_JUMP, -(Len(a) + 6)));
    StarStructure(code, o, a);
  }

  lemma {:induction false} StarEmbedded(code: seq<byte>, o: nat, a: Re)
    requires Embeds(code, o, Star(a))
    ensures WellFormed(a) && Len(Star(a)) == 6 + Len(a) && o + 6 + Len(a) <= |code|
    ensures code[o..o + 6 + Len(a)] ==
      JumpCode(ON_FAILURE_JUMP, Len(a) + 3) + Emit(a) + JumpCode(MAYBE_POP_JUMP, -(Len(a) + 6))
  {
    hide JumpCode, Emit, Len;
    StarEmits(a);
    assert o + (6 + Len(a)) == o + 6 + Len(a);
  }

  lemma {:induction false} TripleSlices(code: seq<byte>, o: nat, x: seq<byte>, w: seq<byte>, y: seq<byte>)
    requires o + |x| + |w| + |y| <= |code| && code[o..o + |x| + |w| + |y|] == x + w + y
    ensures code[o..o + |x|] == x && code[o + |x|..o + |x| + |w|] == w
    ensures code[o + |x| + |w|..o + |x| + |w| + |y|] == y
  {
    assert |x + w| == |x| + |w|;
    PairSlices(code, o, x + w, y);
    PairSlices(code, o, x, w);
  }

  lemma {:induction false} StarStructure(code: seq<byte>, o: nat, a: Re)
    requires Len(Star(a)) <= MAX_REACH && o + Len(Star(a)) <= |code|
    requires code[o..o + 3] == JumpCode(ON_FAILURE_JUMP, Len(a) + 3)
    requires code[o + 3 + Len(a)..o + 6 + Len(a)] == JumpCode(MAYBE_POP_JUMP, -(Len(a) + 6))
    ensures Structure(code, o, Star(a))
  {
    hide Fetch, JumpCode;
    FetchJump(code, o, ON_FAILURE_JUMP, Len(a) + 3);
    FetchJump(code, o + 3 + Len(a), MAYBE_POP_JUMP, -(Len(a) + 6));
  }

  lemma {:induction false} PlusLayout(code: seq<byte>, o: nat, a: Re)
    requires Embeds(code, o, Plus(a)) && Len(Plus(a)) <= MAX_REACH
    ensures Parts(code, o, Plus(a)) && Structure(code, o, Plus(a))
  {
    hide Fetch, JumpCode, Structure, Emit, Len, WellFormed;
    PlusEmbedded(code, o, a);
    PlusSlices(code, o, a, Emit(a));
    PlusStructure(code, o, a);
  }

  lemma {:induction false} PlusEmbedded(code: seq<byte>, o: nat, a: Re)
    requires Embeds(code, o, Plus(a))
    ensures WellFormed(a) && Len(Plus(a)) == 9 + Len(a) && o + 9 + Len(a) <= |code|
    ensures code[o..o + 9 + Len(a)] ==
      JumpCode(DUMMY_FAILURE_JUMP, 3) + JumpCode(ON_FAILURE_JUMP, Len(a) + 3) + Emit(a)
        + JumpCode(MAYBE_POP_JUMP, -(Len(a) + 6))
  {
    hide JumpCode, Emit, Len;
    PlusEmits(a);
    assert o + (9 + Len(a)) == o + 9 + Len(a);
  }

  lemma {:induction false} PlusStructure(code: seq<byte>, o: nat, a: Re)
    requires Len(Plus(a)) <= MAX_REACH && o + Len(Plus(a)) <= |code|
    requires code[o..o + 3] == JumpCode(DUMMY_FAILURE_JUMP, 3)
    requires code[o + 3..o + 6] == JumpCode(ON_FAILURE_JUMP, Len(a) + 3)
    requires code[o + 6 + Len(a)..o + 9 + Len(a)] == JumpCode(MAYBE_POP_JUMP, -(Len(a) + 6))
    ensures Structure(code, o, Plus(a))
  {
    hide Fetch, JumpCode;
    FetchJump(code, o, DUMMY_FAILURE_JUMP, 3);
    FetchJump(code, o + 3, ON_FAILURE_JUMP, Len(a) + 3);
    FetchJump(code, o + 6 + Len(a), MAYBE_POP_JUMP, -(Len(a) + 6));
  }

  lemma {:induction false} PlusSlices(code: seq<byte>, o: nat, a: Re, wa: seq<byte>)
    requires |wa| == Len(a) && o + 9 + |wa| <= |code|
    requires code[o..o + 9 + |wa|] ==
      JumpCode(DUMMY_FAILURE_JUMP, 3) + JumpCode(ON_FAILURE_JUMP, Len(a) + 3) + wa
        + JumpCode(MAYBE_POP_JUMP, -(Len(a) + 6))
    ensures code[o..o + 3] == JumpCode(DUMMY_FAILURE_JUMP, 3)
    ensures code[o + 3..o + 6] == JumpCode(ON_FAILURE_JUMP, Len(a) + 3)
    ensures code[o + 6..o + 6 + Len(a)] == wa
    ensures code[o + 6 + Len(a)..o + 9 + Len(a)] == JumpCode(MAYBE_POP_JUMP, -(Len(a) + 6))
  {
    hide JumpCode;
    Slices(code, o, JumpCode(DUMMY_FAILURE_JUMP, 3), JumpCode(ON_FAILURE_JUMP, Len(a) + 3), wa,
      JumpCode(MAYBE_POP_JUMP, -(Len(a) + 6)));
  }

  lemma {:induction false} OptLayout(code: seq<byte>, o: nat, a: Re)
    requires Embeds(code, o, Opt(a)) && Len(Opt(a)) <= MAX_REACH
    ensures Parts(code, o, Opt(a)) && Structure(code, o, Opt(a))
  {
    hide Fetch, JumpCode, Emit, Len, WellFormed;
    OptEmbedded(code, o, a);
    PairSlices(code, o, JumpCode(ON_FAILURE_JUMP, Len(a)), Emit(a));
    FetchJump(code, o, ON_FAILURE_JUMP, Len(a));
  }

  lemma {:induction false} OptEmbedded(code: seq<byte>, o: nat, a: Re)
    requires Embeds(code, o, Opt(a))
    ensures WellFormed(a) && Len(Opt(a)) == 3 + Len(a) && o + 3 + Len(a) <= |code|
    ensures code[o..o + 3 + Len(a)] == JumpCode(ON_FAILURE_JUMP, Len(a)) + Emit(a)
  {
    hide JumpCode, Emit, Len;
    OptEmits(a);
    assert o + (3 + Len(a)) == o + 3 + Len(a);
  }

  lemma {:induction false} FetchGroup(code: seq<byte>, p: nat, op: byte, reg: nat, inner: nat)
    requires reg <= MAX_REGNUM && p + 3 <= |code| && code[p..p + 3] == GroupCode(op, reg, inner)
    ensures op == START_MEMORY ==> Fetch(code, p) == StartMem(reg, inner % 256)
    ensures op == STOP_MEMORY ==> Fetch(code, p) == StopMem(reg, inner % 256)
  {
    var w := GroupCode(op, reg, inner);
    SliceOf(code, p, w, 0, 3);
    assert code[p + 0] == w[0] && code[p + 1] == w[1] && code[p + 2] == w[2];
  }

  lemma {:induction false} GroupLayout(code: seq<byte>, o: nat, reg: nat, inner: nat, a: Re)
    requires Embeds(code, o, Group(reg, inner, a))
    ensures Parts(code, o, Group(reg, inner, a)) && Structure(code, o, Group(reg, inner, a))
  {
    hide Fetch, GroupCode, Structure;
    var d: seq<byte> := if a.Alt? then [PUSH_DUMMY_FAILURE] else [];
    GroupSlices(code, o, reg, inner, a, Emit(a), d);
    GroupStructure(code, o, reg, inner, a, Emit(a), d);
  }

  lemma {:induction false} FetchDummy(code: seq<byte>, p: nat)
    requires p < |code| && code[p..p + 1] == [PUSH_DUMMY_FAILURE]
    ensures Fetch(code, p) == PushDummy
  {
    assert code[p] == code[p..p + 1][0];
  }

  lemma {:induction false} GroupSlices(code: seq<byte>, o: nat, reg: nat, inner: nat, a: Re, wa: seq<byte>,
        d: seq<byte>)
    requires |wa| == Len(a) && |d| == GroupDummy(a) && o + 2 * GroupOpen(reg) + |wa| + |d| <= |code|
    requires code[o..o + 2 * GroupOpen(reg) + |wa| + |d|] ==
      GroupCode(START_MEMORY, reg, inner) + wa + d + GroupCode(STOP_MEMORY, reg, inner)
    ensures var s := o + GroupOpen(reg);
      && code[o..s] == GroupCode(START_MEMORY, reg, inner)
      && code[s..s + |wa|] == wa && code[s + |wa|..s + |wa| + |d|] == d
      && code[s + |wa| + |d|..s + |wa| + |d| + GroupOpen(reg)] == GroupCode(STOP_MEMORY, reg, inner)
  {
    hide GroupCode;
    Slices(code, o, GroupCode(START_MEMORY, reg, inner), wa, d, GroupCode(STOP_MEMORY, reg, inner));
  }

  lemma {:induction false} GroupStructure(code: seq<byte>, o: nat, reg: nat, inner: nat, a: Re, wa: seq<byte>,
        d: seq<byte>)
    requires |wa| == Len(a) && d == (if a.Alt? then [PUSH_DUMMY_FAILURE] else [])
    requires o + 2 * GroupOpen(reg) + |wa| + |d| <= |code|
    requires var s := o + GroupOpen(reg);
      && code[o..s] == GroupCode(START_MEMORY, reg, inner)
      && code[s + |wa|..s + |wa| + |d|] == d
      && code[s + |wa| + |d|..s + |wa| + |d| + GroupOpen(reg)] == GroupCode(STOP_MEMORY, reg, inner)
    ensures Structure(code, o, Group(reg, inner, a))
  {
    hide Fetch, GroupCode;
    var s := o + GroupOpen(reg);
    if a.Alt? {
      FetchDummy(code, s + |wa|);
    }
    if reg <= MAX_REGNUM {
      FetchGroup(code, o, START_MEMORY, reg, inner);
      FetchGroup(code, s + |wa| + |d|, STOP_MEMORY, reg, inner);
    }
  }

  // ---- Finding the command at a position ----

  // Position q holds one of t's own commands, not one of a part's.
  predicate Own(t: Re, q: int) {
    match t
    case Eps => false
    case Cat(_, _) => false
    case Alt(a, _) => q == 0 || q == 3 + Len(a)
    case Star(a) => q == 0 || q == 3 + Len(a)
    case Plus(a) => q == 0 || q == 3 || q == 6 + Len(a)
    case Opt(_) => q == 0
    case Group(reg, _, a) => q < GroupOpen(reg) || q >= GroupOpen(reg) + Len(a)
    case _ => true
  }

  // The part s holding position q, and the offset k of its code.
  datatype Part = Part(k: nat, s: Re)

  function PartAt(t: Re, q: int): Part {
    match t
    case Cat(a, b) => if q < Len(a) then Part(0, a) else Part(Len(a), b)
    case Alt(a, b) => if q < 3 + Len(a) then Part(3, a) else Part(6 + Len(a), b)
    case Star(a) => Part(3, a)
    case Plus(a) => Part(6, a)
    case Opt(a) => Part(3, a)
    case Group(reg, _, a) => Part(GroupOpen(reg), a)
    case _ => Part(0, t)
  }

  lemma {:induction false} StartIsBoundary(t: Re)
    ensures Boundary(t, 0)
  {
    match t
    case Cat(a, b) => StartIsBoundary(a); StartIsBoundary(b);
    case _ =>
  }

  lemma {:induction false} BoundaryInRange(t: Re, x: int)
    requires Boundary(t, x)
    ensures 0 <= x <= Len(t)
  {
  }

  lemma {:induction false} PartHolds(t: Re, q: int)
    requires 0 <= q < Len(t) && Boundary(t, q) && !Own(t, q)
    ensures var p := PartAt(t, q);
      p.s < t && p.k <= q < p.k + Len(p.s) && p.k + Len(p.s) <= Len(t) && Boundary(p.s, q - p.k)
  {
    hide Boundary, Len;
    match t
    case Cat(a, b) => CatHolds(a, b, q);
    case Alt(a, b) => AltHolds(a, b, q);
    case Star(a) => StarHolds(a, q);
    case Plus(a) => PlusHolds(a, q);
    case Opt(a) => OptHolds(a, q);
    case Group(reg, inner, a) => GroupHolds(reg, inner, a, q);
    case Eps => EpsLen();
    case _ =>
  }

  lemma {:induction false} CatHolds(a: Re, b: Re, q: int)
    requires 0 <= q < Len(Cat(a, b)) && Boundary(Cat(a, b), q)
    ensures Len(Cat(a, b)) == Len(a) + Len(b)
    ensures if q < Len(a) then Boundary(a, q) else Boundary(b, q - Len(a))
  {
  }

  lemma {:induction false} EpsLen()
    ensures Len(Eps) == 0
  {
  }

  lemma {:induction false} StarHolds(a: Re, q: int)
    requires 0 < q < Len(Star(a)) && q != 3 + Len(a) && Boundary(Star(a), q)
    ensures Len(Star(a)) == 6 + Len(a) && 3 <= q < 3 + Len(a) && Boundary(a, q - 3)
  {
    BoundaryInRange(a, q - 3);
  }

  lemma {:induction false} PlusHolds(a: Re, q: int)
    requires 0 < q < Len(Plus(a)) && q != 3 && q != 6 + Len(a) && Boundary(Plus(a), q)
    ensures Len(Plus(a)) == 9 + Len(a) && 6 <= q < 6 + Len(a) && Boundary(a, q - 6)
  {
    BoundaryInRange(a, q - 6);
  }

  lemma {:induction false} OptHolds(a: Re, q: int)
    requires 0 < q < Len(Opt(a)) && Boundary(Opt(a), q)
    ensures Len(Opt(a)) == 3 + Len(a) && 3 <= q < 3 + Len(a) && Boundary(a, q - 3)
  {
    BoundaryInRange(a, q - 3);
  }

  lemma {:induction false} GroupHolds(reg: nat, inner: nat, a: Re, q: int)
    requires var t := Group(reg, inner, a); 0 <= q < Len(t) && Boundary(t, q)
    requires GroupOpen(reg) <= q < GroupOpen(reg) + Len(a)
    ensures GroupOpen(reg) + Len(a) <= Len(Group(reg, inner, a)) && Boundary(a, q - GroupOpen(reg))
  {
    if q == 0 { StartIsBoundary(a); }
  }

  lemma {:induction false} AltHolds(a: Re, b: Re, q: int)
    requires 0 <= q < Len(Alt(a, b)) && Boundary(Alt(a, b), q) && q != 0 && q != 3 + Len(a)
    ensures Len(Alt(a, b)) == 6 + Len(a) + Len(b)
    ensures if q < 3 + Len(a) then 3 <= q && Boundary(a, q - 3)
      else 6 + Len(a) <= q && Boundary(b, q - (6 + Len(a)))
  {
    assert q - 6 - Len(a) == q - (6 + Len(a));
    if q <= 3 + Len(a) && Boundary(a, q - 3) { BoundaryInRange(a, q - 3); } else { BoundaryInRange(b, q - 6 - Len(a)); }
  }

  lemma {:induction false} PartEmbeds(code: seq<byte>, o: nat, t: Re, q: int)
    requires Parts(code, o, t) && 0 <= q < Len(t) && Boundary(t, q) && !Own(t, q)
    ensures var p := PartAt(t, q); Embeds(code, o + p.k, p.s)
  {
    hide Embeds, Boundary;
  }
}
