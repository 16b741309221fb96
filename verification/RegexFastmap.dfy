// re_compile_fastmap: a worklist over positions of the program finds which characters can begin a
// match.  It computes exactly the characters, and the emptiness, that the tree shows.
module RegexFastmap {
  import opened Bytes
  import opened RegexTree
  import opened RegexCode
  import opened RegexResid
  import opened RegexDepth
  import opened RegexFirst
  import Machine = RegexMachine

  // ---- What is still to be found ----

  // What the current path adds: nothing more once it is at the end, apart from having matched nothing.
  function HereAhead(t: Re, p: nat, path: bool, c: byte): Ahead {
    if p == Len(t) then Ahead(false, path) else AheadOf(t, p, c)
  }

  function StackAhead(t: Re, stack: seq<nat>, c: byte): Ahead {
    if stack == [] then Ahead(false, false)
    else Joined(StackAhead(t, stack[..|stack| - 1], c), AheadOf(t, stack[|stack| - 1], c))
  }

  // Found already, or ahead on the current path or on a stacked one: all that the tree shows for c.
  predicate CoversAt(t: Re, found: bool, canBeNull: bool, p: nat, path: bool, stack: seq<nat>, c: byte) {
    Joined(Joined(Ahead(found, canBeNull), HereAhead(t, p, path, c)), StackAhead(t, stack, c)) == Whole(t, c)
  }

  // Every stacked position comes after the command that stacked it, three bytes for each below it.
  predicate Stacked(t: Re, stack: seq<nat>) {
    forall i :: 0 <= i < |stack| ==> 3 * i < stack[i] < Len(t) && Boundary(t, stack[i])
  }

  // Positions shrink towards the end; a fork weighs more than its two sides.
  function Weight(t: Re, p: nat): nat
    requires p <= Len(t)
  {
    Power2(Len(t) - p)
  }

  function StackWeight(t: Re, stack: seq<nat>): nat
    requires Stacked(t, stack)
  {
    if stack == [] then 0 else StackWeight(t, stack[..|stack| - 1]) + Weight(t, stack[|stack| - 1])
  }

  lemma {:induction false} Lighter(t: Re, p: nat, q: nat)
    requires p < q <= Len(t)
    ensures 2 * Weight(t, q) <= Weight(t, p)
    decreases q - p
  {
    if p + 1 < q { Lighter(t, p + 1, q); }
  }

  lemma {:induction false} StackPush(t: Re, stack: seq<nat>, q: nat, c: byte)
    requires Stacked(t, stack) && 3 * |stack| < q < Len(t) && Boundary(t, q)
    ensures Stacked(t, stack + [q]) && StackWeight(t, stack + [q]) == StackWeight(t, stack) + Weight(t, q)
    ensures StackAhead(t, stack + [q], c) == Joined(StackAhead(t, stack, c), AheadOf(t, q, c))
  {
    var s := stack + [q];
    assert s[..|s| - 1] == stack;
  }

  lemma {:induction false} PowerPositive(t: Re, p: nat)
    requires p <= Len(t)
    ensures Weight(t, p) > 0
  {
  }

  lemma {:induction false} StackTop(t: Re, stack: seq<nat>)
    requires stack != [] && Stacked(t, stack)
    ensures var s := stack[|stack| - 1];
      && 3 * (|stack| - 1) < s < Len(t) && Boundary(t, s) && Stacked(t, stack[..|stack| - 1]) && Weight(t, Len(t)) == 1
      && StackWeight(t, stack) == StackWeight(t, stack[..|stack| - 1]) + Weight(t, s)
  {
    hide Boundary;
  }

  // ---- Where each command leads ----

  ghost predicate Analysed(code: seq<byte>, t: Re) {
    Embeds(code, 0, t) && |code| == Len(t) <= MAX_REACH && Chain(t)
  }

  predicate Later(t: Re, q: nat, x: int) {
    q < x <= Len(t) && Boundary(t, x)
  }

  ghost predicate Leads(code: seq<byte>, t: Re, q: nat, i: Instr) {
    match i
    case NoOp => false
    case Bad => false
    case Goto(kind, target) =>
      if kind == MaybePop then Later(t, q, q + 3) && 0 <= target < q && target < |code|
        && Fetch(code, target) == OnFail(q + 3)
      else Later(t, q, target) && q + 3 <= target && ShortJump(code, 0, t, q, target)
    case OnFail(target) => Later(t, q, q + 3) && Later(t, q, target)
    case Exact(cs) => cs != []
    case AnyChar => true
    case CharSet(_, bits) => |bits| <= 32
    case _ => Later(t, q, q + Size(i))
  }

  lemma {:induction false} LeadsOn(code: seq<byte>, t: Re, q: nat)
    requires Analysed(code, t) && q < Len(t) && Boundary(t, q)
    ensures Leads(code, t, q, Fetch(code, q))
  {
    hide Fetch, Embeds, AheadOf, Boundary, Resid, Spans, Chain, LastEmpty, Starts, Null, Moves, StepKeeps;
    FirstStep(code, 0, t, q, 0);
    match Fetch(code, q)
    case Goto(kind, target) => LeadsGoto(code, t, q, kind, target);
    case OnFail(target) => Forks(code, t, q, target);
    case Exact(_) =>
    case AnyChar =>
    case CharSet(_, _) =>
    case NoOp =>
    case Bad =>
    case _ => StepsOver(code, t, q);
  }

  lemma {:induction false} LeadsGoto(code: seq<byte>, t: Re, q: nat, kind: JumpKind, target: int)
    requires Analysed(code, t) && q < Len(t) && Boundary(t, q) && Fetch(code, q) == Goto(kind, target)
    requires FirstFacts(code, 0, t, q, Goto(kind, target), 0)
    ensures Leads(code, t, q, Goto(kind, target))
  {
    hide Fetch, Embeds, AheadOf, Boundary, Resid, Spans, Chain, LastEmpty, Starts, Null, Moves, StepKeeps;
    JumpsTo(code, t, q, target);
    if kind == MaybePop { Forks(code, t, target, q + 3); }
  }

  lemma {:induction false} JumpsTo(code: seq<byte>, t: Re, q: nat, target: int)
    requires Analysed(code, t) && q < Len(t) && Boundary(t, q) && Fetch(code, q).Goto?
    requires Fetch(code, q).target == target
    ensures Boundary(t, target) && 0 <= target <= Len(t)
  {
    hide Fetch, Embeds, Boundary, Resid, Spans, Moves;
    MovesGoto(code, Env([], false, false), q, target);
    ResidStep(code, 0, t, q, Env([], false, false), 0);
    assert target - 0 == target;
  }

  lemma {:induction false} Forks(code: seq<byte>, t: Re, q: nat, target: int)
    requires Analysed(code, t) && q < Len(t) && Boundary(t, q) && Fetch(code, q) == OnFail(target)
    ensures Boundary(t, q + 3) && q + 3 <= Len(t) && Boundary(t, target) && 0 <= target <= Len(t)
  {
    hide Fetch, Embeds, Boundary, Resid, Spans, Moves;
    MovesFork(code, Env([], false, false), q, target);
    ResidStep(code, 0, t, q, Env([], false, false), 0);
    assert q + 3 - 0 == q + 3 && target - 0 == target;
  }

  lemma {:induction false} StepsOver(code: seq<byte>, t: Re, q: nat)
    requires Analysed(code, t) && q < Len(t) && Boundary(t, q)
    ensures var i := Fetch(code, q);
      i.StartMem? || i.StopMem? || i.BegLine? || i.EndLine? || i.PushDummy? ==> Later(t, q, q + Size(i))
  {
    hide Fetch, Embeds, Boundary, Resid, Spans, Moves;
    MovesOver(code, Env([], false, false), q);
    ResidStep(code, 0, t, q, Env([], false, false), 0);
    assert q + Size(Fetch(code, q)) - 0 == q + Size(Fetch(code, q));
  }

  lemma {:induction false} MovesGoto(code: seq<byte>, env: Env, q: nat, target: int)
    requires q < |code| && Fetch(code, q).Goto? && Fetch(code, q).target == target
    ensures Moves(code, env, q, 0) == To(target, 0)
  {
    hide Fetch;
  }

  lemma {:induction false} MovesFork(code: seq<byte>, env: Env, q: nat, target: int)
    requires q < |code| && Fetch(code, q) == OnFail(target)
    ensures Moves(code, env, q, 0) == Either(q + 3, target)
  {
    hide Fetch;
  }

  // On an empty text with anchors in force, commands that match nothing lead to the next one.
  lemma {:induction false} MovesOver(code: seq<byte>, env: Env, q: nat)
    requires q < |code| && env == Env([], false, false)
    ensures var i := Fetch(code, q);
      i.StartMem? || i.StopMem? || i.BegLine? || i.EndLine? || i.PushDummy? ==>
        Moves(code, env, q, 0) == To(q + Size(i), 0)
  {
    hide Fetch;
  }

  // ---- One command, for one character ----

  lemma {:induction false} StartCovers(t: Re, c: byte)
    ensures CoversAt(t, false, false, 0, true, [], c)
  {
    hide AheadOf, Starts, Null;
    AheadAtStart(t, c);
    if Len(t) == 0 { RegexFirst.EmptyCode(t, c); }
  }

  // The next path comes off the stack.
  lemma {:induction false} PopCovers(t: Re, found: bool, canBeNull: bool, path: bool, stack: seq<nat>, c: byte)
    requires stack != [] && Stacked(t, stack) && CoversAt(t, found, canBeNull, Len(t), path, stack, c)
    ensures CoversAt(t, found, canBeNull || path, stack[|stack| - 1], true, stack[..|stack| - 1], c)
  {
    hide AheadOf, Starts, Null, Boundary;
  }

  // A command that matches a character ends the path.
  lemma {:induction false} CharCovers(code: seq<byte>, t: Re, found: bool, canBeNull: bool, p: nat, stack: seq<nat>,
        c: byte)
    requires Analysed(code, t) && p < Len(t) && Boundary(t, p) && CoversAt(t, found, canBeNull, p, true, stack, c)
    ensures var i := Fetch(code, p);
      && (i.Exact? ==> i.chars != [] && CoversAt(t, found || c == i.chars[0], canBeNull, Len(t), false, stack, c))
      && (i.AnyChar? ==> CoversAt(t, true, canBeNull, Len(t), false, stack, c))
      && (i.CharSet? ==>
            && |i.bits| <= 32
            && CoversAt(t, found || SetMatches(i.neg, i.bits, c), canBeNull, Len(t), false, stack, c))
  {
    hide AheadOf, Starts, Null, Boundary, Fetch, Embeds, Chain, SetMatches, StackAhead;
    FirstStep(code, 0, t, p, c);
  }

  // A position with the same ahead covers the same.
  lemma {:induction false} SameCovers(t: Re, found: bool, canBeNull: bool, p: nat, q: nat, stack: seq<nat>, c: byte)
    requires p < Len(t) && CoversAt(t, found, canBeNull, p, true, stack, c) && AheadOf(t, q, c) == AheadOf(t, p, c)
    ensures CoversAt(t, found, canBeNull, q, true, stack, c)
  {
    hide AheadOf, Starts, Null, StackAhead, Len;
    AtEnd(t, q, c);
  }

  // A command that matches nothing leads on.
  lemma {:induction false} OverCovers(code: seq<byte>, t: Re, found: bool, canBeNull: bool, p: nat, stack: seq<nat>,
        c: byte)
    requires Analysed(code, t) && p < Len(t) && Boundary(t, p) && CoversAt(t, found, canBeNull, p, true, stack, c)
    ensures var i := Fetch(code, p);
      i.StartMem? || i.StopMem? || i.BegLine? || i.EndLine? || i.PushDummy? ==>
        CoversAt(t, found, canBeNull, p + Size(i), true, stack, c)
  {
    hide AheadOf, Starts, Null, Boundary, Fetch, Embeds, Chain, CoversAt;
    FirstStep(code, 0, t, p, c);
    var i := Fetch(code, p);
    if i.StartMem? || i.StopMem? || i.BegLine? || i.EndLine? || i.PushDummy? {
      SameCovers(t, found, canBeNull, p, p + Size(i), stack, c);
    }
  }

  lemma {:induction false} AtEnd(t: Re, q: nat, c: byte)
    ensures q == Len(t) ==> AheadOf(t, q, c) == DONE
  {
  }

  // So does a jump; a loop's jump leads to the loop's exit.
  lemma {:induction false} JumpCovers(code: seq<byte>, t: Re, found: bool, canBeNull: bool, p: nat, stack: seq<nat>,
        c: byte)
    requires Analysed(code, t) && p < Len(t) && Boundary(t, p) && CoversAt(t, found, canBeNull, p, true, stack, c)
    requires Fetch(code, p).Goto?
    ensures var i := Fetch(code, p);
      var next := if i.kind == MaybePop then p + 3 else i.target;
      0 <= next <= Len(t) && CoversAt(t, found, canBeNull, next, true, stack, c)
  {
    hide AheadOf, Starts, Null, Boundary, Fetch, Embeds, Chain, ShortJump, CoversAt;
    FirstStep(code, 0, t, p, c);
    var i := Fetch(code, p);
    assert i.target - 0 == i.target;
    SameCovers(t, found, canBeNull, p, if i.kind == MaybePop then p + 3 else i.target, stack, c);
  }

  // A stacked path that starts where the current one is adds nothing.
  lemma {:induction false} TwiceCovers(t: Re, found: bool, canBeNull: bool, p: nat, stack: seq<nat>, c: byte)
    requires stack != [] && stack[|stack| - 1] == p < Len(t) && CoversAt(t, found, canBeNull, p, true, stack, c)
    ensures CoversAt(t, found, canBeNull, p, true, stack[..|stack| - 1], c)
  {
    hide AheadOf, Starts, Null;
  }

  // A fork stacks its other side; the end of the pattern means an empty match instead.
  lemma {:induction false} ForkCovers(code: seq<byte>, t: Re, found: bool, canBeNull: bool, p: nat, stack: seq<nat>,
        c: byte)
    requires Analysed(code, t) && p < Len(t) && Boundary(t, p) && CoversAt(t, found, canBeNull, p, true, stack, c)
    requires Fetch(code, p).OnFail? && Stacked(t, stack)
    ensures var target := Fetch(code, p).target;
      && (0 <= target < Len(t) ==> CoversAt(t, found, canBeNull, p + 3, true, stack + [target], c))
      && (target == Len(t) ==> CoversAt(t, found, true, p + 3, true, stack, c))
  {
    hide AheadOf, Starts, Null, Boundary, Fetch, Embeds, Chain, ShortJump, StackAhead;
    FirstStep(code, 0, t, p, c);
    var target := Fetch(code, p).target;
    assert target - 0 == target;
    AtEnd(t, target, c);
    AtEnd(t, p + 3, c);
    if 0 <= target < Len(t) { StackSum(t, stack, target, c); }
  }

  lemma {:induction false} StackSum(t: Re, stack: seq<nat>, q: nat, c: byte)
    ensures StackAhead(t, stack + [q], c) == Joined(StackAhead(t, stack, c), AheadOf(t, q, c))
  {
    hide AheadOf;
    var s := stack + [q];
    assert s[..|s| - 1] == stack;
  }

  // ---- One command, for every character ----

  ghost predicate CoversAll(t: Re, found: seq<bool>, canBeNull: bool, p: nat, path: bool, stack: seq<nat>) {
    |found| == 256 && forall c: byte :: CoversAt(t, found[c], canBeNull, p, path, stack, c)
  }

  lemma {:induction false} PopAll(t: Re, found: seq<bool>, canBeNull: bool, path: bool, stack: seq<nat>)
    requires stack != [] && Stacked(t, stack) && CoversAll(t, found, canBeNull, Len(t), path, stack)
    ensures CoversAll(t, found, canBeNull || path, stack[|stack| - 1], true, stack[..|stack| - 1])
  {
    hide CoversAt, Boundary;
    forall c: byte ensures CoversAt(t, found[c], canBeNull || path, stack[|stack| - 1], true, stack[..|stack| - 1], c) {
      PopCovers(t, found[c], canBeNull, path, stack, c);
    }
  }

  lemma {:induction false} TwiceAll(t: Re, found: seq<bool>, canBeNull: bool, p: nat, stack: seq<nat>)
    requires stack != [] && stack[|stack| - 1] == p < Len(t) && CoversAll(t, found, canBeNull, p, true, stack)
    ensures CoversAll(t, found, canBeNull, p, true, stack[..|stack| - 1])
  {
    hide CoversAt;
    forall c: byte ensures CoversAt(t, found[c], canBeNull, p, true, stack[..|stack| - 1], c) {
      TwiceCovers(t, found[c], canBeNull, p, stack, c);
    }
  }

  lemma {:induction false} JumpAll(code: seq<byte>, t: Re, found: seq<bool>, canBeNull: bool, p: nat, stack: seq<nat>,
        next: nat)
    requires Analysed(code, t) && p < Len(t) && Boundary(t, p) && CoversAll(t, found, canBeNull, p, true, stack)
    requires Fetch(code, p).Goto? && next == (if Fetch(code, p).kind == MaybePop then p + 3 else Fetch(code, p).target)
    ensures CoversAll(t, found, canBeNull, next, true, stack)
  {
    hide CoversAt, Boundary, Fetch, Embeds, Chain;
    forall c: byte ensures CoversAt(t, found[c], canBeNull, next, true, stack, c) {
      JumpCovers(code, t, found[c], canBeNull, p, stack, c);
    }
  }

  lemma {:induction false} OverAll(code: seq<byte>, t: Re, found: seq<bool>, canBeNull: bool, p: nat, stack: seq<nat>)
    requires Analysed(code, t) && p < Len(t) && Boundary(t, p) && CoversAll(t, found, canBeNull, p, true, stack)
    requires var i := Fetch(code, p); i.StartMem? || i.StopMem? || i.BegLine? || i.EndLine? || i.PushDummy?
    ensures CoversAll(t, found, canBeNull, p + Size(Fetch(code, p)), true, stack)
  {
    hide CoversAt, Boundary, Fetch, Embeds, Chain, Size;
    forall c: byte ensures CoversAt(t, found[c], canBeNull, p + Size(Fetch(code, p)), true, stack, c) {
      OverCovers(code, t, found[c], canBeNull, p, stack, c);
    }
  }

  lemma {:induction false} ForkAll(code: seq<byte>, t: Re, found: seq<bool>, canBeNull: bool, p: nat, stack: seq<nat>,
        target: int)
    requires Analysed(code, t) && p < Len(t) && Boundary(t, p) && CoversAll(t, found, canBeNull, p, true, stack)
    requires Fetch(code, p) == OnFail(target) && Stacked(t, stack)
    ensures 0 <= target < Len(t) ==> CoversAll(t, found, canBeNull, p + 3, true, stack + [target])
    ensures target == Len(t) ==> CoversAll(t, found, true, p + 3, true, stack)
  {
    hide CoversAt, Boundary, Fetch, Embeds, Chain;
    forall c: byte
      ensures 0 <= target < Len(t) ==> CoversAt(t, found[c], canBeNull, p + 3, true, stack + [target], c)
      ensures target == Len(t) ==> CoversAt(t, found[c], true, p + 3, true, stack, c)
    {
      ForkCovers(code, t, found[c], canBeNull, p, stack, c);
    }
  }

  // With what the command matches marked, the path is over.
  lemma {:induction false} CharAll(code: seq<byte>, t: Re, found: seq<bool>, canBeNull: bool, p: nat, stack: seq<nat>,
        found': seq<bool>)
    requires Analysed(code, t) && p < Len(t) && Boundary(t, p) && CoversAll(t, found, canBeNull, p, true, stack)
    requires |found'| == 256
    requires match Fetch(code, p)
      case Exact(cs) => cs != [] && forall c: byte :: found'[c] <==> found[c] || c == cs[0]
      case AnyChar => forall c: byte :: found'[c]
      case CharSet(neg, bits) => forall c: byte :: found'[c] <==> found[c] || SetMatches(neg, bits, c)
      case _ => false
    ensures CoversAll(t, found', canBeNull, Len(t), false, stack)
  {
    hide CoversAt, Boundary, Fetch, Embeds, Chain, SetMatches;
    forall c: byte ensures CoversAt(t, found'[c], canBeNull, Len(t), false, stack, c) {
      CharCovers(code, t, found[c], canBeNull, p, stack, c);
    }
  }

  lemma {:induction false} StartAll(t: Re, found: seq<bool>)
    requires |found| == 256 && forall c: byte :: !found[c]
    ensures CoversAll(t, found, false, 0, true, [])
  {
    hide CoversAt;
    forall c: byte ensures CoversAt(t, found[c], false, 0, true, [], c) { StartCovers(t, c); }
  }

  // Nothing is left to be found.
  lemma {:induction false} DoneAll(t: Re, found: seq<bool>, canBeNull: bool, path: bool)
    requires CoversAll(t, found, canBeNull, Len(t), path, [])
    ensures (canBeNull || path) == Null(t)
    ensures forall c: byte :: found[c] <==> Starts(t, c)
  {
    hide AheadOf;
    assert CoversAt(t, found[0], canBeNull, Len(t), path, [], 0);
    forall c: byte ensures found[c] <==> Starts(t, c) {
      assert CoversAt(t, found[c], canBeNull, Len(t), path, [], c);
    }
  }

  // What was found to match nothing may match nothing.
  lemma {:induction false} NullAll(t: Re, found: seq<bool>, p: nat, path: bool, stack: seq<nat>)
    requires CoversAll(t, found, true, p, path, stack)
    ensures Null(t)
  {
    hide AheadOf, StackAhead;
    assert CoversAt(t, found[0], true, p, path, stack, 0);
  }

  // ---- The analysis ----

  // What one command decides: carry on, or return.
  datatype Verdict = Continue | Return(code: int)

  // The other command that repeats; nothing in this fragment compiles to it.
  const SUCCEED_N: byte := 20

  // Where a jump backwards is taken to have come around a loop.
  predicate HeadLike(op: byte) {
    op == ON_FAILURE_JUMP || op == SUCCEED_N
  }

  class Analysis {
    const fastmap: array<bool>
    var canBeNull: bool
    var path: bool
    var p: nat
    var stack: seq<nat>
    var size: nat

    ghost predicate Placed(t: Re)
      reads this
    {
      p <= Len(t) && Boundary(t, p) && (p < Len(t) ==> path) && Stacked(t, stack) && 3 * |stack| <= p
    }

    ghost predicate Covering(t: Re)
      reads this, fastmap
    {
      fastmap.Length == 256 && CoversAll(t, fastmap[..], canBeNull, p, path, stack)
    }

    ghost predicate Valid(t: Re)
      reads this, fastmap
    {
      Placed(t) && Covering(t)
    }

    ghost function Left(t: Re): nat
      requires Placed(t)
      reads this
    {
      Weight(t, p) + StackWeight(t, stack)
    }

    constructor (fastmap: array<bool>, ghost t: Re)
      requires fastmap.Length == 256 && forall c: byte :: !fastmap[c]
      ensures this.fastmap == fastmap && Valid(t) && p == 0
    {
      hide CoversAll, Boundary;
      this.fastmap := fastmap;
      canBeNull, path, p, stack, size := false, true, 0, [], Machine.INIT_FAILURE_ALLOC;
      new;
      StartIsBoundary(t);
      StartAll(t, fastmap[..]);
    }

    // The end of one path: take up the next.
    method NextPath(ghost t: Re)
      requires Valid(t) && p == Len(t) && stack != []
      modifies this`canBeNull, this`path, this`p, this`stack
      ensures Valid(t) && Left(t) < old(Left(t)) && p < Len(t)
    {
      hide CoversAll, Boundary, Stacked, StackWeight, Weight;
      StackTop(t, stack);
      PopAll(t, fastmap[..], canBeNull, path, stack);
      canBeNull := canBeNull || path;
      path := true;
      p, stack := stack[|stack| - 1], stack[..|stack| - 1];
    }

    // `path_can_be_null = false; p = pend': the path has matched a character.
    method EndPath(pend: nat, ghost t: Re)
      requires pend == Len(t) && Placed(t) && p < Len(t)
      modifies this`p, this`path
      ensures Placed(t) && p == pend && path == false && Left(t) < old(Left(t))
    {
      hide Boundary;
      Lighter(t, p, Len(t));
      EndIsBoundary(t);
      p, path := pend, false;
    }

    // Every character, or every one a set matches.
    method MarkAll()
      requires fastmap.Length == 256
      modifies fastmap
      ensures forall c: byte :: fastmap[c]
    {
      var j := 0;
      while j < 256
        invariant 0 <= j <= 256 && forall c: byte :: c < j ==> fastmap[c]
      {
        fastmap[j] := true;
        j := j + 1;
      }
    }

    method MarkSet(neg: bool, bits: seq<byte>)
      requires fastmap.Length == 256 && |bits| <= 32
      modifies fastmap
      ensures forall c: byte :: fastmap[c] <==> old(fastmap[c]) || SetMatches(neg, bits, c)
    {
      hide Bit;
      if neg {
        // characters past the end of the fastmap are allowed
        var j := |bits| * 8;
        while j < 256
          invariant |bits| * 8 <= j <= 256
          invariant forall c: byte :: fastmap[c] <==> old(fastmap[c]) || (|bits| * 8 <= c < j)
        {
          fastmap[j] := true;
          j := j + 1;
        }
      }
      var j: int := |bits| * 8 - 1;
      while j >= 0
        invariant -1 <= j < |bits| * 8
        invariant forall c: byte :: fastmap[c] <==>
          old(fastmap[c]) || (neg && c >= |bits| * 8) || (j < c < |bits| * 8 && InMap(bits, c) != neg)
      {
        if Bit(bits[j / 8], j % 8) != neg { fastmap[j] := true; }
        j := j - 1;
      }
    }

    // The commands that match a character.
    method Char(code: seq<byte>, ghost t: Re) returns (v: Verdict)
      requires Analysed(code, t) && Valid(t) && p < Len(t)
      requires var i := Fetch(code, p); i.Exact? || i.AnyChar? || i.CharSet?
      modifies this`p, this`path, fastmap
      ensures v == Continue ==> Valid(t) && Left(t) < old(Left(t))
      ensures v != Continue ==> v == Return(0) && canBeNull
    {
      hide CoversAll, Boundary, Fetch, Embeds, SetMatches, Chain, Leads;
      ghost var found := fastmap[..];
      CharOperands(code, t, p);
      match Fetch(code, p) {
        case Exact(chars) =>
          fastmap[chars[0]] := true;
        case AnyChar =>
          MarkAll();
          // the fastmap does not matter any more
          if canBeNull { return Return(0); }
        case CharSet(neg, bits) =>
          MarkSet(neg, bits);
      }
      CharAll(code, t, found, canBeNull, p, stack, fastmap[..]);
      EndPath(|code|, t);
      return Continue;
    }

    // Jumps.  A jump backwards has gone through the body of a loop and matched nothing: it is left.
    method Jump(code: seq<byte>, beyond: byte, ghost t: Re)
      requires Analysed(code, t) && Valid(t) && p < Len(t) && Fetch(code, p).Goto?
      requires LastEmpty(t) ==> !HeadLike(beyond)
      modifies this`p, this`stack
      ensures Valid(t) && Left(t) < old(Left(t))
    {
      hide CoversAll, Boundary, Fetch, Embeds, Chain, LastEmpty, Leads, JumpTarget, Weight, StackWeight;
      var target := Fetch(code, p).target;
      LeadsOn(code, t, p);
      JumpOps(code, t, p, beyond);
      var left := target <= p + 3 && HeadLike(if target < |code| then code[target] else beyond);
      var next := if left then JumpTarget(code, target) else target;
      Lighter(t, p, next);
      PowerPositive(t, next);
      JumpAll(code, t, fastmap[..], canBeNull, p, stack, next);
      p := next;
      // if what is on the stack is where we are now, pop it
      if left && stack != [] && stack[|stack| - 1] == p { DropTop(t); }
    }

    method DropTop(ghost t: Re)
      requires Valid(t) && stack != [] && stack[|stack| - 1] == p < Len(t)
      modifies this`stack
      ensures Valid(t) && Left(t) < old(Left(t))
    {
      hide CoversAll, Boundary, StackWeight, Weight, Stacked;
      StackTop(t, stack);
      PowerPositive(t, p);
      TwiceAll(t, fastmap[..], canBeNull, p, stack);
      stack := stack[..|stack| - 1];
    }

    // on_failure_jump: the other side waits on the stack, or is the end of the pattern.
    method Fork(code: seq<byte>, ghost t: Re) returns (v: Verdict)
      requires Analysed(code, t) && Valid(t) && p < Len(t) && Fetch(code, p).OnFail?
      modifies this`p, this`stack, this`size, this`canBeNull
      ensures v == Continue ==> Valid(t) && Left(t) < old(Left(t))
      ensures v != Continue ==> v == Return(-2) && Len(t) > 6000
    {
      hide CoversAll, Boundary, Fetch, Embeds, Chain, StackWeight, Weight;
      var target := Fetch(code, p).target;
      ForkPlaces(code, t, p, target);
      PowerPositive(t, p + 3);
      ForkAll(code, t, fastmap[..], canBeNull, p, stack, target);
      ForkLighter(t, p, target, stack);
      if target < |code| {
        if |stack| == size {
          // PUSH_PATTERN_OP: the limit is re_max_failures, one item to a failure point here
          if size > Machine.RE_MAX_FAILURES { return Return(-2); }
          size := 2 * size;
        }
        stack := stack + [target];
      } else {
        canBeNull := true;
      }
      p := p + 3;
      return Continue;
    }

    // The commands that match nothing.
    method Over(code: seq<byte>, ghost t: Re)
      requires Analysed(code, t) && Valid(t) && p < Len(t)
      requires var i := Fetch(code, p); !i.Exact? && !i.AnyChar? && !i.CharSet? && !i.Goto? && !i.OnFail?
      modifies this`p
      ensures Valid(t) && Left(t) < old(Left(t))
    {
      hide CoversAll, Boundary, Fetch, Embeds, Chain, StackWeight, Weight, Stacked;
      OverPlaces(code, t, p);
      var i := Fetch(code, p);
      var next := p + if i.StartMem? || i.StopMem? then 3 else 1;
      Lighter(t, p, next);
      PowerPositive(t, next);
      OverAll(code, t, fastmap[..], canBeNull, p, stack);
      p := next;
    }

    // One command.
    method Visit(code: seq<byte>, beyond: byte, ghost t: Re) returns (v: Verdict)
      requires Analysed(code, t) && Valid(t) && p < Len(t)
      requires LastEmpty(t) ==> !HeadLike(beyond)
      modifies this, fastmap
      ensures v == Continue ==> Valid(t) && Left(t) < old(Left(t))
      ensures v != Continue ==>
        (v == Return(-2) && Len(t) > 6000) || (v == Return(0) && canBeNull && Null(t))
    {
      hide CoversAll, Boundary, Fetch, Embeds, Chain, LastEmpty;
      if canBeNull { NullAll(t, fastmap[..], p, path, stack); }
      var i := Fetch(code, p);
      if i.Exact? || i.AnyChar? || i.CharSet? {
        v := Char(code, t);
      } else if i.Goto? {
        Jump(code, beyond, t);
        v := Continue;
      } else if i.OnFail? {
        v := Fork(code, t);
      } else {
        Over(code, t);
        v := Continue;
      }
    }

    // The loop of re_compile_fastmap.
    method Explore(code: seq<byte>, beyond: byte, ghost t: Re) returns (r: int)
      requires Analysed(code, t) && Valid(t)
      requires LastEmpty(t) ==> !HeadLike(beyond)
      modifies this, fastmap
      ensures r == 0 || (r == -2 && Len(t) > 6000)
      ensures r == 0 ==> canBeNull == Null(t)
      ensures r == 0 && !canBeNull ==> fastmap.Length == 256 && forall c: byte :: fastmap[c] <==> Starts(t, c)
    {
      hide CoversAll, Boundary, Fetch, Embeds, Chain, LastEmpty, Starts, Null, Left, Stacked;
      ghost var length := CodeLength(code, t);
      while p != |code| || stack != []
        invariant Valid(t)
        decreases Left(t)
      {
        if p == |code| { NextPath(t); }
        var v := Visit(code, beyond, t);
        if v != Continue { return v.code; }
      }
      DoneAll(t, fastmap[..], canBeNull, path);
      canBeNull := canBeNull || path;
      return 0;
    }
  }

  lemma {:induction false} CodeLength(code: seq<byte>, t: Re) returns (n: nat)
    requires Analysed(code, t)
    ensures n == |code| == Len(t)
  {
    n := |code|;
  }

  lemma {:induction false} ForkPlaces(code: seq<byte>, t: Re, p: nat, target: int)
    requires Analysed(code, t) && p < Len(t) && Boundary(t, p) && Fetch(code, p) == OnFail(target)
    ensures Later(t, p, p + 3) && Later(t, p, target)
  {
    hide Fetch, Embeds, Chain, Boundary;
    LeadsOn(code, t, p);
  }

  lemma {:induction false} OverPlaces(code: seq<byte>, t: Re, p: nat)
    requires Analysed(code, t) && p < Len(t) && Boundary(t, p)
    requires var i := Fetch(code, p); !i.Exact? && !i.AnyChar? && !i.CharSet? && !i.Goto? && !i.OnFail?
    ensures var i := Fetch(code, p);
      && (i.StartMem? || i.StopMem? || i.BegLine? || i.EndLine? || i.PushDummy?)
      && Later(t, p, p + Size(i)) && Size(i) == if i.StartMem? || i.StopMem? then 3 else 1
  {
    hide Fetch, Embeds, Chain, Boundary;
    LeadsOn(code, t, p);
  }

  lemma {:induction false} CharOperands(code: seq<byte>, t: Re, p: nat)
    requires Analysed(code, t) && p < Len(t) && Boundary(t, p)
    ensures Fetch(code, p).Exact? ==> Fetch(code, p).chars != []
    ensures Fetch(code, p).CharSet? ==> |Fetch(code, p).bits| <= 32
  {
    hide Fetch, Embeds, Chain, Boundary;
    LeadsOn(code, t, p);
  }

  lemma {:induction false} EndIsBoundary(t: Re)
    ensures Boundary(t, Len(t))
  {
  }

  // What a jump at p does is told by its distance and the opcode it lands on.
  lemma {:induction false} JumpOps(code: seq<byte>, t: Re, p: nat, beyond: byte)
    requires Analysed(code, t) && p < Len(t) && Fetch(code, p).Goto? && Leads(code, t, p, Fetch(code, p))
    requires LastEmpty(t) ==> !HeadLike(beyond)
    ensures var i := Fetch(code, p);
      && 0 <= i.target <= |code|
      && (var left := i.target <= p + 3 && HeadLike(if i.target < |code| then code[i.target] else beyond);
          var next := if left then JumpTarget(code, i.target) else i.target;
          && next == (if i.kind == MaybePop then p + 3 else i.target)
          && Later(t, p, next) && (left ==> i.kind == MaybePop))
  {
    hide Embeds, Chain, LastEmpty, Boundary;
  }

  lemma {:induction false} ForkLighter(t: Re, p: nat, target: nat, stack: seq<nat>)
    requires p + 3 <= Len(t) && p < target <= Len(t) && Boundary(t, target) && Stacked(t, stack) && 3 * |stack| <= p
    ensures Weight(t, p + 3) < Weight(t, p)
    ensures target < Len(t) ==> Stacked(t, stack + [target])
    ensures target < Len(t) ==>
      Weight(t, p + 3) + StackWeight(t, stack + [target]) < Weight(t, p) + StackWeight(t, stack)
  {
    hide Boundary;
    Lighter(t, p, p + 1);
    Lighter(t, p + 1, p + 3);
    Lighter(t, p, target);
    if target < Len(t) { StackPush(t, stack, target, 0); }
  }

  // re_compile_fastmap.  The byte just beyond the program is looked at when the last alternative of
  // a pattern is empty: the jump before it then lands there, and is left for what looks like a loop's head.
  method CompileFastmap(code: seq<byte>, beyond: byte, fastmap: array<bool>, ghost t: Re) returns (r: int,
        canBeNull: bool)
    requires Analysed(code, t) && fastmap.Length == 256
    requires LastEmpty(t) ==> !HeadLike(beyond)
    modifies fastmap
    // the stack of the analysis suffices for 6000 bytes of code
    ensures r == 0 || (r == -2 && |code| > 6000)
    ensures r == 0 ==> canBeNull == Null(t)
    ensures r == 0 && !canBeNull ==> forall c: byte :: fastmap[c] <==> Starts(t, c)
  {
    var j := 0;
    while j < 256
      invariant 0 <= j <= 256 && forall c: byte :: c < j ==> !fastmap[c]
    {
      fastmap[j] := false;
      j := j + 1;
    }
    var a := new Analysis(fastmap, t);
    r := a.Explore(code, beyond, t);
    canBeNull := a.canBeNull;
  }
}
