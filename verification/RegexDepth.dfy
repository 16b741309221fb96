// How many loops enclose each position, and what one command does to that number.
module RegexDepth {
  import opened Bytes
  import opened RegexTree
  import opened RegexCode
  import opened RegexResid

  // The loops whose body (closing jump included) contains position q of t's code.
  function Depth(t: Re, q: int): nat
    requires 0 <= q <= Len(t)
  {
    if q == Len(t) then 0 else
    match t
    case Cat(a, b) => if q < Len(a) then Depth(a, q) else Depth(b, q - Len(a))
    case Alt(a, b) =>
      if q < 3 then 0 else if q <= 3 + Len(a) then Depth(a, q - 3)
      else if q < 6 + Len(a) then 0 else Depth(b, q - 6 - Len(a))
    case Star(a) => if q < 3 then 0 else if q <= 3 + Len(a) then 1 + Depth(a, q - 3) else 0
    case Plus(a) => if q < 6 then 0 else if q <= 6 + Len(a) then 1 + Depth(a, q - 6) else 0
    case Opt(a) => if q < 3 then 0 else Depth(a, q - 3)
    case Group(reg, _, a) =>
      var g := GroupOpen(reg);
      if q < g then 0 else if q <= g + Len(a) then Depth(a, q - g) else 0
    case _ => 0
  }

  // The bytes of a command that does not jump.
  function Size(i: Instr): nat {
    match i
    case Exact(cs) => 2 + |cs|
    case CharSet(_, bits) => 2 + |bits|
    case StartMem(_, _) => 3
    case StopMem(_, _) => 3
    case Goto(_, _) => 3
    case OnFail(_) => 3
    case _ => 1
  }

  // Position x is in the code and at most n deep.
  predicate AtMost(t: Re, x: int, n: int) {
    0 <= x <= Len(t) && Depth(t, x) <= n
  }

  // The commands the compiler emits, and the depth where each leads.
  predicate DepthFacts(t: Re, o: nat, q: int, i: Instr)
    requires 0 <= q <= Len(t)
  {
    match i
    case NoOp => false
    case Bad => false
    case Goto(kind, target) =>
      (match kind
       case MaybePop => AtMost(t, target - o, Depth(t, q) - 1) && target < o + q
       case DummyFailure => AtMost(t, target - o, Depth(t, q) + 1) && target == o + q + 6
       case PastAlt => AtMost(t, target - o, Depth(t, q))
       case _ => false)
    case OnFail(target) => AtMost(t, target - o, Depth(t, q)) && AtMost(t, q + 3, Depth(t, q) + 1)
    case _ => AtMost(t, q + Size(i), Depth(t, q))
  }

  lemma {:induction false} DepthAtStart(t: Re)
    ensures Depth(t, 0) == 0
  {
    match t
    case Cat(a, b) => DepthAtStart(a); DepthAtStart(b);
    case Group(_, _, a) => DepthAtStart(a);
    case _ =>
  }

  // The part s lies k bytes into t, c loops deeper.
  predicate DeeperAt(t: Re, k: nat, s: Re, c: nat, x: int) {
    0 <= x <= Len(s) ==> 0 <= x + k <= Len(t) && Depth(t, x + k) == Depth(s, x) + c
  }

  ghost predicate Deeper(t: Re, k: nat, s: Re, c: nat) {
    forall x: int :: DeeperAt(t, k, s, c, x)
  }

  lemma {:induction false} LiftAtMost(t: Re, k: nat, s: Re, c: nat, x: int, y: int, n: int)
    requires Deeper(t, k, s, c) && AtMost(s, x, n) && y == x + k
    ensures AtMost(t, y, n + c)
  {
    assert DeeperAt(t, k, s, c, x);
  }

  lemma {:induction false} LiftDepth(t: Re, k: nat, s: Re, c: nat, q: int)
    requires Deeper(t, k, s, c) && 0 <= q <= Len(s)
    ensures 0 <= q + k <= Len(t) && Depth(t, q + k) == Depth(s, q) + c
  {
    assert DeeperAt(t, k, s, c, q);
  }

  lemma {:induction false} LiftFacts(t: Re, o: nat, k: nat, s: Re, c: nat, q: int, i: Instr)
    requires Deeper(t, k, s, c) && 0 <= q <= Len(s) && DepthFacts(s, o + k, q, i)
    ensures 0 <= q + k <= Len(t) && DepthFacts(t, o, q + k, i)
  {
    hide Depth, Len, AtMost, Deeper, DepthFacts;
    LiftDepth(t, k, s, c, q);
    match i
    case Goto(kind, target) => LiftGoto(t, o, k, s, c, q, kind, target);
    case OnFail(target) => LiftFork(t, o, k, s, c, q, target);
    case _ => LiftNext(t, o, k, s, c, q, i);
  }

  lemma {:induction false} LiftFork(t: Re, o: nat, k: nat, s: Re, c: nat, q: int, target: int)
    requires Deeper(t, k, s, c) && 0 <= q <= Len(s) && DepthFacts(s, o + k, q, OnFail(target))
    requires 0 <= q + k <= Len(t) && Depth(t, q + k) == Depth(s, q) + c
    ensures DepthFacts(t, o, q + k, OnFail(target))
  {
    hide Depth, Len, AtMost, Deeper;
    var n := Depth(s, q);
    LiftAtMost(t, k, s, c, target - (o + k), target - o, n);
    LiftAtMost(t, k, s, c, q + 3, q + k + 3, n + 1);
  }

  lemma {:induction false} LiftNext(t: Re, o: nat, k: nat, s: Re, c: nat, q: int, i: Instr)
    requires Deeper(t, k, s, c) && 0 <= q <= Len(s) && DepthFacts(s, o + k, q, i) && !i.Goto? && !i.OnFail?
    requires 0 <= q + k <= Len(t) && Depth(t, q + k) == Depth(s, q) + c
    ensures DepthFacts(t, o, q + k, i)
  {
    hide Depth, Len, AtMost, Deeper, Size;
    LiftAtMost(t, k, s, c, q + Size(i), q + k + Size(i), Depth(s, q));
  }

  lemma {:induction false} LiftGoto(t: Re, o: nat, k: nat, s: Re, c: nat, q: int, kind: JumpKind, target: int)
    requires Deeper(t, k, s, c) && 0 <= q <= Len(s) && DepthFacts(s, o + k, q, Goto(kind, target))
    requires 0 <= q + k <= Len(t) && Depth(t, q + k) == Depth(s, q) + c
    ensures DepthFacts(t, o, q + k, Goto(kind, target))
  {
    hide Depth, Len, AtMost, Deeper;
    var n: int := Depth(s, q);
    if kind.MaybePop? {
      LiftAtMost(t, k, s, c, target - (o + k), target - o, n - 1);
    } else if kind.DummyFailure? {
      LiftAtMost(t, k, s, c, target - (o + k), target - o, n + 1);
    } else if kind.PastAlt? {
      LiftAtMost(t, k, s, c, target - (o + k), target - o, n);
    }
  }

  // Where each command of the code leads, in terms of enclosing loops.
  lemma {:induction false} DepthStep(code: seq<byte>, o: nat, t: Re, q: int)
    requires Embeds(code, o, t) && Len(t) <= MAX_REACH && 0 <= q < Len(t) && Boundary(t, q)
    ensures DepthFacts(t, o, q, Fetch(code, o + q))
    decreases t
  {
    hide Fetch, Embeds, DepthFacts, Depth, Deeper, Structure, Parts, Boundary;
    Layout(code, o, t);
    EmbedsFits(code, o, t);
    if Own(t, q) {
      OwnDepth(code, o, t, q);
    } else {
      PartHolds(t, q);
      PartEmbeds(code, o, t, q);
      PartDeeper(t, q);
      var p := PartAt(t, q);
      DepthStep(code, o + p.k, p.s, q - p.k);
      assert o + p.k + (q - p.k) == o + q;
      LiftFacts(t, o, p.k, p.s, if t.Star? || t.Plus? then 1 else 0, q - p.k, Fetch(code, o + q));
    }
  }

  lemma {:induction false} EmbedsFits(code: seq<byte>, o: nat, t: Re)
    requires Embeds(code, o, t)
    ensures WellFormed(t) && o + Len(t) <= |code|
  {
  }

  lemma {:induction false} PartDeeper(t: Re, q: int)
    requires 0 <= q < Len(t) && !Own(t, q)
    ensures var p := PartAt(t, q); Deeper(t, p.k, p.s, if t.Star? || t.Plus? then 1 else 0)
  {
    hide Deeper, Depth, Len;
    match t
    case Cat(a, b) => CatDeeper(a, b);
    case Alt(a, b) => AltDeeper(a, b);
    case Star(a) => StarDeeper(a);
    case Plus(a) => PlusDeeper(a);
    case Opt(a) => OptDeeper(a);
    case Group(reg, inner, a) => GroupDeeper(reg, inner, a);
    case Eps => EpsLen();
  }

  lemma {:induction false} OwnDepth(code: seq<byte>, o: nat, t: Re, q: int)
    requires o + Len(t) <= |code| && Structure(code, o, t) && 0 <= q < Len(t) && Boundary(t, q) && Own(t, q)
    ensures DepthFacts(t, o, q, Fetch(code, o + q))
  {
    hide Fetch, DepthFacts, Depth, Structure;
    match t
    case Alt(a, b) => AltDepth(code, o, a, b, q);
    case Star(a) => StarDepth(code, o, a, q);
    case Plus(a) => PlusDepth(code, o, a, q);
    case Opt(a) => OptDepth(code, o, a);
    case Group(reg, inner, a) => GroupDepth(code, o, reg, inner, a, q);
    case _ => LeafDepth(code, o, t);
  }

  lemma {:induction false} LeafDepth(code: seq<byte>, o: nat, t: Re)
    requires o + Len(t) <= |code| && Structure(code, o, t) && Len(t) > 0
    requires !t.Eps? && !t.Cat? && !t.Alt? && !t.Star? && !t.Plus? && !t.Opt? && !t.Group?
    ensures DepthFacts(t, o, 0, Fetch(code, o))
  {
    hide Fetch;
  }

  lemma {:induction false} CatDeeper(a: Re, b: Re)
    ensures Deeper(Cat(a, b), 0, a, 0) && Deeper(Cat(a, b), Len(a), b, 0)
  {
    hide Depth, Len;
    forall x: int ensures DeeperAt(Cat(a, b), 0, a, 0, x) && DeeperAt(Cat(a, b), Len(a), b, 0, x) {
      CatLevels(a, b, x);
    }
  }

  lemma {:induction false} CatLevels(a: Re, b: Re, x: int)
    ensures Len(Cat(a, b)) == Len(a) + Len(b)
    ensures 0 <= x <= Len(a) ==> Depth(Cat(a, b), x) == Depth(a, x)
    ensures 0 <= x <= Len(b) ==> Depth(Cat(a, b), x + Len(a)) == Depth(b, x)
  {
    DepthAtStart(b);
    assert Depth(a, Len(a)) == 0 && Depth(b, Len(b)) == 0;
  }

  lemma {:induction false} AltDeeper(a: Re, b: Re)
    ensures Deeper(Alt(a, b), 3, a, 0) && Deeper(Alt(a, b), 6 + Len(a), b, 0)
  {
  }

  lemma {:induction false} StarDeeper(a: Re)
    ensures Deeper(Star(a), 3, a, 1)
  {
  }

  lemma {:induction false} PlusDeeper(a: Re)
    ensures Deeper(Plus(a), 6, a, 1)
  {
  }

  lemma {:induction false} OptDeeper(a: Re)
    ensures Deeper(Opt(a), 3, a, 0)
  {
  }

  lemma {:induction false} GroupDeeper(reg: nat, inner: nat, a: Re)
    ensures Deeper(Group(reg, inner, a), GroupOpen(reg), a, 0)
  {
  }

  lemma {:induction false} AltDepth(code: seq<byte>, o: nat, a: Re, b: Re, q: int)
    requires o + Len(Alt(a, b)) <= |code| && Structure(code, o, Alt(a, b)) && (q == 0 || q == 3 + Len(a))
    ensures DepthFacts(Alt(a, b), o, q, Fetch(code, o + q))
  {
    hide Fetch, Deeper, PastAltDistance, Depth, Len;
    AltDeeper(a, b);
    AltLevels(a, b);
    if q == 0 {
      DepthAtStart(b);
      LiftDepth(Alt(a, b), 6 + Len(a), b, 0, 0);
    } else {
      PastAltDepth(b);
      LiftDepth(Alt(a, b), 6 + Len(a), b, 0, PastAltDistance(b));
    }
  }

  lemma {:induction false} AltLevels(a: Re, b: Re)
    ensures var t := Alt(a, b);
      Len(t) == 6 + Len(a) + Len(b) && Depth(t, 0) == 0 && Depth(t, 3) == 0 && Depth(t, 3 + Len(a)) == 0
  {
    DepthAtStart(a);
    assert Depth(a, Len(a)) == 0;
  }

  lemma {:induction false} PastAltDepth(b: Re)
    ensures 0 <= PastAltDistance(b) <= Len(b) && Depth(b, PastAltDistance(b)) == 0
  {
    if b.Alt? {
      assert Depth(b.a, Len(b.a)) == 0;
    }
  }

  lemma {:induction false} StarDepth(code: seq<byte>, o: nat, a: Re, q: int)
    requires o + Len(Star(a)) <= |code| && Structure(code, o, Star(a)) && (q == 0 || q == 3 + Len(a))
    ensures DepthFacts(Star(a), o, q, Fetch(code, o + q))
  {
    hide Fetch, Depth, Len;
    StarLevels(a);
  }

  lemma {:induction false} StarLevels(a: Re)
    ensures var t, n := Star(a), Len(a);
      Len(t) == 6 + n && Depth(t, 0) == 0 && Depth(t, 3) <= 1 && Depth(t, 3 + n) == 1 && Depth(t, 6 + n) == 0
  {
    DepthAtStart(a);
    assert Depth(a, Len(a)) == 0;
  }

  lemma {:induction false} PlusDepth(code: seq<byte>, o: nat, a: Re, q: int)
    requires o + Len(Plus(a)) <= |code| && Structure(code, o, Plus(a)) && (q == 0 || q == 3 || q == 6 + Len(a))
    ensures DepthFacts(Plus(a), o, q, Fetch(code, o + q))
  {
    hide Fetch, Depth, Len;
    PlusLevels(a);
  }

  lemma {:induction false} PlusLevels(a: Re)
    ensures var t, n := Plus(a), Len(a);
      && Len(t) == 9 + n && Depth(t, 0) == 0 && Depth(t, 3) == 0 && Depth(t, 6) <= 1
      && Depth(t, 6 + n) == 1 && Depth(t, 9 + n) == 0
  {
    DepthAtStart(a);
    assert Depth(a, Len(a)) == 0;
  }

  lemma {:induction false} OptDepth(code: seq<byte>, o: nat, a: Re)
    requires o + Len(Opt(a)) <= |code| && Structure(code, o, Opt(a))
    ensures DepthFacts(Opt(a), o, 0, Fetch(code, o))
  {
    hide Fetch;
    DepthAtStart(a);
  }

  // Only the body of a group can be deeper than the group.
  lemma {:induction false} GroupLevels(reg: nat, inner: nat, a: Re)
    ensures var t, g := Group(reg, inner, a), GroupOpen(reg);
      && Len(t) == 2 * g + Len(a) + GroupDummy(a)
      && (forall x: int :: 0 <= x <= g || g + Len(a) <= x <= Len(t) ==> Depth(t, x) == 0)
  {
    DepthAtStart(a);
    assert Depth(a, Len(a)) == 0;
  }

  lemma {:induction false} GroupDepth(code: seq<byte>, o: nat, reg: nat, inner: nat, a: Re, q: int)
    requires var t, g := Group(reg, inner, a), GroupOpen(reg);
      && o + Len(t) <= |code| && Structure(code, o, t) && 0 <= q < Len(t) && Boundary(t, q)
      && (q < g || q >= g + Len(a))
    ensures DepthFacts(Group(reg, inner, a), o, q, Fetch(code, o + q))
  {
    hide Fetch, Depth, Len;
    var t, g := Group(reg, inner, a), GroupOpen(reg);
    GroupLevels(reg, inner, a);
    if q < g {
      GroupFront(a, g, q);
    } else {
      GroupBack(a, g, q);
      if q == g + Len(a) && a.Alt? {
        assert Fetch(code, o + q) == PushDummy;
      } else {
        assert Fetch(code, o + q) == StopMem(reg, inner % 256);
      }
    }
  }
}
