// Which characters can begin a match, read off the tree and off every position of its code.
module RegexFirst {
  import opened Bytes
  import opened RegexTree
  import opened RegexCode
  import opened RegexResid
  import opened RegexDepth

  // May t match nothing?  Anchors are taken to hold.
  predicate Null(t: Re) {
    match t
    case Lit(_) => false
    case Any => false
    case Set(_, _) => false
    case Cat(a, b) => Null(a) && Null(b)
    case Alt(a, b) => Null(a) || Null(b)
    case Plus(a) => Null(a)
    case Group(_, _, a) => Null(a)
    case _ => true
  }

  // May a nonempty match of t begin with c?  `.' is taken to match anything.
  predicate Starts(t: Re, c: byte) {
    match t
    case Lit(cs) => cs != [] && cs[0] == c
    case Any => true
    case Set(neg, bits) => SetMatches(neg, bits, c)
    case Cat(a, b) => Starts(a, c) || (Null(a) && Starts(b, c))
    case Alt(a, b) => Starts(a, c) || Starts(b, c)
    case Star(a) => Starts(a, c)
    case Plus(a) => Starts(a, c)
    case Opt(a) => Starts(a, c)
    case Group(_, _, a) => Starts(a, c)
    case _ => false
  }

  // Both are safe: a match that begins otherwise does not exist.
  lemma {:induction false} FirstSound(t: Re, env: Env, i: nat, j: nat)
    requires WellFormed(t) && Spans(t, env, i, j)
    ensures i == j ==> Null(t)
    ensures i < j ==> i < |env.text| && Starts(t, env.text[i])
  {
    match t
    case Lit(cs) => assert env.text[i..i + |cs|][0] == cs[0];
    case Cat(a, b) =>
      var k := CatSplit(a, b, env, i, j);
      FirstSound(a, env, i, k);
      FirstSound(b, env, k, j);
    case Alt(a, b) =>
      if Spans(a, env, i, j) { FirstSound(a, env, i, j); } else { FirstSound(b, env, i, j); }
    case Star(a) =>
      if i != j {
        var k := StarSplit(a, env, i, j);
        FirstSound(a, env, i, k);
      }
    case Plus(a) =>
      if Spans(a, env, i, j) {
        FirstSound(a, env, i, j);
      } else {
        var k := PlusSplit(a, env, i, j);
        FirstSound(a, env, i, k);
      }
    case Opt(a) => if i != j { FirstSound(a, env, i, j); }
    case Group(_, _, a) => FirstSound(a, env, i, j);
    case _ =>
  }

  // ---- Shape of compiled trees: alternatives occur as a whole group or pattern only ----

  predicate AltFree(t: Re)
    decreases t, 0
  {
    match t
    case Cat(a, b) => AltFree(a) && AltFree(b)
    case Alt(_, _) => false
    case Star(a) => AltFree(a)
    case Plus(a) => AltFree(a)
    case Opt(a) => AltFree(a)
    case Group(_, _, a) => Chain(a)
    case _ => true
  }

  predicate Chain(t: Re)
    decreases t, 1
  {
    if t.Alt? then AltFree(t.a) && Chain(t.b) else AltFree(t)
  }

  // The last of several alternatives is empty.
  predicate LastEmpty(t: Re) {
    t.Alt? && (LastEmpty(t.b) || (!t.b.Alt? && Len(t.b) == 0))
  }

  // ---- What lies ahead of a position ----

  // Can c come first, and can nothing come, from here to the end of t?
  datatype Ahead = Ahead(starts: bool, empty: bool)

  function Whole(t: Re, c: byte): Ahead {
    Ahead(Starts(t, c), Null(t))
  }

  function Then(x: Ahead, y: Ahead): Ahead {
    Ahead(x.starts || (x.empty && y.starts), x.empty && y.empty)
  }

  function Joined(x: Ahead, y: Ahead): Ahead {
    Ahead(x.starts || y.starts, x.empty || y.empty)
  }

  const DONE := Ahead(false, true)

  // From position q of t's code.  A loop that has been entered is left at its end, not entered again.
  function AheadOf(t: Re, q: int, c: byte): Ahead {
    if q >= Len(t) then DONE
    else
      match t
      case Cat(a, b) => if q < Len(a) then Then(AheadOf(a, q, c), Whole(b, c)) else AheadOf(b, q - Len(a), c)
      case Alt(a, b) =>
        if q < 3 then Whole(t, c)
        else if q <= 3 + Len(a) then AheadOf(a, q - 3, c)
        else AheadOf(b, q - 6 - Len(a), c)
      case Star(a) => if q < 3 then Whole(t, c) else AheadOf(a, q - 3, c)
      case Plus(a) => if q < 3 then Whole(t, c) else if q < 6 then Whole(Star(a), c) else AheadOf(a, q - 6, c)
      case Opt(a) => if q < 3 then Whole(t, c) else AheadOf(a, q - 3, c)
      case Group(reg, _, a) => if q < GroupOpen(reg) then Whole(a, c) else AheadOf(a, q - GroupOpen(reg), c)
      case _ => Whole(t, c)
  }

  lemma {:induction false} AheadAtStart(t: Re, c: byte)
    ensures AheadOf(t, 0, c) == Whole(t, c)
  {
    match t
    case Cat(a, b) =>
      AheadAtStart(a, c);
      AheadAtStart(b, c);
      if Len(a) == 0 { EmptyCode(a, c); }
      if Len(t) == 0 { EmptyCode(b, c); }
    case Group(_, _, a) =>
      AheadAtStart(a, c);
      if Len(a) == 0 { EmptyCode(a, c); }
    case _ =>
  }

  // Code without bytes matches nothing else than nothing.
  lemma {:induction false} EmptyCode(t: Re, c: byte)
    requires Len(t) == 0
    ensures Whole(t, c) == DONE
  {
    match t
    case Cat(a, b) =>
      EmptyCode(a, c);
      EmptyCode(b, c);
    case Group(_, _, a) => EmptyCode(a, c);
    case _ =>
  }

  // ---- One command ----

  // A jump that does not move forward, other than a loop's, never lands on an on_failure_jump.
  ghost predicate ShortJump(code: seq<byte>, o: nat, t: Re, p: nat, target: int) {
    target == p + 3 ==>
      (0 <= target < |code| && Fetch(code, target) == PushDummy) || (LastEmpty(t) && target == o + Len(t))
  }

  ghost predicate FirstFacts(code: seq<byte>, o: nat, t: Re, q: int, i: Instr, c: byte)
    requires 0 <= q
  {
    var here := AheadOf(t, q, c);
    match i
    case NoOp => false
    case Bad => false
    case Exact(cs) => cs != [] && here == Ahead(cs[0] == c, false)
    case AnyChar => here == Ahead(true, false)
    case CharSet(neg, bits) => |bits| <= 32 && here == Ahead(SetMatches(neg, bits, c), false)
    case Goto(kind, target) =>
      (match kind
       case MaybePop =>
         here == AheadOf(t, q + 3, c) && 0 <= target < o + q && target < |code|
           && Fetch(code, target) == OnFail(o + q + 3)
       case DummyFailure => here == AheadOf(t, target - o, c) && o + q + 3 < target <= o + Len(t)
       case PastAlt => here == AheadOf(t, target - o, c) && o + q + 3 <= target <= o + Len(t)
         && ShortJump(code, o, t, o + q, target)
       case _ => false)
    case OnFail(target) =>
      here == Joined(AheadOf(t, q + 3, c), AheadOf(t, target - o, c)) && o + q + 3 <= target <= o + Len(t)
    case _ => here == AheadOf(t, q + Size(i), c)
  }

  // ---- A part within the whole ----

  // What a part sees ahead, seen from the whole; `first' is for the first part of a sequence.
  function Seen(t: Re, first: bool, c: byte, x: Ahead): Ahead {
    if first && t.Cat? then Then(x, Whole(t.b, c)) else x
  }

  predicate SeenAt(t: Re, k: nat, s: Re, first: bool, c: byte, x: int) {
    0 <= x <= Len(s) ==> AheadOf(t, x + k, c) == Seen(t, first, c, AheadOf(s, x, c))
  }

  ghost predicate SeenAll(t: Re, k: nat, s: Re, first: bool, c: byte) {
    forall x: int :: SeenAt(t, k, s, first, c, x)
  }

  lemma {:induction false} SeenHere(t: Re, k: nat, s: Re, first: bool, c: byte, x: int, y: int)
    requires SeenAll(t, k, s, first, c) && 0 <= x <= Len(s) && y == x + k
    ensures AheadOf(t, y, c) == Seen(t, first, c, AheadOf(s, x, c))
  {
    hide AheadOf, Seen;
    assert SeenAt(t, k, s, first, c, x);
  }

  predicate InFirst(t: Re, q: int) {
    t.Cat? && q < Len(t.a)
  }

  lemma {:induction false} PartSeen(t: Re, q: int, c: byte)
    requires 0 <= q < Len(t) && !Own(t, q)
    ensures var p := PartAt(t, q); SeenAll(t, p.k, p.s, InFirst(t, q), c)
  {
    hide SeenAll, AheadOf, Len;
    match t
    case Cat(a, b) => CatSeen(a, b, c);
    case Alt(a, b) => AltSeen(a, b, c);
    case Star(a) => LoopSeen(a, c);
    case Plus(a) => LoopSeen(a, c);
    case Opt(a) => LoopSeen(a, c);
    case Group(reg, inner, a) => GroupSeen(reg, inner, a, c);
    case Eps => EpsLen();
  }

  lemma {:induction false} CatSeen(a: Re, b: Re, c: byte)
    ensures SeenAll(Cat(a, b), 0, a, true, c) && SeenAll(Cat(a, b), Len(a), b, false, c)
  {
    AheadAtStart(b, c);
    forall x: int ensures SeenAt(Cat(a, b), 0, a, true, c, x) {
      if x == Len(a) && Len(b) == 0 { EmptyCode(b, c); }
    }
    forall x: int ensures SeenAt(Cat(a, b), Len(a), b, false, c, x) { }
  }

  lemma {:induction false} AltSeen(a: Re, b: Re, c: byte)
    ensures SeenAll(Alt(a, b), 3, a, false, c) && SeenAll(Alt(a, b), 6 + Len(a), b, false, c)
  {
    var k := 6 + Len(a);
    forall x: int ensures SeenAt(Alt(a, b), 3, a, false, c, x) { }
    forall x: int ensures SeenAt(Alt(a, b), k, b, false, c, x) { }
  }

  lemma {:induction false} LoopSeen(a: Re, c: byte)
    ensures SeenAll(Star(a), 3, a, false, c) && SeenAll(Plus(a), 6, a, false, c) && SeenAll(Opt(a), 3, a, false, c)
  {
    forall x: int ensures SeenAt(Star(a), 3, a, false, c, x) { }
    forall x: int ensures SeenAt(Plus(a), 6, a, false, c, x) { }
    forall x: int ensures SeenAt(Opt(a), 3, a, false, c, x) { }
  }

  lemma {:induction false} GroupSeen(reg: nat, inner: nat, a: Re, c: byte)
    ensures SeenAll(Group(reg, inner, a), GroupOpen(reg), a, false, c)
  {
    forall x: int ensures SeenAt(Group(reg, inner, a), GroupOpen(reg), a, false, c, x) { }
  }

  // Where a chain of alternatives inside t ends.
  ghost predicate ChainEnd(code: seq<byte>, o: nat, t: Re, k: nat, s: Re) {
    LastEmpty(s) ==>
      (LastEmpty(t) && k + Len(s) == Len(t)) || (o + k + Len(s) < |code| && Fetch(code, o + k + Len(s)) == PushDummy)
  }

  lemma {:induction false} LiftFirst(code: seq<byte>, o: nat, t: Re, k: nat, s: Re, first: bool, q: int, i: Instr,
        c: byte)
    requires SeenAll(t, k, s, first, c) && 0 <= q < Len(s) && k + Len(s) <= Len(t) && ChainEnd(code, o, t, k, s)
    requires q + Size(i) <= Len(s) && FirstFacts(code, o + k, s, q, i, c)
    ensures FirstFacts(code, o, t, q + k, i, c)
  {
    hide AheadOf, Len, Fetch, LastEmpty, SeenAll, Starts, Null, Seen, FirstFacts;
    match i
    case Goto(kind, target) => LiftFirstGoto(code, o, t, k, s, first, q, kind, target, c);
    case OnFail(target) => LiftFirstFork(code, o, t, k, s, first, q, target, c);
    case _ => LiftFirstPlain(code, o, t, k, s, first, q, i, c);
  }

  // How the view from the whole treats the possible outcomes.
  lemma {:induction false} SeenFacts(t: Re, first: bool, c: byte, x: Ahead, y: Ahead)
    ensures Seen(t, first, c, Joined(x, y)) == Joined(Seen(t, first, c, x), Seen(t, first, c, y))
    ensures !x.empty ==> Seen(t, first, c, x) == x
  {
    hide Starts, Null;
  }

  lemma {:induction false} LiftFirstFork(code: seq<byte>, o: nat, t: Re, k: nat, s: Re, first: bool, q: int,
        target: int, c: byte)
    requires SeenAll(t, k, s, first, c) && 0 <= q < Len(s) && k + Len(s) <= Len(t)
    requires q + 3 <= Len(s) && FirstFacts(code, o + k, s, q, OnFail(target), c)
    ensures FirstFacts(code, o, t, q + k, OnFail(target), c)
  {
    hide AheadOf, Len, Fetch, LastEmpty, SeenAll, Starts, Null, Seen;
    SeenHere(t, k, s, first, c, q, q + k);
    SeenHere(t, k, s, first, c, q + 3, q + k + 3);
    SeenHere(t, k, s, first, c, target - (o + k), target - o);
    SeenFacts(t, first, c, AheadOf(s, q + 3, c), AheadOf(s, target - (o + k), c));
  }

  lemma {:induction false} LiftFirstPlain(code: seq<byte>, o: nat, t: Re, k: nat, s: Re, first: bool, q: int, i: Instr,
        c: byte)
    requires SeenAll(t, k, s, first, c) && 0 <= q < Len(s) && k + Len(s) <= Len(t) && !i.Goto? && !i.OnFail?
    requires q + Size(i) <= Len(s) && FirstFacts(code, o + k, s, q, i, c)
    ensures FirstFacts(code, o, t, q + k, i, c)
  {
    hide AheadOf, Len, Fetch, LastEmpty, SeenAll, Starts, Null, Seen, SetMatches;
    SeenHere(t, k, s, first, c, q, q + k);
    SeenFacts(t, first, c, AheadOf(s, q, c), DONE);
    SeenHere(t, k, s, first, c, q + Size(i), q + k + Size(i));
  }

  lemma {:induction false} LiftFirstGoto(code: seq<byte>, o: nat, t: Re, k: nat, s: Re, first: bool, q: int,
        kind: JumpKind, target: int, c: byte)
    requires SeenAll(t, k, s, first, c) && 0 <= q < Len(s) && k + Len(s) <= Len(t) && ChainEnd(code, o, t, k, s)
    requires q + 3 <= Len(s) && FirstFacts(code, o + k, s, q, Goto(kind, target), c)
    ensures FirstFacts(code, o, t, q + k, Goto(kind, target), c)
  {
    hide AheadOf, Len, Fetch, LastEmpty, SeenAll, Starts, Null, Seen, ShortJump, ChainEnd;
    SeenHere(t, k, s, first, c, q, q + k);
    if kind.MaybePop? {
      SeenHere(t, k, s, first, c, q + 3, q + k + 3);
      assert o + k + q + 3 == o + (q + k) + 3;
    } else if kind.DummyFailure? || kind.PastAlt? {
      assert o + k + Len(s) <= o + Len(t);
      SeenHere(t, k, s, first, c, target - (o + k), target - o);
      LiftShort(code, o, t, k, s, q, target);
    }
  }

  lemma {:induction false} LiftShort(code: seq<byte>, o: nat, t: Re, k: nat, s: Re, q: nat, target: int)
    requires ChainEnd(code, o, t, k, s)
    ensures ShortJump(code, o + k, s, o + k + q, target) ==> ShortJump(code, o, t, o + (q + k), target)
  {
    hide Fetch, LastEmpty, Len;
  }

  // ---- Every command of the code ----

  lemma {:induction false} FirstStep(code: seq<byte>, o: nat, t: Re, q: int, c: byte)
    requires Embeds(code, o, t) && Len(t) <= MAX_REACH && Chain(t) && 0 <= q < Len(t) && Boundary(t, q)
    ensures q + Size(Fetch(code, o + q)) <= Len(t) && FirstFacts(code, o, t, q, Fetch(code, o + q), c)
    decreases t
  {
    hide Fetch, Embeds, FirstFacts, AheadOf, SeenAll, Structure, Parts, Boundary, Chain, AltFree;
    Layout(code, o, t);
    EmbedsFits(code, o, t);
    if Own(t, q) {
      OwnFirst(code, o, t, q, c);
    } else {
      PartHolds(t, q);
      PartEmbeds(code, o, t, q);
      PartSeen(t, q, c);
      PartChain(code, o, t, q);
      var p := PartAt(t, q);
      FirstStep(code, o + p.k, p.s, q - p.k, c);
      assert o + p.k + (q - p.k) == o + q;
      LiftFirst(code, o, t, p.k, p.s, InFirst(t, q), q - p.k, Fetch(code, o + q), c);
    }
  }

  lemma {:induction false} PartChain(code: seq<byte>, o: nat, t: Re, q: int)
    requires Chain(t) && 0 <= q < Len(t) && !Own(t, q) && o + Len(t) <= |code| && Structure(code, o, t)
    ensures var p := PartAt(t, q); Chain(p.s) && ChainEnd(code, o, t, p.k, p.s)
  {
    hide Fetch;
    match t
    case Cat(a, b) => FreeIsChain(a); FreeIsChain(b);
    case Alt(a, b) => FreeIsChain(a);
    case Star(a) => FreeIsChain(a);
    case Plus(a) => FreeIsChain(a);
    case Opt(a) => FreeIsChain(a);
    case Group(reg, inner, a) =>
    case Eps =>
  }

  lemma {:induction false} FreeIsChain(a: Re)
    requires AltFree(a)
    ensures Chain(a) && !LastEmpty(a)
  {
  }

  lemma {:induction false} OwnFirst(code: seq<byte>, o: nat, t: Re, q: int, c: byte)
    requires o + Len(t) <= |code| && Structure(code, o, t) && 0 <= q < Len(t) && Boundary(t, q) && Own(t, q)
    requires WellFormed(t)
    ensures q + Size(Fetch(code, o + q)) <= Len(t) && FirstFacts(code, o, t, q, Fetch(code, o + q), c)
  {
    hide Fetch, FirstFacts, AheadOf, Structure;
    match t
    case Alt(a, b) => AltFirst(code, o, a, b, q, c);
    case Star(a) => StarFirst(code, o, a, q, c);
    case Plus(a) => PlusFirst(code, o, a, q, c);
    case Opt(a) => OptFirst(code, o, a, c);
    case Group(reg, inner, a) => GroupFirst(code, o, reg, inner, a, q, c);
    case _ => LeafFirst(code, o, t, c);
  }

  lemma {:induction false} LeafFirst(code: seq<byte>, o: nat, t: Re, c: byte)
    requires o + Len(t) <= |code| && Structure(code, o, t) && Len(t) > 0 && WellFormed(t)
    requires !t.Eps? && !t.Cat? && !t.Alt? && !t.Star? && !t.Plus? && !t.Opt? && !t.Group?
    ensures Size(Fetch(code, o)) <= Len(t) && FirstFacts(code, o, t, 0, Fetch(code, o), c)
  {
    hide Fetch;
  }

  lemma {:induction false} AltFirst(code: seq<byte>, o: nat, a: Re, b: Re, q: int, c: byte)
    requires o + Len(Alt(a, b)) <= |code| && Structure(code, o, Alt(a, b)) && (q == 0 || q == 3 + Len(a))
    ensures q + Size(Fetch(code, o + q)) <= Len(Alt(a, b)) && FirstFacts(code, o, Alt(a, b), q, Fetch(code, o + q), c)
  {
    hide Fetch, PastAltDistance, SeenAll, Whole, AheadOf;
    var t, k := Alt(a, b), 6 + Len(a);
    AltSeen(a, b, c);
    AltPlaces(a, b, c);
    AltWhole(a, b, c);
    if q == 0 {
      AheadAtStart(a, c);
      AheadAtStart(b, c);
      SeenHere(t, 3, a, false, c, 0, 3);
      SeenHere(t, k, b, false, c, 0, k);
      assert Fetch(code, o + q) == OnFail(o + 6 + Len(a));
    } else {
      PastAltDone(b, c);
      SeenHere(t, 3, a, false, c, Len(a), q);
      SeenHere(t, k, b, false, c, PastAltDistance(b), k + PastAltDistance(b));
      assert Fetch(code, o + q) == Goto(PastAlt, o + 6 + Len(a) + PastAltDistance(b));
    }
  }

  lemma {:induction false} AltPlaces(a: Re, b: Re, c: byte)
    ensures AheadOf(Alt(a, b), 0, c) == Whole(Alt(a, b), c) && AheadOf(a, Len(a), c) == DONE
  {
  }

  lemma {:induction false} AltWhole(a: Re, b: Re, c: byte)
    ensures Whole(Alt(a, b), c) == Joined(Whole(a, c), Whole(b, c))
  {
  }

  lemma {:induction false} PastAltDone(b: Re, c: byte)
    ensures 0 <= PastAltDistance(b) <= Len(b) && AheadOf(b, PastAltDistance(b), c) == DONE
    ensures PastAltDistance(b) == 0 ==> !b.Alt? && Len(b) == 0
  {
    if b.Alt? { assert AheadOf(b.a, Len(b.a), c) == DONE; }
  }

  lemma {:induction false} StarFirst(code: seq<byte>, o: nat, a: Re, q: int, c: byte)
    requires o + Len(Star(a)) <= |code| && Structure(code, o, Star(a)) && (q == 0 || q == 3 + Len(a))
    ensures q + Size(Fetch(code, o + q)) <= Len(Star(a)) && FirstFacts(code, o, Star(a), q, Fetch(code, o + q), c)
  {
    hide Fetch, AheadOf, SeenAll, Whole;
    var t := Star(a);
    LoopSeen(a, c);
    LoopPlaces(a, c);
    SeenHere(t, 3, a, false, c, 0, 3);
    SeenHere(t, 3, a, false, c, Len(a), 3 + Len(a));
    if q == 0 {
      assert Fetch(code, o + q) == OnFail(o + Len(t));
    } else {
      assert Fetch(code, o + q) == Goto(MaybePop, o);
    }
  }

  lemma {:induction false} LoopPlaces(a: Re, c: byte)
    ensures AheadOf(Star(a), 0, c) == Whole(Star(a), c) && AheadOf(Star(a), 6 + Len(a), c) == DONE
    ensures AheadOf(Plus(a), 0, c) == Whole(a, c) && AheadOf(Plus(a), 3, c) == Whole(Star(a), c)
    ensures AheadOf(Plus(a), 9 + Len(a), c) == DONE
    ensures AheadOf(a, 0, c) == Whole(a, c) && AheadOf(a, Len(a), c) == DONE
    ensures Whole(Star(a), c) == Joined(Whole(a, c), DONE)
  {
    AheadAtStart(a, c);
  }

  lemma {:induction false} PlusFirst(code: seq<byte>, o: nat, a: Re, q: int, c: byte)
    requires o + Len(Plus(a)) <= |code| && Structure(code, o, Plus(a)) && (q == 0 || q == 3 || q == 6 + Len(a))
    ensures q + Size(Fetch(code, o + q)) <= Len(Plus(a)) && FirstFacts(code, o, Plus(a), q, Fetch(code, o + q), c)
  {
    hide Fetch, AheadOf, SeenAll, Whole;
    var t := Plus(a);
    LoopSeen(a, c);
    LoopPlaces(a, c);
    SeenHere(t, 6, a, false, c, 0, 6);
    SeenHere(t, 6, a, false, c, Len(a), 6 + Len(a));
    if q == 0 {
      assert Fetch(code, o + q) == Goto(DummyFailure, o + 6);
    } else if q == 3 {
      assert Fetch(code, o + q) == OnFail(o + Len(t));
    } else {
      assert Fetch(code, o + q) == Goto(MaybePop, o + 3);
    }
  }

  lemma {:induction false} OptFirst(code: seq<byte>, o: nat, a: Re, c: byte)
    requires o + Len(Opt(a)) <= |code| && Structure(code, o, Opt(a))
    ensures Size(Fetch(code, o)) <= Len(Opt(a)) && FirstFacts(code, o, Opt(a), 0, Fetch(code, o), c)
  {
    hide Fetch;
    AheadAtStart(a, c);
    if Len(a) == 0 { EmptyCode(a, c); }
  }

  lemma {:induction false} GroupFirst(code: seq<byte>, o: nat, reg: nat, inner: nat, a: Re, q: int, c: byte)
    requires var t, g := Group(reg, inner, a), GroupOpen(reg);
      && o + Len(t) <= |code| && Structure(code, o, t) && 0 <= q < Len(t) && Boundary(t, q)
      && (q < g || q >= g + Len(a))
    ensures var t := Group(reg, inner, a);
      q + Size(Fetch(code, o + q)) <= Len(t) && FirstFacts(code, o, t, q, Fetch(code, o + q), c)
  {
    hide Fetch, SeenAll, AheadOf, Starts, Null;
    var t, g := Group(reg, inner, a), GroupOpen(reg);
    if q < g {
      GroupFront(a, g, q);
      GroupSeen(reg, inner, a, c);
      AheadAtStart(a, c);
      AheadAtStart(t, c);
      GroupWhole(reg, inner, a, c);
      SeenHere(t, g, a, false, c, 0, g);
      assert Fetch(code, o + q) == StartMem(reg, inner % 256);
    } else {
      GroupBack(a, g, q);
      GroupTail(reg, inner, a, q, c);
      if q == g + Len(a) && a.Alt? {
        assert Fetch(code, o + q) == PushDummy;
      } else {
        assert Fetch(code, o + q) == StopMem(reg, inner % 256);
      }
    }
  }

  lemma {:induction false} GroupWhole(reg: nat, inner: nat, a: Re, c: byte)
    ensures Whole(Group(reg, inner, a), c) == Whole(a, c)
  {
  }

  lemma {:induction false} GroupTail(reg: nat, inner: nat, a: Re, q: int, c: byte)
    requires q >= GroupOpen(reg) + Len(a)
    ensures forall x: int :: x >= q ==> AheadOf(Group(reg, inner, a), x, c) == DONE
  {
  }
}
