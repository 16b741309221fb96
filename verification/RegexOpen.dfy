// Which groups are open at each position of a program, and what the commands there can be.
module RegexOpen {
  import opened Bytes
  import opened RegexTree
  import opened RegexCode
  import opened RegexResid
  import opened RegexDepth
  import opened RegexGroups

  // The registers of the groups open at position q of t's code, outermost first.
  function Open(t: Re, q: int): seq<nat>
    requires 0 <= q <= Len(t)
  {
    if q == Len(t) then [] else
    match t
    case Cat(a, b) => if q < Len(a) then Open(a, q) else Open(b, q - Len(a))
    case Alt(a, b) =>
      if q < 3 then [] else if q <= 3 + Len(a) then Open(a, q - 3)
      else if q < 6 + Len(a) then [] else Open(b, q - 6 - Len(a))
    case Star(a) => if q < 3 || q > 3 + Len(a) then [] else Open(a, q - 3)
    case Plus(a) => if q < 6 || q > 6 + Len(a) then [] else Open(a, q - 6)
    case Opt(a) => if q < 3 then [] else Open(a, q - 3)
    case Group(reg, _, a) =>
      var g := GroupOpen(reg);
      if q < g then [] else Prefix(t) + if q <= g + Len(a) then Open(a, q - g) else []
    case _ => []
  }

  // The register a tree opens around its part.
  function Prefix(t: Re): seq<nat> {
    if t.Group? && t.reg <= MAX_REGNUM then [t.reg] else []
  }

  predicate OpenIs(t: Re, x: int, e: seq<nat>) {
    0 <= x <= Len(t) && Open(t, x) == e
  }

  // Where each command leads, in terms of open groups.
  predicate OpenFacts(t: Re, o: nat, q: int, i: Instr)
    requires 0 <= q <= Len(t)
  {
    match i
    case NoOp => false
    case Bad => false
    case StartMem(reg, _) => OpenIs(t, q + 3, Open(t, q) + [reg])
    case StopMem(reg, _) => 0 <= q + 3 <= Len(t) && Open(t, q) == Open(t, q + 3) + [reg]
    case Goto(_, target) => OpenIs(t, target - o, Open(t, q))
    case OnFail(target) => OpenIs(t, target - o, Open(t, q)) && OpenIs(t, q + 3, Open(t, q))
    case _ => OpenIs(t, q + Size(i), Open(t, q))
  }

  lemma {:induction false} OpenAtStart(t: Re)
    ensures Open(t, 0) == []
  {
    match t
    case Cat(a, b) => OpenAtStart(a); OpenAtStart(b);
    case Group(_, _, a) => OpenAtStart(a);
    case _ =>
  }

  lemma {:induction false} OpenAtEnd(t: Re)
    ensures Open(t, Len(t)) == []
  {
  }

  // ---- Parts ----

  predicate ShiftsAt(t: Re, k: nat, s: Re, pre: seq<nat>, x: int) {
    0 <= x <= Len(s) ==> OpenIs(t, x + k, pre + Open(s, x))
  }

  // The part s lies k bytes into t, inside the groups pre.
  ghost predicate Shifts(t: Re, k: nat, s: Re, pre: seq<nat>) {
    forall x: int :: ShiftsAt(t, k, s, pre, x)
  }

  lemma {:induction false} ShiftOpen(t: Re, k: nat, s: Re, pre: seq<nat>, x: int)
    requires Shifts(t, k, s, pre) && 0 <= x <= Len(s)
    ensures OpenIs(t, x + k, pre + Open(s, x))
  {
    hide Open, Len;
    assert ShiftsAt(t, k, s, pre, x);
  }

  lemma {:induction false} ShiftIs(t: Re, k: nat, s: Re, pre: seq<nat>, x: int, y: int, e: seq<nat>)
    requires Shifts(t, k, s, pre) && OpenIs(s, x, e) && y == x + k
    ensures OpenIs(t, y, pre + e)
  {
    hide Open, Len;
    assert ShiftsAt(t, k, s, pre, x);
  }

  lemma {:induction false} ShiftFacts(t: Re, o: nat, k: nat, s: Re, pre: seq<nat>, q: int, i: Instr)
    requires Shifts(t, k, s, pre) && 0 <= q <= Len(s) && OpenFacts(s, o + k, q, i)
    ensures 0 <= q + k <= Len(t) && OpenFacts(t, o, q + k, i)
  {
    hide Open, Len, Shifts, Size, OpenFacts;
    ShiftOpen(t, k, s, pre, q);
    if i.StartMem? || i.StopMem? {
      ShiftGroup(t, o, k, s, pre, q, i);
    } else if i.Goto? || i.OnFail? {
      ShiftJump(t, o, k, s, pre, q, i);
    } else {
      ShiftNext(t, o, k, s, pre, q, i);
    }
  }

  lemma {:induction false} ShiftGroup(t: Re, o: nat, k: nat, s: Re, pre: seq<nat>, q: int, i: Instr)
    requires Shifts(t, k, s, pre) && 0 <= q <= Len(s) && OpenFacts(s, o + k, q, i)
    requires OpenIs(t, q + k, pre + Open(s, q)) && (i.StartMem? || i.StopMem?)
    ensures OpenFacts(t, o, q + k, i)
  {
    hide Open, Len, Shifts;
    ShiftOpen(t, k, s, pre, q + 3);
    assert q + 3 + k == q + k + 3;
    if i.StartMem? {
      assert pre + (Open(s, q) + [i.reg]) == pre + Open(s, q) + [i.reg];
    } else {
      assert pre + (Open(s, q + 3) + [i.reg]) == pre + Open(s, q + 3) + [i.reg];
    }
  }

  lemma {:induction false} ShiftJump(t: Re, o: nat, k: nat, s: Re, pre: seq<nat>, q: int, i: Instr)
    requires Shifts(t, k, s, pre) && 0 <= q <= Len(s) && OpenFacts(s, o + k, q, i)
    requires OpenIs(t, q + k, pre + Open(s, q)) && (i.Goto? || i.OnFail?)
    ensures OpenFacts(t, o, q + k, i)
  {
    hide Open, Len, Shifts;
    ShiftIs(t, k, s, pre, i.target - (o + k), i.target - o, Open(s, q));
    if i.OnFail? { ShiftIs(t, k, s, pre, q + 3, q + k + 3, Open(s, q)); }
  }

  lemma {:induction false} ShiftNext(t: Re, o: nat, k: nat, s: Re, pre: seq<nat>, q: int, i: Instr)
    requires Shifts(t, k, s, pre) && 0 <= q <= Len(s) && OpenFacts(s, o + k, q, i)
    requires OpenIs(t, q + k, pre + Open(s, q)) && !i.StartMem? && !i.StopMem? && !i.Goto? && !i.OnFail?
    ensures OpenFacts(t, o, q + k, i)
  {
    hide Open, Len, Shifts, Size;
    ShiftIs(t, k, s, pre, q + Size(i), q + k + Size(i), Open(s, q));
  }

  lemma {:induction false} PartShifts(t: Re, q: int)
    requires 0 <= q < Len(t) && !Own(t, q)
    ensures var p := PartAt(t, q); Shifts(t, p.k, p.s, Prefix(t))
  {
    hide Shifts, Open, Len;
    match t
    case Cat(a, b) => CatShifts(a, b);
    case Alt(a, b) => AltShifts(a, b);
    case Star(a) => LoopShifts(a);
    case Plus(a) => LoopShifts(a);
    case Opt(a) => LoopShifts(a);
    case Group(reg, inner, a) => GroupShifts(reg, inner, a);
    case Eps => EpsLen();
  }

  lemma {:induction false} CatShifts(a: Re, b: Re)
    ensures Shifts(Cat(a, b), 0, a, []) && Shifts(Cat(a, b), Len(a), b, [])
  {
    hide Open, Len;
    forall x: int ensures ShiftsAt(Cat(a, b), 0, a, [], x) && ShiftsAt(Cat(a, b), Len(a), b, [], x) {
      CatOpen(a, b, x);
    }
  }

  lemma {:induction false} CatOpen(a: Re, b: Re, x: int)
    ensures Len(Cat(a, b)) == Len(a) + Len(b)
    ensures 0 <= x <= Len(a) ==> Open(Cat(a, b), x) == [] + Open(a, x)
    ensures 0 <= x <= Len(b) ==> Open(Cat(a, b), x + Len(a)) == [] + Open(b, x)
  {
    hide Open;
    if 0 <= x <= Len(a) {
      FrontOpen(a, b, x);
      assert [] + Open(a, x) == Open(a, x);
    }
    if 0 <= x <= Len(b) {
      BackOpen(a, b, x);
      assert [] + Open(b, x) == Open(b, x);
    }
  }

  lemma {:induction false} FrontOpen(a: Re, b: Re, x: int)
    requires 0 <= x <= Len(a)
    ensures Len(Cat(a, b)) == Len(a) + Len(b) && Open(Cat(a, b), x) == Open(a, x)
  {
    OpenAtStart(b);
    OpenAtEnd(a);
    OpenAtEnd(b);
  }

  lemma {:induction false} BackOpen(a: Re, b: Re, x: int)
    requires 0 <= x <= Len(b)
    ensures Len(Cat(a, b)) == Len(a) + Len(b) && Open(Cat(a, b), x + Len(a)) == Open(b, x)
  {
    OpenAtEnd(b);
    var t, q := Cat(a, b), x + Len(a);
    assert Len(t) == Len(a) + Len(b) && q >= Len(a) && q - Len(a) == x;
  }

  lemma {:induction false} AltShifts(a: Re, b: Re)
    ensures Shifts(Alt(a, b), 3, a, []) && Shifts(Alt(a, b), 6 + Len(a), b, [])
  {
    hide Open, Len;
    forall x: int ensures ShiftsAt(Alt(a, b), 3, a, [], x) { AltOpen(a, b, x); }
    var k := 6 + Len(a);
    forall x: int ensures ShiftsAt(Alt(a, b), k, b, [], x) { AltOpen(a, b, x); }
  }

  lemma {:induction false} AltOpen(a: Re, b: Re, x: int)
    ensures Len(Alt(a, b)) == 6 + Len(a) + Len(b)
    ensures 0 <= x <= Len(a) ==> Open(Alt(a, b), x + 3) == Open(a, x) == [] + Open(a, x)
    ensures 0 <= x <= Len(b) ==> Open(Alt(a, b), x + (6 + Len(a))) == Open(b, x) == [] + Open(b, x)
  {
    hide Open;
    if 0 <= x <= Len(a) {
      FirstOpen(a, b, x);
      assert [] + Open(a, x) == Open(a, x);
    }
    if 0 <= x <= Len(b) {
      SecondOpen(a, b, x);
      assert [] + Open(b, x) == Open(b, x);
    }
  }

  lemma {:induction false} FirstOpen(a: Re, b: Re, x: int)
    requires 0 <= x <= Len(a)
    ensures Len(Alt(a, b)) == 6 + Len(a) + Len(b) && Open(Alt(a, b), x + 3) == Open(a, x)
  {
    var t, q := Alt(a, b), x + 3;
    assert Len(t) == 6 + Len(a) + Len(b) && 3 <= q <= 3 + Len(a) && q - 3 == x;
  }

  lemma {:induction false} SecondOpen(a: Re, b: Re, x: int)
    requires 0 <= x <= Len(b)
    ensures Len(Alt(a, b)) == 6 + Len(a) + Len(b) && Open(Alt(a, b), x + (6 + Len(a))) == Open(b, x)
  {
    OpenAtEnd(b);
    var t, q := Alt(a, b), x + (6 + Len(a));
    assert Len(t) == 6 + Len(a) + Len(b) && q >= 6 + Len(a) && q - 6 - Len(a) == x;
  }

  lemma {:induction false} BetweenOpen(a: Re, b: Re, q: int)
    requires 0 <= q < 3 || 3 + Len(a) < q < 6 + Len(a)
    ensures Len(Alt(a, b)) == 6 + Len(a) + Len(b) && Open(Alt(a, b), q) == []
  {
  }

  lemma {:induction false} LoopShifts(a: Re)
    ensures Shifts(Star(a), 3, a, []) && Shifts(Plus(a), 6, a, []) && Shifts(Opt(a), 3, a, [])
  {
    hide Open, Len;
    forall x: int
      ensures ShiftsAt(Star(a), 3, a, [], x) && ShiftsAt(Plus(a), 6, a, [], x) && ShiftsAt(Opt(a), 3, a, [], x)
    {
      LoopOpen(a, x);
    }
  }

  lemma {:induction false} LoopOpen(a: Re, x: int)
    ensures Len(Star(a)) == 6 + Len(a) && Len(Plus(a)) == 9 + Len(a) && Len(Opt(a)) == 3 + Len(a)
    ensures 0 <= x <= Len(a) ==>
      Open(Star(a), x + 3) == Open(Plus(a), x + 6) == Open(Opt(a), x + 3) == Open(a, x) == [] + Open(a, x)
  {
    OpenAtEnd(a);
  }

  lemma {:induction false} GroupShifts(reg: nat, inner: nat, a: Re)
    ensures Shifts(Group(reg, inner, a), GroupOpen(reg), a, Prefix(Group(reg, inner, a)))
  {
    hide Open, Len;
    var t := Group(reg, inner, a);
    forall x: int ensures ShiftsAt(t, GroupOpen(reg), a, Prefix(t), x) {
      BodyOpen(reg, inner, a, x);
    }
  }

  lemma {:induction false} BodyOpen(reg: nat, inner: nat, a: Re, x: int)
    ensures var t, g := Group(reg, inner, a), GroupOpen(reg);
      && Len(t) == 2 * g + Len(a) + GroupDummy(a)
      && (0 <= x <= Len(a) ==> Open(t, x + g) == Prefix(t) + Open(a, x))
  {
    OpenAtEnd(a);
  }

  // ---- The step ----

  lemma {:induction false} OpenStep(code: seq<byte>, o: nat, t: Re, q: int)
    requires Embeds(code, o, t) && Len(t) <= MAX_REACH && 0 <= q < Len(t) && Boundary(t, q)
    ensures OpenFacts(t, o, q, Fetch(code, o + q))
    decreases t
  {
    hide Fetch, Embeds, OpenFacts, Open, Shifts, Structure, Parts, Boundary, Len;
    Layout(code, o, t);
    EmbedsFits(code, o, t);
    if Own(t, q) {
      OwnOpen(code, o, t, q);
    } else {
      PartHolds(t, q);
      PartEmbeds(code, o, t, q);
      PartShifts(t, q);
      var p := PartAt(t, q);
      OpenStep(code, o + p.k, p.s, q - p.k);
      assert o + p.k + (q - p.k) == o + q;
      ShiftFacts(t, o, p.k, p.s, Prefix(t), q - p.k, Fetch(code, o + q));
    }
  }

  lemma {:induction false} OwnOpen(code: seq<byte>, o: nat, t: Re, q: int)
    requires o + Len(t) <= |code| && Structure(code, o, t) && 0 <= q < Len(t) && Boundary(t, q) && Own(t, q)
    ensures OpenFacts(t, o, q, Fetch(code, o + q))
  {
    hide Fetch, OpenFacts, Open, Structure;
    match t
    case Alt(a, b) => AltOwnOpen(code, o, a, b, q);
    case Star(a) => LoopOwnOpen(code, o, t, a, q);
    case Plus(a) => LoopOwnOpen(code, o, t, a, q);
    case Opt(a) => LoopOwnOpen(code, o, t, a, q);
    case Group(reg, inner, a) => GroupOwnOpen(code, o, reg, inner, a, q);
    case _ => LeafOpen(code, o, t);
  }

  lemma {:induction false} LeafOpen(code: seq<byte>, o: nat, t: Re)
    requires o + Len(t) <= |code| && Structure(code, o, t) && Len(t) > 0
    requires !t.Eps? && !t.Cat? && !t.Alt? && !t.Star? && !t.Plus? && !t.Opt? && !t.Group?
    ensures OpenFacts(t, o, 0, Fetch(code, o))
  {
    hide Fetch;
  }

  lemma {:induction false} AltOwnOpen(code: seq<byte>, o: nat, a: Re, b: Re, q: int)
    requires o + Len(Alt(a, b)) <= |code| && Structure(code, o, Alt(a, b)) && (q == 0 || q == 3 + Len(a))
    ensures OpenFacts(Alt(a, b), o, q, Fetch(code, o + q))
  {
    hide Fetch, PastAltDistance, Open, Len;
    LenAlt(a, b);
    OpenAtStart(a);
    OpenAtStart(b);
    OpenAtEnd(a);
    PastAltOpen(b);
    OpenAtStart(Alt(a, b));
    AltOpen(a, b, 0);
    AltOpen(a, b, Len(a));
    AltOpen(a, b, PastAltDistance(b));
    assert PastAltDistance(b) + (6 + Len(a)) == 6 + Len(a) + PastAltDistance(b);
  }

  lemma {:induction false} PastAltOpen(b: Re)
    ensures 0 <= PastAltDistance(b) <= Len(b) && Open(b, PastAltDistance(b)) == []
  {
    if b.Alt? { OpenAtEnd(b.a); }
  }

  lemma {:induction false} LoopOwnOpen(code: seq<byte>, o: nat, t: Re, a: Re, q: int)
    requires t == Star(a) || t == Plus(a) || t == Opt(a)
    requires o + Len(t) <= |code| && Structure(code, o, t) && 0 <= q < Len(t) && Own(t, q)
    ensures OpenFacts(t, o, q, Fetch(code, o + q))
  {
    hide Fetch, Open, Len;
    LoopOpen(a, 0);
    LoopOpen(a, Len(a));
    LoopEnds(a);
    OpenAtStart(a);
    OpenAtEnd(a);
  }

  lemma {:induction false} LoopEnds(a: Re)
    ensures Open(Star(a), 0) == Open(Plus(a), 0) == Open(Plus(a), 3) == Open(Opt(a), 0) == []
    ensures Open(Star(a), Len(Star(a))) == Open(Plus(a), Len(Plus(a))) == Open(Opt(a), Len(Opt(a))) == []
  {
  }

  lemma {:induction false} GroupOwnOpen(code: seq<byte>, o: nat, reg: nat, inner: nat, a: Re, q: int)
    requires var t, g := Group(reg, inner, a), GroupOpen(reg);
      && o + Len(t) <= |code| && Structure(code, o, t) && 0 <= q < Len(t) && Boundary(t, q)
      && (q < g || q >= g + Len(a))
    ensures OpenFacts(Group(reg, inner, a), o, q, Fetch(code, o + q))
  {
    hide Fetch, Open, Len;
    var t, g := Group(reg, inner, a), GroupOpen(reg);
    BodyOpen(reg, inner, a, 0);
    OpenAtStart(a);
    OpenAtEnd(t);
    GroupEnds(reg, inner, a, q);
    if q < g {
      GroupFront(a, g, q);
    } else {
      GroupBack(a, g, q);
      if q == g + Len(a) && a.Alt? {
        assert Fetch(code, o + q) == PushDummy;
      } else {
        assert Fetch(code, o + q) == StopMem(reg, inner % 256);
      }
    }
  }

  lemma {:induction false} GroupEnds(reg: nat, inner: nat, a: Re, q: int)
    ensures var t, g := Group(reg, inner, a), GroupOpen(reg);
      && (0 <= q < g ==> Open(t, q) == [])
      && (forall x: int :: g + Len(a) <= x < Len(t) ==> Open(t, x) == Prefix(t))
  {
    OpenAtEnd(a);
  }

  // ---- Numbers ----

  // Open groups have rising numbers, above m and up to n.
  predicate Rising(e: seq<nat>, m: nat, n: nat) {
    e == [] || (m < e[0] <= n && e[0] <= MAX_REGNUM && Rising(e[1..], e[0], n))
  }

  lemma {:induction false} RisingBounds(e: seq<nat>, m: nat, n: nat)
    requires Rising(e, m, n) && e != []
    ensures forall i :: 0 <= i < |e| ==> m < e[0] <= e[i] <= e[|e| - 1] <= n && e[i] <= MAX_REGNUM
    ensures forall i :: 0 <= i < |e| - 1 ==> e[i] < e[|e| - 1]
  {
    if |e| > 1 {
      var rest := e[1..];
      RisingBounds(rest, e[0], n);
      forall i | 0 < i < |e| ensures e[i] == rest[i - 1] { }
    }
  }

  lemma {:induction false} OpenRises(t: Re, m: nat, q: int)
    requires Numbered(t, m) && 0 <= q <= Len(t)
    ensures Rising(Open(t, q), m, m + Groups(t))
    decreases t, 1
  {
    hide Rising, Len, Numbered;
    RisesNone(m, m + Groups(t));
    if q < Len(t) {
      match t
      case Cat(a, b) => RisesCat(a, b, m, q);
      case Alt(a, b) => RisesAlt(a, b, m, q);
      case Star(a) => RisesLoop(t, a, m, q, q - 3);
      case Plus(a) => RisesLoop(t, a, m, q, q - 6);
      case Opt(a) => RisesLoop(t, a, m, q, q - 3);
      case Group(reg, inner, a) => if q >= GroupOpen(reg) { GroupRises(reg, inner, a, m, q); }
      case _ =>
    }
  }

  lemma {:induction false} RisesCat(a: Re, b: Re, m: nat, q: int)
    requires Numbered(Cat(a, b), m) && 0 <= q < Len(Cat(a, b))
    ensures Rising(Open(Cat(a, b), q), m, m + Groups(Cat(a, b)))
    decreases Cat(a, b), 0
  {
    hide Rising, Open, Len;
    if q < Len(a) {
      FrontOpen(a, b, q);
      PartRises(a, m, q, Cat(a, b), m);
    } else {
      CatOpen(a, b, q - Len(a));
      BackOpen(a, b, q - Len(a));
      PartRises(b, m + Groups(a), q - Len(a), Cat(a, b), m);
    }
  }

  lemma {:induction false} RisesAlt(a: Re, b: Re, m: nat, q: int)
    requires Numbered(Alt(a, b), m) && 0 <= q < Len(Alt(a, b))
    ensures Rising(Open(Alt(a, b), q), m, m + Groups(Alt(a, b)))
    decreases Alt(a, b), 0
  {
    hide Rising, Open, Len;
    if 3 <= q <= 3 + Len(a) {
      FirstOpen(a, b, q - 3);
      PartRises(a, m, q - 3, Alt(a, b), m);
    } else if q >= 6 + Len(a) {
      LenAlt(a, b);
      SecondOpen(a, b, q - (6 + Len(a)));
      PartRises(b, m + Groups(a), q - (6 + Len(a)), Alt(a, b), m);
    } else {
      BetweenOpen(a, b, q);
      RisesNone(m, m + Groups(Alt(a, b)));
    }
  }

  lemma {:induction false} RisesLoop(t: Re, a: Re, m: nat, q: int, x: int)
    requires (t == Star(a) && x == q - 3) || (t == Plus(a) && x == q - 6) || (t == Opt(a) && x == q - 3)
    requires Numbered(t, m) && 0 <= q < Len(t)
    ensures Rising(Open(t, q), m, m + Groups(t))
    decreases t, 0
  {
    hide Rising;
    RisesNone(m, m + Groups(t));
    if 0 <= x <= Len(a) { PartRises(a, m, x, t, m); }
  }

  lemma {:induction false} PartRises(s: Re, m: nat, x: int, t: Re, m': nat)
    requires s < t && Numbered(s, m) && 0 <= x <= Len(s) && m' <= m && m + Groups(s) <= m' + Groups(t)
    ensures Rising(Open(s, x), m', m' + Groups(t))
    decreases s, 2
  {
    hide Open, Len, Numbered;
    OpenRises(s, m, x);
    RisesWider(Open(s, x), m, m + Groups(s), m', m' + Groups(t));
  }

  lemma {:induction false} RisesWider(e: seq<nat>, m: nat, n: nat, m': nat, n': nat)
    requires Rising(e, m, n) && m' <= m && n <= n'
    ensures Rising(e, m', n')
  {
    if e != [] { RisesWider(e[1..], e[0], n, e[0], n'); }
  }

  lemma {:induction false} GroupRises(reg: nat, inner: nat, a: Re, m: nat, q: int)
    requires var t := Group(reg, inner, a); Numbered(t, m) && GroupOpen(reg) <= q < Len(t)
    ensures var t := Group(reg, inner, a); Rising(Open(t, q), m, m + Groups(t))
    decreases a, 2
  {
    var t, g := Group(reg, inner, a), GroupOpen(reg);
    var e := if q <= g + Len(a) then Open(a, q - g) else [];
    if q <= g + Len(a) { OpenRises(a, m + 1, q - g); } else { RisesNone(m + 1, m + Groups(t)); }
    hide Open, Len, Numbered;
    RisesUnder(e, m, m + Groups(t));
  }

  lemma {:induction false} RisesNone(m: nat, n: nat)
    ensures Rising([], m, n)
  {
  }

  lemma {:induction false} RisesUnder(e: seq<nat>, m: nat, n: nat)
    requires Rising(e, m + 1, n) && m < n
    ensures Rising([] + e, m, n) && (m < MAX_REGNUM ==> Rising([m + 1] + e, m, n))
  {
    assert [] + e == e && ([m + 1] + e)[1..] == e;
  }

  // The groups inside group y, in a tree whose groups are numbered from m + 1.
  function InnerOf(t: Re, m: nat, y: nat): nat {
    match t
    case Cat(a, b) => if y <= m + Groups(a) then InnerOf(a, m, y) else InnerOf(b, m + Groups(a), y)
    case Alt(a, b) => if y <= m + Groups(a) then InnerOf(a, m, y) else InnerOf(b, m + Groups(a), y)
    case Star(a) => InnerOf(a, m, y)
    case Plus(a) => InnerOf(a, m, y)
    case Opt(a) => InnerOf(a, m, y)
    case Group(_, _, a) => if y == m + 1 then Groups(a) else InnerOf(a, m + 1, y)
    case _ => 0
  }

  lemma {:induction false} InnerBound(t: Re, m: nat, y: nat)
    ensures y <= m || y > m + Groups(t) ==> InnerOf(t, m, y) == 0
    ensures y <= m + Groups(t) ==> y + InnerOf(t, m, y) <= m + Groups(t)
  {
    match t
    case Cat(a, b) => InnerBound(a, m, y); InnerBound(b, m + Groups(a), y);
    case Alt(a, b) => InnerBound(a, m, y); InnerBound(b, m + Groups(a), y);
    case Star(a) => InnerBound(a, m, y);
    case Plus(a) => InnerBound(a, m, y);
    case Opt(a) => InnerBound(a, m, y);
    case Group(_, _, a) => InnerBound(a, m + 1, y);
    case _ =>
  }

  // A group command at a place where e is open, in a tree whose groups are numbered from m + 1: the
  // number is above those of the open groups; and for each y, a group that begins right inside group y tells
  // that y holds one, and group y + 1 begun with none open that y holds none.
  predicate StartFacts(reg: nat, e: seq<nat>, m: nat, count: nat, y: nat, inner: nat) {
    && m < reg <= m + count
    && (e != [] ==> e[0] > m && e[|e| - 1] < reg)
    && (e == [y] ==> inner > 0)
    && (e == [] && reg == y + 1 ==> inner == 0)
  }

  predicate NumberFacts(t: Re, m: nat, q: int, i: Instr, y: nat)
    requires 0 <= q <= Len(t)
  {
    i.StartMem? ==> StartFacts(i.reg, Open(t, q), m, Groups(t), y, InnerOf(t, m, y))
  }

  lemma {:induction false} NumberStep(code: seq<byte>, o: nat, t: Re, m: nat, q: int, y: nat)
    requires Embeds(code, o, t) && Len(t) <= MAX_REACH && Numbered(t, m) && 0 <= q < Len(t) && Boundary(t, q)
    ensures NumberFacts(t, m, q, Fetch(code, o + q), y)
    decreases t
  {
    hide Fetch, Embeds, NumberFacts, Open, Shifts, Structure, Parts, Boundary, Len, Numbered, StartFacts;
    Layout(code, o, t);
    EmbedsFits(code, o, t);
    if Own(t, q) {
      OwnNumber(code, o, t, m, q, y);
    } else {
      PartHolds(t, q);
      PartEmbeds(code, o, t, q);
      PartShifts(t, q);
      PartNumbered(t, m, q);
      var p := PartAt(t, q);
      NumberStep(code, o + p.k, p.s, NumberBefore(t, m, q), q - p.k, y);
      assert o + p.k + (q - p.k) == o + q;
      ShiftOpen(t, p.k, p.s, Prefix(t), q - p.k);
      LiftNumber(t, m, q, Fetch(code, o + q), y);
    }
  }

  // The number before the first group of the part at q.
  function NumberBefore(t: Re, m: nat, q: int): nat {
    match t
    case Cat(a, _) => if q < Len(a) then m else m + Groups(a)
    case Alt(a, _) => if q < 3 + Len(a) then m else m + Groups(a)
    case Group(_, _, _) => m + 1
    case _ => m
  }

  lemma {:induction false} PartNumbered(t: Re, m: nat, q: int)
    requires Numbered(t, m)
    ensures Numbered(PartAt(t, q).s, NumberBefore(t, m, q))
  {
    hide Len;
  }

  lemma {:induction false} LiftNumber(t: Re, m: nat, q: int, i: Instr, y: nat)
    requires 0 <= q < Len(t) && Boundary(t, q) && !Own(t, q) && Numbered(t, m)
    requires var p := PartAt(t, q);
      && p.k <= q < p.k + Len(p.s) && NumberFacts(p.s, NumberBefore(t, m, q), q - p.k, i, y)
      && Open(t, q) == Prefix(t) + Open(p.s, q - p.k)
    ensures NumberFacts(t, m, q, i, y)
  {
    hide Open, Len, Boundary;
    if i.StartMem? {
      var p := PartAt(t, q);
      InnerBound(p.s, NumberBefore(t, m, q), y);
      match t
      case Cat(a, b) => InnerBound(a, m, y);
      case Alt(a, b) => InnerBound(a, m, y);
      case Group(reg, _, a) =>
        if reg <= MAX_REGNUM { assert (Prefix(t) + Open(a, q - p.k))[0] == reg; }
      case _ =>
    }
  }

  lemma {:induction false} OwnNumber(code: seq<byte>, o: nat, t: Re, m: nat, q: int, y: nat)
    requires o + Len(t) <= |code| && Structure(code, o, t) && Numbered(t, m)
    requires 0 <= q < Len(t) && Boundary(t, q) && Own(t, q)
    ensures NumberFacts(t, m, q, Fetch(code, o + q), y)
  {
    hide Fetch, Open, Boundary, Own, Structure, Len, Numbered, NumberFacts;
    if t.Group? {
      OwnGroupNumber(code, o, t.reg, t.inner, t.a, m, q, y);
    } else {
      OwnStartsNone(code, o, t, q);
      NoNumber(t, m, q, Fetch(code, o + q), y);
    }
  }

  lemma {:induction false} NoNumber(t: Re, m: nat, q: int, i: Instr, y: nat)
    requires 0 <= q <= Len(t) && !i.StartMem?
    ensures NumberFacts(t, m, q, i, y)
  {
    hide Open;
  }

  lemma {:induction false} OwnStartsNone(code: seq<byte>, o: nat, t: Re, q: int)
    requires o + Len(t) <= |code| && Structure(code, o, t) && !t.Group?
    requires 0 <= q < Len(t) && Boundary(t, q) && Own(t, q)
    ensures !Fetch(code, o + q).StartMem?
  {
    hide Fetch;
  }

  lemma {:induction false} OwnGroupNumber(code: seq<byte>, o: nat, reg: nat, inner: nat, a: Re, m: nat, q: int, y: nat)
    requires var t := Group(reg, inner, a);
      && o + Len(t) <= |code| && Structure(code, o, t) && Numbered(t, m)
      && 0 <= q < Len(t) && Boundary(t, q) && Own(t, q)
    ensures NumberFacts(Group(reg, inner, a), m, q, Fetch(code, o + q), y)
  {
    hide Fetch, Open;
    var g := GroupOpen(reg);
    if q < g {
      GroupFront(a, g, q);
      GroupEnds(reg, inner, a, q);
      InnerBound(a, m + 1, y);
    } else {
      GroupBack(a, g, q);
    }
  }

  // ---- Registers named in the program ----

  // Group numbers stay within n, those inside a group included.
  predicate RegsWithin(t: Re, n: nat) {
    match t
    case Cat(a, b) => RegsWithin(a, n) && RegsWithin(b, n)
    case Alt(a, b) => RegsWithin(a, n) && RegsWithin(b, n)
    case Star(a) => RegsWithin(a, n)
    case Plus(a) => RegsWithin(a, n)
    case Opt(a) => RegsWithin(a, n)
    case Group(reg, inner, a) => 1 <= reg && reg + inner <= n && RegsWithin(a, n)
    case _ => true
  }

  // Groups numbered as the compiler numbers them stay within their count.
  lemma {:induction false} NumberedWithin(t: Re, m: nat, n: nat)
    requires Numbered(t, m) && m + Groups(t) <= n
    ensures RegsWithin(t, n)
  {
    match t
    case Cat(a, b) => NumberedWithin(a, m, n); NumberedWithin(b, m + Groups(a), n);
    case Alt(a, b) => NumberedWithin(a, m, n); NumberedWithin(b, m + Groups(a), n);
    case Star(a) => NumberedWithin(a, m, n);
    case Plus(a) => NumberedWithin(a, m, n);
    case Opt(a) => NumberedWithin(a, m, n);
    case Group(_, _, a) => NumberedWithin(a, m + 1, n);
    case _ =>
  }

  predicate RegFacts(i: Instr, n: nat) {
    && (i.StartMem? ==> 1 <= i.reg && i.reg + i.inner <= n)
    && (i.StopMem? ==> 1 <= i.reg <= n)
  }

  lemma {:induction false} RegStep(code: seq<byte>, o: nat, t: Re, q: int, n: nat)
    requires Embeds(code, o, t) && Len(t) <= MAX_REACH && RegsWithin(t, n)
    requires 0 <= q < Len(t) && Boundary(t, q) && o + q < |code|
    ensures RegFacts(Fetch(code, o + q), n)
    decreases t
  {
    hide Embeds, Fetch, Boundary, Len, Structure, RegsWithin, RegFacts;
    Layout(code, o, t);
    EmbedsFits(code, o, t);
    if Own(t, q) {
      OwnRegs(code, o, t, q, n);
    } else {
      PartHolds(t, q);
      PartEmbeds(code, o, t, q);
      PartRegs(t, q, n);
      var p := PartAt(t, q);
      assert o + p.k + (q - p.k) == o + q;
      RegStep(code, o + p.k, p.s, q - p.k, n);
    }
  }

  lemma {:induction false} PartRegs(t: Re, q: int, n: nat)
    requires 0 <= q < Len(t) && !Own(t, q) && RegsWithin(t, n)
    ensures RegsWithin(PartAt(t, q).s, n)
  {
    hide Len;
  }

  lemma {:induction false} OwnRegs(code: seq<byte>, o: nat, t: Re, q: int, n: nat)
    requires o + Len(t) <= |code| && Structure(code, o, t) && RegsWithin(t, n)
    requires 0 <= q < Len(t) && Boundary(t, q) && Own(t, q)
    ensures RegFacts(Fetch(code, o + q), n)
  {
    hide Fetch;
    if t.Group? {
      hide Boundary, Own, Structure, RegsWithin, Len;
      GroupRegs(code, o, t.reg, t.inner, t.a, q, n);
    }
  }

  lemma {:induction false} GroupRegs(code: seq<byte>, o: nat, reg: nat, inner: nat, a: Re, q: int, n: nat)
    requires var t := Group(reg, inner, a);
      o + Len(t) <= |code| && Structure(code, o, t) && RegsWithin(t, n) && 0 <= q < Len(t) && Boundary(t, q)
        && Own(t, q)
    ensures RegFacts(Fetch(code, o + q), n)
  {
    hide Fetch;
    var g := GroupOpen(reg);
    if q < g { GroupFront(a, g, q); } else { GroupBack(a, g, q); }
  }

  // ---- Programs whose registers stay in step ----

  // The groups before the first one that lies in an operand of a choice: an alternative, or what a repetition
  // repeats.
  function Firm(t: Re): nat {
    match t
    case Cat(a, b) => if Firm(a) == Groups(a) then Groups(a) + Firm(b) else Firm(a)
    case Group(reg, _, a) => if reg <= MAX_REGNUM then 1 + Firm(a) else 0
    case _ => 0
  }

  lemma {:induction false} FirmBound(t: Re)
    ensures Firm(t) <= Groups(t)
  {
    match t
    case Cat(a, b) => FirmBound(a); FirmBound(b);
    case Group(_, _, a) => FirmBound(a);
    case _ =>
  }

  // Every outermost group numbered above k holds no group and does not come first after a choice.  `led' tells
  // that a choice stands right before t.
  predicate TameFrom(t: Re, led: bool, k: nat) {
    match t
    case Cat(a, b) => TameFrom(a, led, k) && TameFrom(b, led && Len(a) == 0, k)
    case Alt(a, b) => TameFrom(a, true, k) && TameFrom(b, false, k)
    case Star(a) => TameFrom(a, true, k)
    case Plus(a) => TameFrom(a, true, k)
    case Opt(a) => TameFrom(a, true, k) && Len(a) > 0
    case Group(reg, _, a) => if reg > MAX_REGNUM then TameFrom(a, led, k) else reg <= k || (!led && Groups(a) == 0)
    case _ => true
  }

  // That is so for all but the firm groups at the beginning and two more.
  predicate Tame(t: Re) {
    TameFrom(t, false, Firm(t) + 2)
  }

  // The first command of a led tree opens no group above k.
  lemma {:induction false} LedStart(code: seq<byte>, o: nat, t: Re, m: nat, k: nat)
    requires Embeds(code, o, t) && Len(t) <= MAX_REACH && Len(t) > 0 && TameFrom(t, true, k) && Numbered(t, m)
    ensures o < |code| && (Fetch(code, o).StartMem? ==> Fetch(code, o).reg <= k)
    decreases t
  {
    hide Fetch, Embeds, Structure;
    Layout(code, o, t);
    EmbedsFits(code, o, t);
    if t.Cat? {
      CatEmits(t.a, t.b);
      if Len(t.a) > 0 { LedStart(code, o, t.a, m, k); } else { LedStart(code, o, t.b, m + Groups(t.a), k); }
    } else {
      hide TameFrom, Len, Numbered;
      StartIsBoundary(t);
      NumberStep(code, o, t, m, 0, 0);
      OwnLed(code, o, t, m, k);
    }
  }

  lemma {:induction false} OwnLed(code: seq<byte>, o: nat, t: Re, m: nat, k: nat)
    requires o + Len(t) <= |code| && Structure(code, o, t) && Len(t) > 0 && !t.Cat? && TameFrom(t, true, k)
    requires Numbered(t, m)
    requires NumberFacts(t, m, 0, Fetch(code, o), 0)
    ensures Fetch(code, o).StartMem? ==> Fetch(code, o).reg <= k
  {
    hide Fetch, Open;
  }

  // A group opened after a choice, or within groups already open.
  predicate Mild(reg: nat, e: seq<nat>, k: nat) {
    if e == [] then reg <= k else e[0] <= k
  }

  // Where a group begins, and where one begins right after a choice.
  ghost predicate TameFacts(code: seq<byte>, t: Re, o: nat, q: int, i: Instr, k: nat)
    requires 0 <= q <= Len(t)
  {
    var e, x := Open(t, q), o + q + 3;
    && (i.StartMem? ==> e == [] || e[0] <= k)
    && (i.OnFail? && x < |code| && Fetch(code, x).StartMem? ==> Mild(Fetch(code, x).reg, e, k))
  }

  lemma {:induction false} TameStep(code: seq<byte>, o: nat, t: Re, led: bool, m: nat, q: int, k: nat)
    requires Embeds(code, o, t) && Len(t) <= MAX_REACH && TameFrom(t, led, k) && Numbered(t, m)
    requires 0 <= q < Len(t) && Boundary(t, q)
    ensures TameFacts(code, t, o, q, Fetch(code, o + q), k)
    decreases t
  {
    hide Fetch, Embeds, TameFacts, Open, Shifts, Structure, Parts, Boundary, Len, Numbered, TameFrom;
    Layout(code, o, t);
    EmbedsFits(code, o, t);
    if Own(t, q) {
      OwnTame(code, o, t, led, m, q, k);
    } else {
      PartHolds(t, q);
      PartEmbeds(code, o, t, q);
      PartShifts(t, q);
      PartNumbered(t, m, q);
      var p := PartAt(t, q);
      assert o + p.k + (q - p.k) == o + q;
      ShiftOpen(t, p.k, p.s, Prefix(t), q - p.k);
      if t.Group? && t.reg <= MAX_REGNUM {
        GroupTame(code, o, t, led, m, q, k);
      } else {
        var led' := PartTame(t, led, q, k);
        TameStep(code, o + p.k, p.s, led', NumberBefore(t, m, q), q - p.k, k);
        LiftTame(code, o, t, q, Fetch(code, o + q), k);
      }
    }
  }

  lemma {:induction false} PartTame(t: Re, led: bool, q: int, k: nat) returns (led': bool)
    requires TameFrom(t, led, k) && 0 <= q < Len(t) && !Own(t, q) && (t.Group? ==> t.reg > MAX_REGNUM)
    ensures TameFrom(PartAt(t, q).s, led', k)
  {
    match t
    case Cat(a, b) => led' := if q < Len(a) then led else led && Len(a) == 0;
    case Alt(a, b) => led' := q < 3 + Len(a);
    case Group(_, _, a) => led' := led;
    case _ => led' := true;
  }

  lemma {:induction false} LiftTame(code: seq<byte>, o: nat, t: Re, q: int, i: Instr, k: nat)
    requires 0 <= q < Len(t)
    requires var p := PartAt(t, q);
      && 0 <= q - p.k <= Len(p.s) && TameFacts(code, p.s, o + p.k, q - p.k, i, k)
      && Open(t, q) == [] + Open(p.s, q - p.k)
    ensures TameFacts(code, t, o, q, i, k)
  {
    hide Open, Len, Fetch;
    var p := PartAt(t, q);
    assert o + p.k + (q - p.k) + 3 == o + q + 3;
    assert Open(t, q) == Open(p.s, q - p.k);
  }

  // Inside a group: either it is one of the first k, or no group begins there.
  lemma {:induction false} GroupTame(code: seq<byte>, o: nat, t: Re, led: bool, m: nat, q: int, k: nat)
    requires t.Group? && t.reg <= MAX_REGNUM && Embeds(code, o, t) && Len(t) <= MAX_REACH && TameFrom(t, led, k)
    requires Numbered(t, m)
    requires 0 <= q < Len(t) && Boundary(t, q) && !Own(t, q)
    requires Open(t, q) == [t.reg] + Open(t.a, q - GroupOpen(t.reg))
    ensures TameFacts(code, t, o, q, Fetch(code, o + q), k)
  {
    hide Fetch, Embeds, Open, Structure, Parts, Boundary, Len;
    assert Open(t, q)[0] == t.reg;
    if t.reg > k {
      NumberStep(code, o, t, m, q, 0);
      NoStartInside(code, o, t, m, q);
      if Fetch(code, o + q).OnFail? {
        AfterChoice(code, o, t, q);
        assert o + (q + 3) == o + q + 3;
        assert o + q + 3 < |code|;
        if Own(t, q + 3) { AfterBody(code, o, t, q + 3); } else { NoStartInside(code, o, t, m, q + 3); }
      }
    }
  }

  lemma {:induction false} NoStartInside(code: seq<byte>, o: nat, t: Re, m: nat, q: int)
    requires t.Group? && Groups(t.a) == 0 && Embeds(code, o, t) && Len(t) <= MAX_REACH && Numbered(t, m)
    requires 0 <= q < Len(t) && Boundary(t, q) && !Own(t, q)
    ensures o + q < |code| && !Fetch(code, o + q).StartMem?
  {
    hide Fetch, Embeds, Open, Structure, Boundary, Len, Own;
    Layout(code, o, t);
    EmbedsFits(code, o, t);
    PartHolds(t, q);
    PartEmbeds(code, o, t, q);
    var p := PartAt(t, q);
    NumberStep(code, o + p.k, p.s, m + 1, q - p.k, 0);
    assert o + p.k + (q - p.k) == o + q;
  }

  // After a choice comes a command of the same group.
  lemma {:induction false} AfterChoice(code: seq<byte>, o: nat, t: Re, q: int)
    requires t.Group? && t.reg <= MAX_REGNUM && Embeds(code, o, t) && Len(t) <= MAX_REACH
    requires 0 <= q < Len(t) && Boundary(t, q) && !Own(t, q) && o + q < |code| && Fetch(code, o + q).OnFail?
    ensures q + 3 < Len(t) && Boundary(t, q + 3) && o + Len(t) <= |code|
    ensures (Own(t, q + 3) ==> q + 3 >= GroupOpen(t.reg) + Len(t.a))
  {
    hide Fetch, Embeds, Structure, Boundary;
    EmbedsFits(code, o, t);
    Layout(code, o, t);
    PartHolds(t, q);
    PartEmbeds(code, o, t, q);
    var p, env := PartAt(t, q), Env([], false, false);
    ResidStep(code, o + p.k, p.s, q - p.k, env, 0);
    assert o + p.k + (q - p.k) == o + q;
    assert Moves(code, env, o + q, 0) == Either(o + q + 3, Fetch(code, o + q).target);
    assert Boundary(p.s, q + 3 - p.k) && 0 <= q + 3 - p.k <= Len(p.s) by {
      hide Moves;
      assert o + q + 3 - (o + p.k) == q + 3 - p.k;
    }
    BodyBoundary(t.reg, t.inner, t.a, q + 3 - p.k);
  }

  lemma {:induction false} BodyBoundary(reg: nat, inner: nat, a: Re, x: int)
    requires reg <= MAX_REGNUM && 0 <= x <= Len(a) && Boundary(a, x)
    ensures var t := Group(reg, inner, a);
      x + 3 < Len(t) && Boundary(t, x + 3) && (Own(t, x + 3) ==> x + 3 >= 3 + Len(a))
  {
  }

  // The body of a group is followed by no start_memory.
  lemma {:induction false} AfterBody(code: seq<byte>, o: nat, t: Re, q: int)
    requires t.Group? && t.reg <= MAX_REGNUM && Embeds(code, o, t) && Len(t) <= MAX_REACH
    requires GroupOpen(t.reg) + Len(t.a) <= q < Len(t) && Boundary(t, q)
    ensures o + q < |code| && !Fetch(code, o + q).StartMem?
  {
    hide Fetch, Embeds, Structure, Boundary, Parts, Len;
    EmbedsFits(code, o, t);
    Layout(code, o, t);
    BackStarts(code, o, t.reg, t.inner, t.a, q);
  }

  lemma {:induction false} BackStarts(code: seq<byte>, o: nat, reg: nat, inner: nat, a: Re, q: int)
    requires var t := Group(reg, inner, a);
      o + Len(t) <= |code| && Structure(code, o, t) && GroupOpen(reg) + Len(a) <= q < Len(t) && Boundary(t, q)
    ensures !Fetch(code, o + q).StartMem?
  {
    hide Fetch;
    GroupBack(a, GroupOpen(reg), q);
    if q == GroupOpen(reg) + Len(a) && a.Alt? {
      assert Fetch(code, o + q) == PushDummy;
    } else {
      assert Fetch(code, o + q) == StopMem(reg, inner % 256);
    }
  }

  lemma {:induction false} OwnTame(code: seq<byte>, o: nat, t: Re, led: bool, m: nat, q: int, k: nat)
    requires Embeds(code, o, t) && o + Len(t) <= |code| && Structure(code, o, t) && Parts(code, o, t)
    requires Len(t) <= MAX_REACH
    requires TameFrom(t, led, k) && Numbered(t, m) && 0 <= q < Len(t) && Boundary(t, q) && Own(t, q)
    ensures TameFacts(code, t, o, q, Fetch(code, o + q), k)
  {
    hide Fetch, Open, TameFacts, Embeds;
    match t
    case Alt(a, b) => AltTame(code, o, a, b, m, q, k);
    case Star(a) => LoopTame(code, o, t, a, m, q, k);
    case Plus(a) => LoopTame(code, o, t, a, m, q, k);
    case Opt(a) => LoopTame(code, o, t, a, m, q, k);
    case Group(reg, inner, a) => GroupOwnTame(code, o, reg, inner, a, q, k);
    case _ => LeafTame(code, o, t, k);
  }

  lemma {:induction false} LeafTame(code: seq<byte>, o: nat, t: Re, k: nat)
    requires o + Len(t) <= |code| && Structure(code, o, t) && Len(t) > 0
    requires !t.Eps? && !t.Cat? && !t.Alt? && !t.Star? && !t.Plus? && !t.Opt? && !t.Group?
    ensures TameFacts(code, t, o, 0, Fetch(code, o), k)
  {
    hide Fetch;
  }

  // An operand right after the choice that leads to it.
  lemma {:induction false} Led(code: seq<byte>, x: nat, a: Re, m: nat, k: nat)
    requires Embeds(code, x, a) && Len(a) <= MAX_REACH && TameFrom(a, true, k) && Numbered(a, m)
    requires Len(a) == 0 ==> x < |code| && !Fetch(code, x).StartMem?
    ensures x < |code| && (Fetch(code, x).StartMem? ==> Mild(Fetch(code, x).reg, [], k))
  {
    hide Fetch, Embeds, Len, TameFrom, Numbered;
    if Len(a) > 0 { LedStart(code, x, a, m, k); }
  }

  lemma {:induction false} AltTame(code: seq<byte>, o: nat, a: Re, b: Re, m: nat, q: int, k: nat)
    requires var t := Alt(a, b);
      && o + Len(t) <= |code| && Structure(code, o, t) && Embeds(code, o + 3, a) && Len(t) <= MAX_REACH
      && TameFrom(a, true, k) && Numbered(a, m) && (q == 0 || q == 3 + Len(a))
    ensures TameFacts(code, Alt(a, b), o, q, Fetch(code, o + q), k)
  {
    hide Fetch, Embeds, Open, TameFrom, Numbered;
    if q == 0 {
      Led(code, o + 3, a, m, k);
      OpenAtStart(Alt(a, b));
    }
  }

  lemma {:induction false} LoopTame(code: seq<byte>, o: nat, t: Re, a: Re, m: nat, q: int, k: nat)
    requires t == Star(a) || t == Plus(a) || (t == Opt(a) && Len(a) > 0)
    requires o + Len(t) <= |code| && Structure(code, o, t) && Parts(code, o, t) && Len(t) <= MAX_REACH
    requires TameFrom(a, true, k) && Numbered(a, m) && 0 <= q < Len(t) && Own(t, q)
    ensures TameFacts(code, t, o, q, Fetch(code, o + q), k)
  {
    hide Fetch, Embeds, Open, TameFrom, Numbered;
    LoopEnds(a);
    Led(code, if t.Plus? then o + 6 else o + 3, a, m, k);
  }

  lemma {:induction false} GroupOwnTame(code: seq<byte>, o: nat, reg: nat, inner: nat, a: Re, q: int, k: nat)
    requires var t := Group(reg, inner, a);
      && o + Len(t) <= |code| && Structure(code, o, t) && 0 <= q < Len(t) && Boundary(t, q) && Own(t, q)
    ensures TameFacts(code, Group(reg, inner, a), o, q, Fetch(code, o + q), k)
  {
    hide Fetch, Open, TameFacts;
    var g := GroupOpen(reg);
    if q < g {
      GroupFront(a, g, q);
      OpenAtStart(Group(reg, inner, a));
      OpensFirst(code, Group(reg, inner, a), o, q, Fetch(code, o + q), k);
    } else {
      GroupBack(a, g, q);
      OpensNone(code, Group(reg, inner, a), o, q, Fetch(code, o + q), k);
    }
  }

  lemma {:induction false} OpensFirst(code: seq<byte>, t: Re, o: nat, q: int, i: Instr, k: nat)
    requires 0 <= q <= Len(t) && Open(t, q) == [] && i.StartMem?
    ensures TameFacts(code, t, o, q, i, k)
  {
    hide Fetch, Open;
  }

  lemma {:induction false} OpensNone(code: seq<byte>, t: Re, o: nat, q: int, i: Instr, k: nat)
    requires 0 <= q <= Len(t) && !i.StartMem? && !i.OnFail?
    ensures TameFacts(code, t, o, q, i, k)
  {
    hide Fetch, Open;
  }
}
