// Groups that no choice skips: how many of them have begun at each position of a program, and that no command
// but their own changes that.
module RegexFirm {
  import opened Bytes
  import opened RegexTree
  import opened RegexCode
  import opened RegexResid
  import opened RegexDepth
  import opened RegexGroups
  import opened RegexOpen

  // The firm groups begun before position q of t's code.
  function Seen(t: Re, q: int): nat
    requires 0 <= q <= Len(t)
  {
    match t
    case Cat(a, b) =>
      if q < Len(a) then Seen(a, q)
      else if Firm(a) == Groups(a) then Groups(a) + Seen(b, q - Len(a)) else Firm(a)
    case Group(reg, _, a) =>
      var g := GroupOpen(reg);
      if reg > MAX_REGNUM || q < g then 0 else if q <= g + Len(a) then 1 + Seen(a, q - g) else 1 + Firm(a)
    case _ => 0
  }

  predicate SeenIs(t: Re, x: int, n: nat) {
    0 <= x <= Len(t) && Seen(t, x) == n
  }

  // Where each command leads, in terms of firm groups begun.
  predicate SeenFacts(t: Re, o: nat, m: nat, q: int, i: Instr)
    requires 0 <= q <= Len(t)
  {
    var n := Seen(t, q);
    match i
    case NoOp => false
    case Bad => false
    case StartMem(reg, _) =>
      if reg <= m + Firm(t) then reg == m + n + 1 && SeenIs(t, q + 3, n + 1) else n == Firm(t) && SeenIs(t, q + 3, n)
    case Goto(_, target) => SeenIs(t, target - o, n)
    case OnFail(target) => SeenIs(t, target - o, n) && SeenIs(t, q + 3, n)
    case _ => SeenIs(t, q + Size(i), n)
  }

  // A firm group leaves code behind.
  lemma {:induction false} FirmHasCode(t: Re)
    ensures Len(t) == 0 ==> Firm(t) == 0
  {
    match t
    case Cat(a, b) => FirmHasCode(a); FirmHasCode(b);
    case Group(_, _, a) => FirmHasCode(a);
    case _ =>
  }

  lemma {:induction false} SeenAtStart(t: Re)
    ensures Seen(t, 0) == 0
  {
    FirmHasCode(t);
    match t
    case Cat(a, b) => SeenAtStart(a); SeenAtStart(b); FirmHasCode(a);
    case _ =>
  }

  lemma {:induction false} SeenAtEnd(t: Re)
    ensures Seen(t, Len(t)) == Firm(t)
  {
    match t
    case Cat(a, b) => SeenAtEnd(b);
    case Group(reg, _, a) => SeenAtEnd(a);
    case _ =>
  }

  lemma {:induction false} SeenBound(t: Re, q: int)
    requires 0 <= q <= Len(t)
    ensures Seen(t, q) <= Firm(t)
  {
    match t
    case Cat(a, b) =>
      if q < Len(a) { SeenBound(a, q); FirmBound(a); } else { SeenBound(b, q - Len(a)); }
    case Group(reg, _, a) => if GroupOpen(reg) <= q <= GroupOpen(reg) + Len(a) { SeenBound(a, q - GroupOpen(reg)); }
    case _ =>
  }

  // ---- Parts ----

  // The part s lies k bytes into t: c firm groups begin before it, and those of s are firm in t unless `flat'.
  predicate RisesAt(t: Re, k: nat, s: Re, c: nat, flat: bool, x: int) {
    0 <= x <= Len(s) ==> SeenIs(t, x + k, if flat then c else c + Seen(s, x))
  }

  ghost predicate Rises(t: Re, k: nat, s: Re, c: nat, flat: bool) {
    forall x: int :: RisesAt(t, k, s, c, flat, x)
  }

  predicate Flat(t: Re, q: int) {
    match t
    case Cat(a, _) => q >= Len(a) && Firm(a) < Groups(a)
    case Group(reg, _, _) => reg > MAX_REGNUM
    case _ => true
  }

  function Before(t: Re, q: int): nat {
    match t
    case Cat(a, _) => if q < Len(a) then 0 else Firm(a)
    case Group(reg, _, _) => if reg > MAX_REGNUM then 0 else 1
    case _ => 0
  }

  lemma {:induction false} RiseOf(t: Re, k: nat, s: Re, c: nat, flat: bool, x: int)
    requires Rises(t, k, s, c, flat) && 0 <= x <= Len(s)
    ensures SeenIs(t, x + k, if flat then c else c + Seen(s, x))
  {
    hide Seen, Len;
    assert RisesAt(t, k, s, c, flat, x);
  }

  lemma {:induction false} RiseIs(t: Re, k: nat, s: Re, c: nat, flat: bool, x: int, y: int, n: nat)
    requires Rises(t, k, s, c, flat) && SeenIs(s, x, n) && y == x + k
    ensures SeenIs(t, y, if flat then c else c + n)
  {
    hide Seen, Len;
    assert RisesAt(t, k, s, c, flat, x);
  }

  lemma {:induction false} PartSeen(t: Re, q: int)
    requires 0 <= q < Len(t) && !Own(t, q)
    ensures var p := PartAt(t, q); Rises(t, p.k, p.s, Before(t, q), Flat(t, q))
  {
    hide Seen, Len, Rises;
    match t
    case Cat(a, b) => if q < Len(a) { FrontRises(a, b); } else { BackRises(a, b); }
    case Alt(a, b) => AltFlat(a, b);
    case Star(a) => LoopFlat(a);
    case Plus(a) => LoopFlat(a);
    case Opt(a) => LoopFlat(a);
    case Group(reg, inner, a) => BodyRises(reg, inner, a);
    case Eps => EpsLen();
  }

  lemma {:induction false} FrontRises(a: Re, b: Re)
    ensures Rises(Cat(a, b), 0, a, 0, false)
  {
    hide Seen, Len;
    forall x: int ensures RisesAt(Cat(a, b), 0, a, 0, false, x) {
      if 0 <= x <= Len(a) { FrontSeen(a, b, x); }
    }
  }

  lemma {:induction false} FrontSeen(a: Re, b: Re, x: int)
    requires 0 <= x <= Len(a)
    ensures SeenIs(Cat(a, b), x, Seen(a, x))
  {
    if x == Len(a) {
      SeenAtEnd(a);
      SeenAtStart(b);
    }
  }

  lemma {:induction false} BackRises(a: Re, b: Re)
    ensures Rises(Cat(a, b), Len(a), b, Firm(a), Firm(a) < Groups(a))
  {
    FirmBound(a);
    var k, c, flat := Len(a), Firm(a), Firm(a) < Groups(a);
    forall x: int ensures RisesAt(Cat(a, b), k, b, c, flat, x) { }
  }

  lemma {:induction false} AltFlat(a: Re, b: Re)
    ensures Rises(Alt(a, b), 3, a, 0, true) && Rises(Alt(a, b), 6 + Len(a), b, 0, true)
  {
    forall x: int ensures RisesAt(Alt(a, b), 3, a, 0, true, x) { }
    var k := 6 + Len(a);
    forall x: int ensures RisesAt(Alt(a, b), k, b, 0, true, x) { }
  }

  lemma {:induction false} LoopFlat(a: Re)
    ensures Rises(Star(a), 3, a, 0, true) && Rises(Plus(a), 6, a, 0, true) && Rises(Opt(a), 3, a, 0, true)
  {
    forall x: int ensures RisesAt(Star(a), 3, a, 0, true, x) { }
    forall x: int ensures RisesAt(Plus(a), 6, a, 0, true, x) { }
    forall x: int ensures RisesAt(Opt(a), 3, a, 0, true, x) { }
  }

  lemma {:induction false} BodyRises(reg: nat, inner: nat, a: Re)
    ensures var t := Group(reg, inner, a);
      Rises(t, GroupOpen(reg), a, if reg > MAX_REGNUM then 0 else 1, reg > MAX_REGNUM)
  {
    var t, c, flat := Group(reg, inner, a), if reg > MAX_REGNUM then 0 else 1, reg > MAX_REGNUM;
    forall x: int ensures RisesAt(t, GroupOpen(reg), a, c, flat, x) { }
  }

  // ---- The step ----

  lemma {:induction false} SeenStep(code: seq<byte>, o: nat, t: Re, m: nat, q: int)
    requires Embeds(code, o, t) && Len(t) <= MAX_REACH && Numbered(t, m) && 0 <= q < Len(t) && Boundary(t, q)
    ensures SeenFacts(t, o, m, q, Fetch(code, o + q))
    decreases t
  {
    hide Fetch, Embeds, SeenFacts, Seen, Rises, Structure, Parts, Boundary, Len, Numbered;
    Layout(code, o, t);
    EmbedsFits(code, o, t);
    if Own(t, q) {
      OwnSeen(code, o, t, m, q);
    } else {
      PartHolds(t, q);
      PartEmbeds(code, o, t, q);
      PartSeen(t, q);
      PartNumbered(t, m, q);
      var p := PartAt(t, q);
      SeenStep(code, o + p.k, p.s, NumberBefore(t, m, q), q - p.k);
      NumberStep(code, o + p.k, p.s, NumberBefore(t, m, q), q - p.k, 0);
      assert o + p.k + (q - p.k) == o + q;
      LiftSeen(t, o, m, q, Fetch(code, o + q));
    }
  }

  lemma {:induction false} LiftSeen(t: Re, o: nat, m: nat, q: int, i: Instr)
    requires 0 <= q < Len(t) && !Own(t, q)
    requires var p := PartAt(t, q);
      && 0 <= q - p.k <= Len(p.s) && Rises(t, p.k, p.s, Before(t, q), Flat(t, q))
      && SeenFacts(p.s, o + p.k, NumberBefore(t, m, q), q - p.k, i)
      && (i.StartMem? ==> NumberBefore(t, m, q) < i.reg <= NumberBefore(t, m, q) + Groups(p.s))
    ensures SeenFacts(t, o, m, q, i)
  {
    hide Seen, Len, Rises, SeenFacts, Size;
    var p := PartAt(t, q);
    RiseOf(t, p.k, p.s, Before(t, q), Flat(t, q), q - p.k);
    if i.StartMem? {
      LiftStart(t, o, m, q, i);
    } else if i.Goto? || i.OnFail? {
      LiftJump(t, o, m, q, i);
    } else {
      LiftOn(t, o, m, q, i);
    }
  }

  lemma {:induction false} LiftStart(t: Re, o: nat, m: nat, q: int, i: Instr)
    requires 0 <= q < Len(t) && !Own(t, q) && i.StartMem?
    requires var p := PartAt(t, q);
      && 0 <= q - p.k <= Len(p.s) && Rises(t, p.k, p.s, Before(t, q), Flat(t, q))
      && SeenIs(t, q, if Flat(t, q) then Before(t, q) else Before(t, q) + Seen(p.s, q - p.k))
      && SeenFacts(p.s, o + p.k, NumberBefore(t, m, q), q - p.k, i)
      && NumberBefore(t, m, q) < i.reg <= NumberBefore(t, m, q) + Groups(p.s)
    ensures SeenFacts(t, o, m, q, i)
  {
    hide Seen, Len, Rises, PartAt, Before, Flat, NumberBefore, Firm, Groups;
    var p := PartAt(t, q);
    PartFirm(t, m, q);
    RiseOf(t, p.k, p.s, Before(t, q), Flat(t, q), q + 3 - p.k);
    assert q + 3 - p.k + p.k == q + 3;
  }

  // How the firm groups of a part count among those of the whole.
  lemma {:induction false} PartFirm(t: Re, m: nat, q: int)
    requires 0 <= q < Len(t) && !Own(t, q)
    ensures var p, n, c := PartAt(t, q), NumberBefore(t, m, q), Before(t, q);
      && Firm(p.s) <= Groups(p.s)
      && (if Flat(t, q) then c == Firm(t) && n >= m + Firm(t)
          else n == m + c && Firm(t) >= c + Firm(p.s) && (Firm(p.s) < Groups(p.s) ==> Firm(t) == c + Firm(p.s)))
  {
    hide Len;
    FirmBound(PartAt(t, q).s);
    match t
    case Cat(a, b) => FirmBound(a);
    case _ =>
  }

  lemma {:induction false} LiftJump(t: Re, o: nat, m: nat, q: int, i: Instr)
    requires 0 <= q < Len(t) && !Own(t, q) && (i.Goto? || i.OnFail?)
    requires var p := PartAt(t, q);
      && 0 <= q - p.k <= Len(p.s) && Rises(t, p.k, p.s, Before(t, q), Flat(t, q))
      && SeenIs(t, q, if Flat(t, q) then Before(t, q) else Before(t, q) + Seen(p.s, q - p.k))
      && SeenFacts(p.s, o + p.k, NumberBefore(t, m, q), q - p.k, i)
    ensures SeenFacts(t, o, m, q, i)
  {
    hide Seen, Len, Rises, Flat, Before, PartAt;
    var p := PartAt(t, q);
    var n := Seen(p.s, q - p.k);
    RiseIs(t, p.k, p.s, Before(t, q), Flat(t, q), i.target - (o + p.k), i.target - o, n);
    if i.OnFail? { RiseIs(t, p.k, p.s, Before(t, q), Flat(t, q), q - p.k + 3, q + 3, n); }
  }

  lemma {:induction false} LiftOn(t: Re, o: nat, m: nat, q: int, i: Instr)
    requires 0 <= q < Len(t) && !Own(t, q) && !i.StartMem? && !i.Goto? && !i.OnFail?
    requires var p := PartAt(t, q);
      && 0 <= q - p.k <= Len(p.s) && Rises(t, p.k, p.s, Before(t, q), Flat(t, q))
      && SeenIs(t, q, if Flat(t, q) then Before(t, q) else Before(t, q) + Seen(p.s, q - p.k))
      && SeenFacts(p.s, o + p.k, NumberBefore(t, m, q), q - p.k, i)
    ensures SeenFacts(t, o, m, q, i)
  {
    hide Seen, Len, Rises, Flat, Before, PartAt, Size;
    var p := PartAt(t, q);
    RiseIs(t, p.k, p.s, Before(t, q), Flat(t, q), q - p.k + Size(i), q + Size(i), Seen(p.s, q - p.k));
  }

  lemma {:induction false} OwnSeen(code: seq<byte>, o: nat, t: Re, m: nat, q: int)
    requires o + Len(t) <= |code| && Structure(code, o, t) && Numbered(t, m) && 0 <= q < Len(t) && Boundary(t, q)
    requires Own(t, q)
    ensures SeenFacts(t, o, m, q, Fetch(code, o + q))
  {
    hide Fetch, SeenFacts, Seen, Structure;
    match t
    case Alt(a, b) => AltSeen(code, o, a, b, m, q);
    case Star(a) => LoopSeen(code, o, t, a, m, q);
    case Plus(a) => LoopSeen(code, o, t, a, m, q);
    case Opt(a) => LoopSeen(code, o, t, a, m, q);
    case Group(reg, inner, a) => GroupSeen(code, o, reg, inner, a, m, q);
    case _ => LeafSeen(code, o, t, m);
  }

  // Nothing in a leaf, a choice or a repetition is firm.
  lemma {:induction false} NoneSeen(t: Re, x: int)
    requires !t.Cat? && !t.Group? && 0 <= x <= Len(t)
    ensures SeenIs(t, x, 0) && Firm(t) == 0
  {
  }

  lemma {:induction false} LeafSeen(code: seq<byte>, o: nat, t: Re, m: nat)
    requires o + Len(t) <= |code| && Structure(code, o, t) && Len(t) > 0
    requires !t.Eps? && !t.Cat? && !t.Alt? && !t.Star? && !t.Plus? && !t.Opt? && !t.Group?
    ensures SeenFacts(t, o, m, 0, Fetch(code, o))
  {
    hide Fetch;
  }

  lemma {:induction false} AltSeen(code: seq<byte>, o: nat, a: Re, b: Re, m: nat, q: int)
    requires o + Len(Alt(a, b)) <= |code| && Structure(code, o, Alt(a, b)) && (q == 0 || q == 3 + Len(a))
    ensures SeenFacts(Alt(a, b), o, m, q, Fetch(code, o + q))
  {
    hide Fetch, Seen, PastAltDistance, Len;
    var t := Alt(a, b);
    LenAlt(a, b);
    PastAltOpen(b);
    NoneSeen(t, q);
    if q == 0 {
      NoneSeen(t, 3);
      NoneSeen(t, 6 + Len(a));
    } else {
      NoneSeen(t, 6 + Len(a) + PastAltDistance(b));
    }
  }

  lemma {:induction false} LoopSeen(code: seq<byte>, o: nat, t: Re, a: Re, m: nat, q: int)
    requires t == Star(a) || t == Plus(a) || t == Opt(a)
    requires o + Len(t) <= |code| && Structure(code, o, t) && 0 <= q < Len(t) && Own(t, q)
    ensures SeenFacts(t, o, m, q, Fetch(code, o + q))
  {
    hide Fetch;
  }

  lemma {:induction false} GroupSeen(code: seq<byte>, o: nat, reg: nat, inner: nat, a: Re, m: nat, q: int)
    requires var t := Group(reg, inner, a);
      && o + Len(t) <= |code| && Structure(code, o, t) && Numbered(t, m)
      && 0 <= q < Len(t) && Boundary(t, q) && Own(t, q)
    ensures SeenFacts(Group(reg, inner, a), o, m, q, Fetch(code, o + q))
  {
    hide Fetch, Seen;
    var g := GroupOpen(reg);
    if q < g {
      GroupFront(a, g, q);
      EdgesSeen(reg, inner, a, 0);
    } else {
      GroupBack(a, g, q);
      BackSeen(code, o, reg, inner, a, m, q);
    }
  }

  lemma {:induction false} EdgesSeen(reg: nat, inner: nat, a: Re, x: int)
    ensures var t, g := Group(reg, inner, a), GroupOpen(reg);
      && Len(t) == 2 * g + Len(a) + GroupDummy(a)
      && (reg <= MAX_REGNUM ==> Firm(t) == 1 + Firm(a) && SeenIs(t, 0, 0) && SeenIs(t, 3, 1))
      && (g + Len(a) <= x <= Len(t) ==> SeenIs(t, x, Firm(t)))
  {
    SeenAtStart(a);
    FirmHasCode(a);
    SeenAtEnd(a);
  }

  lemma {:induction false} BackSeen(code: seq<byte>, o: nat, reg: nat, inner: nat, a: Re, m: nat, q: int)
    requires var t, g := Group(reg, inner, a), GroupOpen(reg);
      && o + Len(t) <= |code| && Structure(code, o, t) && g + Len(a) <= q < Len(t) && Boundary(t, q)
    ensures SeenFacts(Group(reg, inner, a), o, m, q, Fetch(code, o + q))
  {
    hide Fetch, Seen, Structure, Boundary, Firm, Len;
    BackCommand(code, o, reg, inner, a, q);
    EdgesSeen(reg, inner, a, q);
    EdgesSeen(reg, inner, a, q + Size(Fetch(code, o + q)));
  }

  // The end of a group is push_dummy_failure or stop_memory.
  lemma {:induction false} BackCommand(code: seq<byte>, o: nat, reg: nat, inner: nat, a: Re, q: int)
    requires var t, g := Group(reg, inner, a), GroupOpen(reg);
      && o + Len(t) <= |code| && Structure(code, o, t) && g + Len(a) <= q < Len(t) && Boundary(t, q)
    ensures var t, i := Group(reg, inner, a), Fetch(code, o + q); (i.PushDummy? || i.StopMem?) && q + Size(i) <= Len(t)
  {
    hide Fetch;
    GroupBack(a, GroupOpen(reg), q);
    if q == GroupOpen(reg) + Len(a) && a.Alt? {
      assert Fetch(code, o + q) == PushDummy;
    } else {
      assert Fetch(code, o + q) == StopMem(reg, inner % 256);
    }
  }
}
