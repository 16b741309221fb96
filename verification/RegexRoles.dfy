// Programs whose loops range over one-character operands: which positions are loop bodies and
// loop jumps, and how control gets there.
module RegexRoles {
  import opened Bytes
  import opened RegexTree
  import opened RegexCode
  import opened RegexResid
  import opened RegexDepth

  predicate OneChar(a: Re) {
    a.Any? || a.Set? || (a.Lit? && |a.chars| == 1)
  }

  // A positive character set whose bitmap takes all 32 bytes; see RegexDecide.
  predicate WideSet(a: Re) {
    a.Set? && !a.neg && |a.bits| == 32
  }

  // Every loop repeats one character, and no loop repeats a wide set.
  predicate Simple(t: Re) {
    match t
    case Cat(a, b) => Simple(a) && Simple(b)
    case Alt(a, b) => Simple(a) && Simple(b)
    case Star(a) => OneChar(a) && !WideSet(a)
    case Plus(a) => OneChar(a) && !WideSet(a)
    case Opt(a) => Simple(a)
    case Group(_, _, a) => Simple(a)
    case _ => true
  }

  // Body and Back are the repeated command and the jump closing the loop whose head is at `head'.
  datatype Role = Free | Body(head: int) | Back(head: int)

  // The role of position q of t's code, which lies at o in the buffer.
  function RoleOf(t: Re, o: int, q: int): Role
    requires 0 <= q <= Len(t)
  {
    if q == Len(t) then Free else
    match t
    case Cat(a, b) => if q < Len(a) then RoleOf(a, o, q) else RoleOf(b, o + Len(a), q - Len(a))
    case Alt(a, b) =>
      if q < 3 then Free else if q <= 3 + Len(a) then RoleOf(a, o + 3, q - 3)
      else if q < 6 + Len(a) then Free else RoleOf(b, o + 6 + Len(a), q - 6 - Len(a))
    case Star(a) => if q == 3 then Body(o) else if q == 3 + Len(a) then Back(o) else Free
    case Plus(a) => if q == 6 then Body(o + 3) else if q == 6 + Len(a) then Back(o + 3) else Free
    case Opt(a) => if q < 3 then Free else RoleOf(a, o + 3, q - 3)
    case Group(reg, _, a) =>
      var g := GroupOpen(reg);
      if q < g then Free else if q <= g + Len(a) then RoleOf(a, o + g, q - g) else Free
    case _ => Free
  }

  lemma {:induction false} RoleAtStart(t: Re, o: int)
    ensures RoleOf(t, o, 0) == Free
  {
    match t
    case Cat(a, b) => RoleAtStart(a, o); RoleAtStart(b, o + Len(a));
    case Group(_, _, a) => RoleAtStart(a, o);
    case _ =>
  }

  // A command that consumes exactly one character.
  predicate EatsOne(i: Instr) {
    i.AnyChar? || i.CharSet? || (i.Exact? && |i.chars| == 1)
  }

  predicate Eats(i: Instr) {
    i.AnyChar? || i.CharSet? || i.Exact?
  }

  predicate IsRole(t: Re, o: int, x: int, r: Role) {
    0 <= x - o <= Len(t) && RoleOf(t, o, x - o) == r
  }

  // What the command i at buffer position p tells about p's role and the roles of its successors.
  ghost predicate RoleFacts(code: seq<byte>, t: Re, o: int, p: int, i: Instr) {
    0 <= p - o < Len(t) &&
    var r := RoleOf(t, o, p - o);
    match i
    case Goto(kind, target) =>
      (match kind
       case MaybePop =>
         && r == Back(target) && IsRole(t, o, target, Free)
         && 0 <= target && target + 3 < p && p + 3 <= |code|
         && Fetch(code, target) == OnFail(p + 3)
         && EatsOne(Fetch(code, target + 3)) && target + 3 + Size(Fetch(code, target + 3)) == p
         && Narrow(Fetch(code, target + 3))
       case DummyFailure => r == Free && IsRole(t, o, target, Body(p + 3))
       case PastAlt => r == Free && IsRole(t, o, target, Free) && p < target
       case _ => false)
    case OnFail(target) =>
      && r == Free && IsRole(t, o, target, Free) && p + 3 <= target
      && (IsRole(t, o, p + 3, Free) || IsRole(t, o, p + 3, Body(p)))
    case NoOp => false
    case Bad => false
    case _ =>
      && !r.Back? && IsRole(t, o, p + Size(i), After(r))
      && (r.Body? ==>
            && EatsOne(i) && p == r.head + 3 && 0 <= r.head < |code|
            && Fetch(code, r.head) == OnFail(p + Size(i) + 3))
  }

  // The role that follows a command that does not jump.
  function After(r: Role): Role {
    match r
    case Body(h) => Back(h)
    case _ => Free
  }

  // A set whose bitmap length, in bits, fits one byte; for negated sets a full bitmap does no harm.
  predicate Narrow(i: Instr) {
    i.CharSet? ==> |i.bits| < 32 || (|i.bits| == 32 && i.neg)
  }

  // The part s at o + k sees the same roles as the whole.
  predicate SameRole(t: Re, o: int, k: nat, s: Re, x: int) {
    0 <= x <= Len(s) ==> 0 <= x + k <= Len(t) && RoleOf(t, o, x + k) == RoleOf(s, o + k, x)
  }

  ghost predicate SameRoles(t: Re, o: int, k: nat, s: Re) {
    forall x: int :: SameRole(t, o, k, s, x)
  }

  lemma {:induction false} LiftIsRole(t: Re, o: int, k: nat, s: Re, x: int, r: Role)
    requires SameRoles(t, o, k, s) && IsRole(s, o + k, x, r)
    ensures IsRole(t, o, x, r)
  {
    assert SameRole(t, o, k, s, x - (o + k));
    assert x - (o + k) + k == x - o;
  }

  lemma {:induction false} OwnRole(t: Re, o: int, p: int)
    requires 0 <= p - o <= Len(t)
    ensures IsRole(t, o, p, RoleOf(t, o, p - o))
  {
  }

  lemma {:induction false} RoleHolds(t: Re, o: int, p: int, r: Role)
    requires IsRole(t, o, p, r)
    ensures 0 <= p - o <= Len(t) && RoleOf(t, o, p - o) == r && (r != Free ==> p - o < Len(t))
  {
  }

  lemma {:induction false} LiftRoles(code: seq<byte>, t: Re, o: int, k: nat, s: Re, p: int, i: Instr)
    requires SameRoles(t, o, k, s) && RoleFacts(code, s, o + k, p, i) && p - o < Len(t)
    ensures RoleFacts(code, t, o, p, i)
  {
    hide RoleOf, IsRole, SameRoles, Len, Fetch;
    var r := RoleOf(s, o + k, p - (o + k));
    OwnRole(s, o + k, p);
    LiftIsRole(t, o, k, s, p, r);
    RoleHolds(t, o, p, r);
    match i
    case Goto(kind, target) => LiftGotoRole(code, t, o, k, s, p, kind, target);
    case OnFail(target) => LiftForkRole(code, t, o, k, s, p, target);
    case NoOp =>
    case Bad =>
    case _ => LiftIsRole(t, o, k, s, p + Size(i), After(r));
  }

  lemma {:induction false} LiftForkRole(code: seq<byte>, t: Re, o: int, k: nat, s: Re, p: int, target: int)
    requires SameRoles(t, o, k, s) && RoleFacts(code, s, o + k, p, OnFail(target))
    requires 0 <= p - o < Len(t) && RoleOf(t, o, p - o) == RoleOf(s, o + k, p - (o + k))
    ensures RoleFacts(code, t, o, p, OnFail(target))
  {
    hide RoleOf, IsRole, SameRoles, Len, Fetch;
    LiftIsRole(t, o, k, s, target, Free);
    if IsRole(s, o + k, p + 3, Free) {
      LiftIsRole(t, o, k, s, p + 3, Free);
    } else {
      LiftIsRole(t, o, k, s, p + 3, Body(p));
    }
  }

  lemma {:induction false} LiftGotoRole(code: seq<byte>, t: Re, o: int, k: nat, s: Re, p: int, kind: JumpKind,
        target: int)
    requires SameRoles(t, o, k, s) && RoleFacts(code, s, o + k, p, Goto(kind, target))
    requires 0 <= p - o < Len(t) && RoleOf(t, o, p - o) == RoleOf(s, o + k, p - (o + k))
    ensures RoleFacts(code, t, o, p, Goto(kind, target))
  {
    hide RoleOf, IsRole, SameRoles, Len, Fetch;
    if kind.DummyFailure? {
      LiftIsRole(t, o, k, s, target, Body(p + 3));
    } else if kind.MaybePop? || kind.PastAlt? {
      LiftIsRole(t, o, k, s, target, Free);
    }
  }

  lemma {:induction false} PartRoles(t: Re, o: int, q: int)
    requires 0 <= q < Len(t) && !Own(t, q) && !t.Star? && !t.Plus?
    ensures var p := PartAt(t, q); SameRoles(t, o, p.k, p.s)
  {
    hide SameRoles, RoleOf;
    match t
    case Cat(a, b) => CatRoles(a, b, o);
    case Alt(a, b) => AltRoles(a, b, o);
    case Opt(a) => OptRoles(a, o);
    case Group(reg, inner, a) => GroupRoles(reg, inner, a, o);
    case _ =>
  }

  lemma {:induction false} CatRoles(a: Re, b: Re, o: int)
    ensures SameRoles(Cat(a, b), o, 0, a) && SameRoles(Cat(a, b), o, Len(a), b)
  {
    RoleAtStart(b, o + Len(a));
    forall x: int ensures SameRole(Cat(a, b), o, 0, a, x) && SameRole(Cat(a, b), o, Len(a), b, x) { }
  }

  lemma {:induction false} AltRoles(a: Re, b: Re, o: int)
    ensures SameRoles(Alt(a, b), o, 3, a) && SameRoles(Alt(a, b), o, 6 + Len(a), b)
  {
    assert RoleOf(a, o + 3, Len(a)) == Free;
    forall x: int ensures SameRole(Alt(a, b), o, 3, a, x) && SameRole(Alt(a, b), o, 6 + Len(a), b, x) { }
  }

  lemma {:induction false} OptRoles(a: Re, o: int)
    ensures SameRoles(Opt(a), o, 3, a)
  {
  }

  lemma {:induction false} GroupRoles(reg: nat, inner: nat, a: Re, o: int)
    ensures SameRoles(Group(reg, inner, a), o, GroupOpen(reg), a)
  {
  }

  // Every command of a simple program.
  lemma {:induction false} RoleStep(code: seq<byte>, o: nat, t: Re, q: int)
    requires Embeds(code, o, t) && Len(t) <= MAX_REACH && Simple(t) && 0 <= q < Len(t) && Boundary(t, q)
    ensures RoleFacts(code, t, o, o + q, Fetch(code, o + q))
    decreases t
  {
    hide Fetch, Embeds, RoleFacts, RoleOf, SameRoles, Structure, Parts, Boundary;
    Layout(code, o, t);
    EmbedsFits(code, o, t);
    if t.Star? || t.Plus? {
      LoopRoles(code, o, t, q);
    } else if Own(t, q) {
      OwnRoles(code, o, t, q);
    } else {
      PartHolds(t, q);
      PartEmbeds(code, o, t, q);
      PartRoles(t, o, q);
      var p := PartAt(t, q);
      RoleStep(code, o + p.k, p.s, q - p.k);
      assert o + p.k + (q - p.k) == o + q;
      LiftRoles(code, t, o, p.k, p.s, o + q, Fetch(code, o + q));
    }
  }

  lemma {:induction false} OwnRoles(code: seq<byte>, o: nat, t: Re, q: int)
    requires o + Len(t) <= |code| && Structure(code, o, t) && 0 <= q < Len(t) && Boundary(t, q) && Own(t, q)
    requires !t.Star? && !t.Plus?
    ensures RoleFacts(code, t, o, o + q, Fetch(code, o + q))
  {
    hide Fetch, RoleFacts, RoleOf, Structure;
    match t
    case Alt(a, b) => AltOwnRoles(code, o, a, b, q);
    case Opt(a) => OptOwnRoles(code, o, a);
    case Group(reg, inner, a) => GroupOwnRoles(code, o, reg, inner, a, q);
    case _ => LeafRoles(code, o, t);
  }

  lemma {:induction false} LeafRoles(code: seq<byte>, o: nat, t: Re)
    requires o + Len(t) <= |code| && Structure(code, o, t) && Len(t) > 0
    requires !t.Eps? && !t.Cat? && !t.Alt? && !t.Star? && !t.Plus? && !t.Opt? && !t.Group?
    ensures RoleFacts(code, t, o, o, Fetch(code, o))
  {
    hide Fetch;
  }

  lemma {:induction false} AltOwnRoles(code: seq<byte>, o: nat, a: Re, b: Re, q: int)
    requires o + Len(Alt(a, b)) <= |code| && Structure(code, o, Alt(a, b)) && (q == 0 || q == 3 + Len(a))
    ensures RoleFacts(code, Alt(a, b), o, o + q, Fetch(code, o + q))
  {
    hide Fetch, SameRoles, PastAltDistance;
    var t, k := Alt(a, b), 6 + Len(a);
    AltRoles(a, b, o);
    if q == 0 {
      RoleAtStart(a, o + 3);
      RoleAtStart(b, o + k);
      LiftIsRole(t, o, 3, a, o + 3, Free);
      LiftIsRole(t, o, k, b, o + k, Free);
    } else {
      PastAltRole(b, o + k);
      LiftIsRole(t, o, k, b, o + k + PastAltDistance(b), Free);
      LiftIsRole(t, o, 3, a, o + 3 + Len(a), Free);
    }
  }

  lemma {:induction false} PastAltRole(b: Re, o: int)
    ensures IsRole(b, o, o + PastAltDistance(b), Free)
  {
    if b.Alt? {
      assert RoleOf(b.a, o + 3, Len(b.a)) == Free;
    }
  }

  lemma {:induction false} OptOwnRoles(code: seq<byte>, o: nat, a: Re)
    requires o + Len(Opt(a)) <= |code| && Structure(code, o, Opt(a))
    ensures RoleFacts(code, Opt(a), o, o, Fetch(code, o))
  {
    hide Fetch;
    RoleAtStart(a, o + 3);
  }

  lemma {:induction false} GroupOwnRoles(code: seq<byte>, o: nat, reg: nat, inner: nat, a: Re, q: int)
    requires var t, g := Group(reg, inner, a), GroupOpen(reg);
      && o + Len(t) <= |code| && Structure(code, o, t) && 0 <= q < Len(t) && Boundary(t, q)
      && (q < g || q >= g + Len(a))
    ensures RoleFacts(code, Group(reg, inner, a), o, o + q, Fetch(code, o + q))
  {
    hide Fetch;
    var t, g := Group(reg, inner, a), GroupOpen(reg);
    assert RoleOf(a, o + g, Len(a)) == Free;
    if q < g {
      GroupFront(a, g, q);
      RoleAtStart(a, o + g);
    } else {
      GroupBack(a, g, q);
      if q == g + Len(a) && a.Alt? {
        assert Fetch(code, o + q) == PushDummy;
      } else {
        assert Fetch(code, o + q) == StopMem(reg, inner % 256);
      }
    }
  }

  // The four commands of a loop over one character (five for `+').
  lemma {:induction false} LoopRoles(code: seq<byte>, o: nat, t: Re, q: int)
    requires (t.Star? || t.Plus?) && Simple(t) && 0 <= q < Len(t) <= MAX_REACH && Boundary(t, q)
    requires o + Len(t) <= |code| && Structure(code, o, t) && Parts(code, o, t)
    ensures RoleFacts(code, t, o, o + q, Fetch(code, o + q))
  {
    hide Fetch, Embeds, RoleFacts;
    var k := if t.Plus? then 3 else 0;
    EmbedsFits(code, o + k + 3, t.a);
    LeafLayout(code, o + k + 3, t.a);
    assert q == 0 || q == k || q == k + 3 || q == k + 3 + Len(t.a);
    if q == k {
      HeadRoles(code, o, t, k);
    } else if q == k + 3 {
      BodyRoles(code, o, t, k);
    } else if q == k + 3 + Len(t.a) {
      BackRoles(code, o, t, k);
    } else {
      EntryRoles(code, o, t);
    }
  }

  ghost predicate Loop(code: seq<byte>, o: nat, t: Re, k: nat) {
    && (t.Star? || t.Plus?) && Simple(t) && WellFormed(t.a) && k == (if t.Plus? then 3 else 0)
    && o + Len(t) <= |code| && Structure(code, o, t) && Structure(code, o + k + 3, t.a)
  }

  lemma {:induction false} EntryRoles(code: seq<byte>, o: nat, t: Re)
    requires Loop(code, o, t, 3)
    ensures RoleFacts(code, t, o, o, Fetch(code, o))
  {
    hide Fetch;
  }

  lemma {:induction false} HeadRoles(code: seq<byte>, o: nat, t: Re, k: nat)
    requires Loop(code, o, t, k)
    ensures RoleFacts(code, t, o, o + k, Fetch(code, o + k))
  {
    hide Fetch;
  }

  lemma {:induction false} BodyRoles(code: seq<byte>, o: nat, t: Re, k: nat)
    requires Loop(code, o, t, k)
    ensures RoleFacts(code, t, o, o + k + 3, Fetch(code, o + k + 3))
  {
    hide Fetch;
  }

  lemma {:induction false} BackRoles(code: seq<byte>, o: nat, t: Re, k: nat)
    requires Loop(code, o, t, k)
    ensures RoleFacts(code, t, o, o + k + 3 + Len(t.a), Fetch(code, o + k + 3 + Len(t.a)))
  {
    hide Fetch;
  }
}
