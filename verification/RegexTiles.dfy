// Instructions tile the code: no instruction starts inside another.
module RegexTiles {
  import opened Bytes
  import opened RegexTree
  import opened RegexCode
  import opened RegexResid
  import opened RegexDepth

  // The command at q fits in t's code, and its operand bytes start no command.
  ghost predicate Tiled(t: Re, q: int, i: Instr) {
    0 <= q && q + Size(i) <= Len(t) && (forall x: int :: q < x < q + Size(i) ==> !Boundary(t, x))
  }

  // Strictly inside the part s, the whole has the boundaries of the part.
  ghost predicate SameInside(t: Re, k: nat, s: Re) {
    k + Len(s) <= Len(t) && forall x: int :: 0 < x < Len(s) ==> Boundary(t, x + k) == Boundary(s, x)
  }

  lemma {:induction false} LiftTile(t: Re, k: nat, s: Re, q: int, i: Instr)
    requires SameInside(t, k, s) && Tiled(s, q, i)
    ensures Tiled(t, q + k, i)
  {
    hide Boundary, Len, Size;
    forall x: int | q + k < x < q + k + Size(i) ensures !Boundary(t, x) {
      assert x - k + k == x && q < x - k < q + Size(i);
      assert Boundary(t, x - k + k) == Boundary(s, x - k);
    }
  }

  lemma {:induction false} PartInside(t: Re, q: int)
    requires 0 <= q < Len(t) && Boundary(t, q) && !Own(t, q)
    ensures var p := PartAt(t, q); SameInside(t, p.k, p.s)
  {
    hide SameInside, Boundary;
    match t
    case Cat(a, b) => CatTiles(a, b);
    case Alt(a, b) => AltTiles(a, b);
    case Star(a) => StarTiles(a);
    case Plus(a) => PlusTiles(a);
    case Opt(a) => OptTiles(a);
    case Group(reg, inner, a) => GroupTiles(reg, inner, a);
    case _ =>
  }

  lemma {:induction false} CatTiles(a: Re, b: Re)
    ensures SameInside(Cat(a, b), 0, a) && SameInside(Cat(a, b), Len(a), b)
  {
  }

  lemma {:induction false} AltTiles(a: Re, b: Re)
    ensures SameInside(Alt(a, b), 3, a) && SameInside(Alt(a, b), 6 + Len(a), b)
  {
    var t := Alt(a, b);
    forall x: int | 0 < x < Len(a) ensures Boundary(t, x + 3) == Boundary(a, x) {
      if Boundary(b, x + 3 - 6 - Len(a)) { BoundaryInRange(b, x + 3 - 6 - Len(a)); }
    }
    var k := 6 + Len(a);
    forall x: int | 0 < x < Len(b) ensures Boundary(t, x + k) == Boundary(b, x) {
      assert x + k - 6 - Len(a) == x;
    }
  }

  lemma {:induction false} StarTiles(a: Re)
    ensures SameInside(Star(a), 3, a)
  {
    forall x: int | 0 < x < Len(a) ensures Boundary(Star(a), x + 3) == Boundary(a, x) { }
  }

  lemma {:induction false} PlusTiles(a: Re)
    ensures SameInside(Plus(a), 6, a)
  {
    forall x: int | 0 < x < Len(a) ensures Boundary(Plus(a), x + 6) == Boundary(a, x) { }
  }

  lemma {:induction false} OptTiles(a: Re)
    ensures SameInside(Opt(a), 3, a)
  {
    forall x: int | 0 < x < Len(a) ensures Boundary(Opt(a), x + 3) == Boundary(a, x) { }
  }

  lemma {:induction false} GroupTiles(reg: nat, inner: nat, a: Re)
    ensures SameInside(Group(reg, inner, a), GroupOpen(reg), a)
  {
    var g := GroupOpen(reg);
    forall x: int | 0 < x < Len(a) ensures Boundary(Group(reg, inner, a), x + g) == Boundary(a, x) { }
  }

  lemma {:induction false} TileStep(code: seq<byte>, o: nat, t: Re, q: int)
    requires Embeds(code, o, t) && Len(t) <= MAX_REACH && 0 <= q < Len(t) && Boundary(t, q)
    ensures Tiled(t, q, Fetch(code, o + q))
    decreases t
  {
    hide Fetch, Embeds, Structure, Parts, Boundary, Tiled, SameInside;
    Layout(code, o, t);
    EmbedsFits(code, o, t);
    if Own(t, q) {
      OwnTile(code, o, t, q);
    } else {
      PartHolds(t, q);
      PartEmbeds(code, o, t, q);
      PartInside(t, q);
      var p := PartAt(t, q);
      TileStep(code, o + p.k, p.s, q - p.k);
      assert o + p.k + (q - p.k) == o + q && q - p.k + p.k == q;
      LiftTile(t, p.k, p.s, q - p.k, Fetch(code, o + q));
    }
  }

  lemma {:induction false} OwnTile(code: seq<byte>, o: nat, t: Re, q: int)
    requires o + Len(t) <= |code| && Structure(code, o, t) && 0 <= q < Len(t) && Boundary(t, q) && Own(t, q)
    ensures Tiled(t, q, Fetch(code, o + q))
  {
    hide Fetch, Structure, Boundary, Tiled;
    match t
    case Alt(a, b) => AltTile(code, o, a, b, q);
    case Star(a) => StarTile(code, o, a, q);
    case Plus(a) => PlusTile(code, o, a, q);
    case Opt(a) => OptTile(code, o, a);
    case Group(reg, inner, a) => GroupTile(code, o, reg, inner, a, q);
    case _ => LeafTile(code, o, t, q);
  }

  lemma {:induction false} LeafTile(code: seq<byte>, o: nat, t: Re, q: int)
    requires o + Len(t) <= |code| && Structure(code, o, t) && 0 <= q < Len(t) && Boundary(t, q)
    requires !t.Eps? && !t.Cat? && !t.Alt? && !t.Star? && !t.Plus? && !t.Opt? && !t.Group?
    ensures Tiled(t, q, Fetch(code, o + q))
  {
    hide Fetch;
  }

  // A three-byte command at q, with no boundary among the two bytes after it.
  lemma {:induction false} JumpTile(t: Re, q: int, i: Instr)
    requires Size(i) == 3 && 0 <= q && q + 3 <= Len(t) && !Boundary(t, q + 1) && !Boundary(t, q + 2)
    ensures Tiled(t, q, i)
  {
    hide Boundary;
  }

  lemma {:induction false} OutOfRange(t: Re, x: int)
    requires x < 0 || x > Len(t)
    ensures !Boundary(t, x)
  {
  }

  lemma {:induction false} AltTile(code: seq<byte>, o: nat, a: Re, b: Re, q: int)
    requires o + Len(Alt(a, b)) <= |code| && Structure(code, o, Alt(a, b)) && (q == 0 || q == 3 + Len(a))
    ensures Tiled(Alt(a, b), q, Fetch(code, o + q))
  {
    hide Fetch;
    OutOfRange(a, q + 1 - 3); OutOfRange(a, q + 2 - 3);
    OutOfRange(b, q + 1 - 6 - Len(a)); OutOfRange(b, q + 2 - 6 - Len(a));
    JumpTile(Alt(a, b), q, Fetch(code, o + q));
  }

  lemma {:induction false} StarTile(code: seq<byte>, o: nat, a: Re, q: int)
    requires o + Len(Star(a)) <= |code| && Structure(code, o, Star(a)) && (q == 0 || q == 3 + Len(a))
    ensures Tiled(Star(a), q, Fetch(code, o + q))
  {
    hide Fetch;
    OutOfRange(a, q + 1 - 3); OutOfRange(a, q + 2 - 3);
    JumpTile(Star(a), q, Fetch(code, o + q));
  }

  lemma {:induction false} PlusTile(code: seq<byte>, o: nat, a: Re, q: int)
    requires o + Len(Plus(a)) <= |code| && Structure(code, o, Plus(a)) && (q == 0 || q == 3 || q == 6 + Len(a))
    ensures Tiled(Plus(a), q, Fetch(code, o + q))
  {
    hide Fetch;
    OutOfRange(a, q + 1 - 6); OutOfRange(a, q + 2 - 6);
    JumpTile(Plus(a), q, Fetch(code, o + q));
  }

  lemma {:induction false} OptTile(code: seq<byte>, o: nat, a: Re)
    requires o + Len(Opt(a)) <= |code| && Structure(code, o, Opt(a))
    ensures Tiled(Opt(a), 0, Fetch(code, o))
  {
    hide Fetch;
    OutOfRange(a, -2); OutOfRange(a, -1);
    JumpTile(Opt(a), 0, Fetch(code, o));
  }

  lemma {:induction false} GroupTile(code: seq<byte>, o: nat, reg: nat, inner: nat, a: Re, q: int)
    requires var t, g := Group(reg, inner, a), GroupOpen(reg);
      && o + Len(t) <= |code| && Structure(code, o, t) && 0 <= q < Len(t) && Boundary(t, q)
      && (q < g || q >= g + Len(a))
    ensures Tiled(Group(reg, inner, a), q, Fetch(code, o + q))
  {
    hide Fetch;
    var t, g := Group(reg, inner, a), GroupOpen(reg);
    if q < g {
      GroupFront(a, g, q);
      OutOfRange(a, 1 - g); OutOfRange(a, 2 - g);
      JumpTile(t, q, Fetch(code, o + q));
    } else {
      GroupBack(a, g, q);
      if q == g + Len(a) && a.Alt? {
        assert Fetch(code, o + q) == PushDummy;
      } else {
        assert Fetch(code, o + q) == StopMem(reg, inner % 256);
        OutOfRange(a, q + 1 - g); OutOfRange(a, q + 2 - g);
        JumpTile(t, q, Fetch(code, o + q));
      }
    }
  }
}
