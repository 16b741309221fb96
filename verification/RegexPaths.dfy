// Paths of the nondeterministic reading, and compiler correctness: the paths of the code of a
// tree from its start to its end spell exactly the stretches of text the tree matches.
module RegexPaths {
  import opened Bytes
  import opened RegexTree
  import opened RegexCode
  import opened RegexResid

  // n steps lead from (p, d) to (q, e).
  ghost predicate Path(code: seq<byte>, env: Env, p: int, d: nat, q: int, e: nat, n: nat)
    decreases n
  {
    if n == 0 then
      p == q && d == e
    else
      0 <= p < |code| && (
        match Moves(code, env, p, d)
        case Stuck => false
        case To(p', d') => Path(code, env, p', d', q, e, n - 1)
        case Either(p1, p2) => Path(code, env, p1, d, q, e, n - 1) || Path(code, env, p2, d, q, e, n - 1))
  }

  // Some path leads from (p, d) to (q, e).
  ghost predicate Leads(code: seq<byte>, env: Env, p: int, d: nat, q: int, e: nat) {
    exists n: nat :: Path(code, env, p, d, q, e, n)
  }

  lemma {:induction false} PathJoin(code: seq<byte>, env: Env, p: int, d: nat, n: nat, q: int, e: nat, m: nat, r: int,
        f: nat)
    requires Path(code, env, p, d, q, e, n) && Path(code, env, q, e, r, f, m)
    ensures Path(code, env, p, d, r, f, n + m)
    decreases n
  {
    hide Moves;
    if n > 0 {
      match Moves(code, env, p, d)
      case Stuck =>
      case To(p', d') => PathJoin(code, env, p', d', n - 1, q, e, m, r, f);
      case Either(p1, p2) =>
        if Path(code, env, p1, d, q, e, n - 1) {
          PathJoin(code, env, p1, d, n - 1, q, e, m, r, f);
        } else {
          PathJoin(code, env, p2, d, n - 1, q, e, m, r, f);
        }
    }
  }

  lemma {:induction false} Join(code: seq<byte>, env: Env, p: int, d: nat, q: int, e: nat, r: int, f: nat)
    requires Leads(code, env, p, d, q, e) && Leads(code, env, q, e, r, f)
    ensures Leads(code, env, p, d, r, f)
  {
    hide Path;
    var n: nat :| Path(code, env, p, d, q, e, n);
    var m: nat :| Path(code, env, q, e, r, f, m);
    PathJoin(code, env, p, d, n, q, e, m, r, f);
  }

  lemma {:induction false} Stay(code: seq<byte>, env: Env, p: int, d: nat)
    ensures Leads(code, env, p, d, p, d)
  {
    assert Path(code, env, p, d, p, d, 0);
  }

  // One step, then the rest.
  lemma {:induction false} StepThen(code: seq<byte>, env: Env, p: nat, d: nat, p': int, d': nat, q: int, e: nat)
    requires p < |code| && Leads(code, env, p', d', q, e)
    requires var m := Moves(code, env, p, d);
      m == To(p', d') || (m.Either? && d' == d && (m.p1 == p' || m.p2 == p'))
    ensures Leads(code, env, p, d, q, e)
  {
    hide Moves;
    var n: nat :| Path(code, env, p', d', q, e, n);
    assert Path(code, env, p, d, q, e, n + 1);
  }

  // ---- Every path matches ----

  lemma {:induction false} PathMatches(code: seq<byte>, t: Re, env: Env, p: int, d: nat, e: nat, n: nat)
    requires Embeds(code, 0, t) && |code| == Len(t) <= MAX_REACH
    requires Boundary(t, p) && 0 <= p <= Len(t) && d <= |env.text| && Path(code, env, p, d, |code|, e, n)
    ensures Spans(Resid(t, p), env, d, e)
    decreases n
  {
    hide Moves, Resid, Boundary, Emit;
    if n == 0 || p == |code| {
      PathAtEnd(code, t, env, p, d, e, n);
    } else {
      ResidStep(code, 0, t, p, env, d);
      match Moves(code, env, p, d)
      case Stuck =>
      case To(p', d') => PathMatches(code, t, env, p', d', e, n - 1);
      case Either(p1, p2) =>
        if Path(code, env, p1, d, |code|, e, n - 1) {
          PathMatches(code, t, env, p1, d, e, n - 1);
        } else {
          PathMatches(code, t, env, p2, d, e, n - 1);
        }
    }
  }

  lemma {:induction false} PathAtEnd(code: seq<byte>, t: Re, env: Env, p: int, d: nat, e: nat, n: nat)
    requires |code| == Len(t) && (n == 0 || p == |code|) && d <= |env.text| && Path(code, env, p, d, |code|, e, n)
    ensures p == Len(t) && Spans(Resid(t, p), env, d, e)
  {
    ResidAtEnd(t);
  }

  // ---- Every match has a path ----

  // Once an alternative is through, the jumps after it chain to the end of the last alternative.
  lemma {:induction false} ChainEnds(code: seq<byte>, o: nat, b: Re, env: Env, d: nat)
    requires Embeds(code, o, b) && Len(b) <= MAX_REACH
    ensures Leads(code, env, o + PastAltDistance(b), d, o + Len(b), d)
    decreases b
  {
    hide Emit, Fetch, Leads;
    if b.Alt? {
      Layout(code, o, b);
      var k := o + 6 + Len(b.a);
      ChainEnds(code, k, b.b, env, d);
      StepThen(code, env, o + 3 + Len(b.a), d, k + PastAltDistance(b.b), d, o + Len(b), d);
    } else {
      Stay(code, env, o + Len(b), d);
    }
  }

  // A loop whose head is at h and whose exit is x.
  ghost predicate LoopAt(code: seq<byte>, h: nat, a: Re, x: nat) {
    && Embeds(code, h + 3, a) && h + 6 + Len(a) <= |code|
    && Fetch(code, h) == OnFail(x)
    && Fetch(code, h + 3 + Len(a)) == Goto(MaybePop, h)
  }

  lemma {:induction false} MatchHasPath(code: seq<byte>, o: nat, t: Re, env: Env, i: nat, j: nat)
    requires Embeds(code, o, t) && Len(t) <= MAX_REACH && Spans(t, env, i, j)
    ensures Leads(code, env, o, i, o + Len(t), j)
    decreases t, 1, 0
  {
    hide Emit, Fetch, Leads, Spans;
    Layout(code, o, t);
    match t
    case Eps => EpsSpans(env, i, j); Stay(code, env, o, i);
    case Cat(a, b) =>
      var k := CatSplit(a, b, env, i, j);
      MatchHasPath(code, o, a, env, i, k);
      MatchHasPath(code, o + Len(a), b, env, k, j);
      Join(code, env, o, i, o + Len(a), k, o + Len(t), j);
    case Alt(a, b) => AltPath(code, o, a, b, env, i, j);
    case Star(a) => LoopPath(code, o, a, o + Len(t), env, i, j);
    case Plus(a) => PlusPath(code, o, a, env, i, j);
    case Opt(a) => OptPath(code, o, a, env, i, j);
    case Group(reg, inner, a) => GroupPath(code, o, reg, inner, a, env, i, j);
    case _ => LeafPath(code, o, t, env, i, j);
  }

  lemma {:induction false} EpsSpans(env: Env, i: nat, j: nat)
    requires Spans(Eps, env, i, j)
    ensures i == j
  {
  }

  lemma {:induction false} LeafPath(code: seq<byte>, o: nat, t: Re, env: Env, i: nat, j: nat)
    requires Embeds(code, o, t) && Structure(code, o, t) && Spans(t, env, i, j)
    requires !t.Eps? && !t.Cat? && !t.Alt? && !t.Star? && !t.Plus? && !t.Opt? && !t.Group?
    ensures Leads(code, env, o, i, o + Len(t), j)
  {
    hide Emit, Fetch, Leads;
    Stay(code, env, o + Len(t), j);
    assert Moves(code, env, o, i) == To(o + Len(t), j);
    StepThen(code, env, o, i, o + Len(t), j, o + Len(t), j);
  }

  lemma {:induction false} AltPath(code: seq<byte>, o: nat, a: Re, b: Re, env: Env, i: nat, j: nat)
    requires o + Len(Alt(a, b)) <= |code| && Parts(code, o, Alt(a, b)) && Structure(code, o, Alt(a, b))
    requires Len(Alt(a, b)) <= MAX_REACH && Spans(Alt(a, b), env, i, j)
    ensures Leads(code, env, o, i, o + Len(Alt(a, b)), j)
    decreases Alt(a, b), 0, 0
  {
    hide Emit, Fetch, Leads, Spans;
    AltSpans(a, b, env, i, j);
    var k, e := o + 6 + Len(a), o + Len(Alt(a, b));
    if Spans(a, env, i, j) {
      MatchHasPath(code, o + 3, a, env, i, j);
      ChainEnds(code, k, b, env, j);
      StepThen(code, env, o + 3 + Len(a), j, k + PastAltDistance(b), j, e, j);
      Join(code, env, o + 3, i, o + 3 + Len(a), j, e, j);
      StepThen(code, env, o, i, o + 3, i, e, j);
    } else {
      MatchHasPath(code, k, b, env, i, j);
      StepThen(code, env, o, i, k, i, e, j);
    }
  }

  lemma {:induction false} LoopPath(code: seq<byte>, h: nat, a: Re, x: nat, env: Env, i: nat, j: nat)
    requires LoopAt(code, h, a, x) && Len(a) <= MAX_REACH && Spans(Star(a), env, i, j)
    ensures Leads(code, env, h, i, x, j)
    decreases a, 2, j - i
  {
    hide Emit, Fetch, Leads, Spans;
    if i == j {
      Stay(code, env, x, i);
      StepThen(code, env, h, i, x, i, x, j);
    } else {
      var k := StarSplit(a, env, i, j);
      LoopPath(code, h, a, x, env, k, j);
      MatchHasPath(code, h + 3, a, env, i, k);
      StepThen(code, env, h + 3 + Len(a), k, h, k, x, j);
      Join(code, env, h + 3, i, h + 3 + Len(a), k, x, j);
      StepThen(code, env, h, i, h + 3, i, x, j);
    }
  }

  lemma {:induction false} PlusPath(code: seq<byte>, o: nat, a: Re, env: Env, i: nat, j: nat)
    requires o + Len(Plus(a)) <= |code| && Parts(code, o, Plus(a)) && Structure(code, o, Plus(a))
    requires Len(Plus(a)) <= MAX_REACH && Spans(Plus(a), env, i, j)
    ensures Leads(code, env, o, i, o + Len(Plus(a)), j)
    decreases Plus(a), 0, 0
  {
    hide Emit, Fetch, Leads, Spans;
    var h, x := o + 3, o + Len(Plus(a));
    PlusIsCatStar(a, env, i);
    assert Spans(Cat(a, Star(a)), env, i, j);
    var k := CatSplit(a, Star(a), env, i, j);
    LoopPath(code, h, a, x, env, k, j);
    MatchHasPath(code, o + 6, a, env, i, k);
    StepThen(code, env, h + 3 + Len(a), k, h, k, x, j);
    Join(code, env, o + 6, i, h + 3 + Len(a), k, x, j);
    StepThen(code, env, o, i, o + 6, i, x, j);
  }

  lemma {:induction false} OptPath(code: seq<byte>, o: nat, a: Re, env: Env, i: nat, j: nat)
    requires o + Len(Opt(a)) <= |code| && Parts(code, o, Opt(a)) && Structure(code, o, Opt(a))
    requires Len(Opt(a)) <= MAX_REACH && Spans(Opt(a), env, i, j)
    ensures Leads(code, env, o, i, o + Len(Opt(a)), j)
    decreases Opt(a), 0, 0
  {
    hide Emit, Fetch, Leads, Spans;
    OptSpans(a, env, i, j);
    var x := o + Len(Opt(a));
    if Spans(a, env, i, j) {
      MatchHasPath(code, o + 3, a, env, i, j);
      StepThen(code, env, o, i, o + 3, i, x, j);
    } else {
      EpsSpans(env, i, j);
      Stay(code, env, x, i);
      StepThen(code, env, o, i, x, i, x, j);
    }
  }

  lemma {:induction false} GroupPath(code: seq<byte>, o: nat, reg: nat, inner: nat, a: Re, env: Env, i: nat, j: nat)
    requires var t := Group(reg, inner, a);
      o + Len(t) <= |code| && Parts(code, o, t) && Structure(code, o, t) && Len(t) <= MAX_REACH && Spans(t, env, i, j)
    ensures Leads(code, env, o, i, o + Len(Group(reg, inner, a)), j)
    decreases Group(reg, inner, a), 0, 0
  {
    hide Emit, Fetch, Leads, Spans;
    GroupSpans(reg, inner, a, env, i, j);
    var g, x := GroupOpen(reg), o + Len(Group(reg, inner, a));
    MatchHasPath(code, o + g, a, env, i, j);
    var s := o + g + Len(a);
    Stay(code, env, x, j);
    if reg <= MAX_REGNUM {
      StepThen(code, env, s + GroupDummy(a), j, x, j, x, j);
    }
    if a.Alt? {
      StepThen(code, env, s, j, s + 1, j, x, j);
    }
    Join(code, env, o + g, i, s, j, x, j);
    if reg <= MAX_REGNUM {
      StepThen(code, env, o, i, o + 3, i, x, j);
    }
  }

  lemma {:induction false} GroupSpans(reg: nat, inner: nat, a: Re, env: Env, i: nat, j: nat)
    ensures Spans(Group(reg, inner, a), env, i, j) <==> Spans(a, env, i, j)
  {
  }

  // ---- Compiler correctness ----

  // The paths through the code of t spell exactly what t matches.
  lemma {:induction false} PathsSpellTree(t: Re, env: Env, i: nat, j: nat)
    requires WellFormed(t) && Len(t) <= MAX_REACH && i <= |env.text|
    ensures Leads(Emit(t), env, 0, i, Len(t), j) <==> Spans(t, env, i, j)
  {
    hide Emit, Resid, Boundary, Path;
    var code := Emit(t);
    assert code[0..0 + Len(t)] == code;
    if Leads(code, env, 0, i, Len(t), j) {
      var n: nat :| Path(code, env, 0, i, Len(t), j, n);
      StartIsBoundary(t);
      PathMatches(code, t, env, 0, i, j, n);
      AtStart(t, env, i);
    }
    if Spans(t, env, i, j) {
      MatchHasPath(code, 0, t, env, i, j);
    }
  }
}
