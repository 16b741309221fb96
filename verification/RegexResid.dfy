// One step of the nondeterministic reading of a program, and what is left to match at each
// position of it.
module RegexResid {
  import opened Bytes
  import opened RegexTree
  import opened RegexCode

  // Where the program may go from one instruction: nowhere, one way, or either of two ways.
  datatype Move =
    | Stuck
    | To(p: int, d: nat)
    | Either(p1: int, p2: int)

  // on_failure_jump may go either way; every other jump goes to its target; push_dummy_failure,
  // start_memory and stop_memory let the text be.
  function Moves(code: seq<byte>, env: Env, p: nat, d: nat): Move
    requires p < |code|
  {
    match Fetch(code, p)
    case NoOp => To(p + 1, d)
    case Exact(cs) => if LitAt(env, cs, d) then To(p + 2 + |cs|, d + |cs|) else Stuck
    case AnyChar => if d < |env.text| && AnyMatches(env.text[d]) then To(p + 1, d + 1) else Stuck
    case CharSet(neg, bits) =>
      if d < |env.text| && SetMatches(neg, bits, env.text[d]) then To(p + 2 + |bits|, d + 1) else Stuck
    case StartMem(_, _) => To(p + 3, d)
    case StopMem(_, _) => To(p + 3, d)
    case BegLine => if AtBol(env, d) then To(p + 1, d) else Stuck
    case EndLine => if AtEol(env, d) then To(p + 1, d) else Stuck
    case Goto(_, target) => To(target, d)
    case OnFail(target) => Either(p + 3, target)
    case PushDummy => To(p + 1, d)
    case Bad => Stuck
  }

  // What remains to be matched at position q of the code of t.
  function Resid(t: Re, q: int): Re
    requires 0 <= q <= Len(t)
  {
    if q == Len(t) then Eps else
    match t
    case Cat(a, b) => if q < Len(a) then Cat(Resid(a, q), b) else Resid(b, q - Len(a))
    case Alt(a, b) =>
      if q < 3 then t else if q <= 3 + Len(a) then Resid(a, q - 3)
      else if q < 6 + Len(a) then Eps else Resid(b, q - 6 - Len(a))
    case Star(a) =>
      if q < 3 then t else if q <= 3 + Len(a) then Cat(Resid(a, q - 3), t) else t
    case Plus(a) =>
      if q < 3 then t else if q < 6 then Star(a)
      else if q <= 6 + Len(a) then Cat(Resid(a, q - 6), Star(a)) else Star(a)
    case Opt(a) => if q < 3 then t else Resid(a, q - 3)
    case Group(reg, _, a) =>
      var g := GroupOpen(reg);
      if q < g then t else if q <= g + Len(a) then Resid(a, q - g) else Eps
    case _ => t
  }

  lemma {:induction false} EmptyCode(t: Re, env: Env, i: nat)
    requires WellFormed(t) && Len(t) == 0
    ensures SameFrom(t, i, Eps, i, env)
  {
    match t
    case Cat(a, b) =>
      EmptyCode(a, env, i);
      EmptyCode(b, env, i);
      CatFrom(a, i, Eps, i, b, env);
      CatEps(b, env, i);
    case Group(_, _, a) => EmptyCode(a, env, i);
    case _ =>
  }

  // The residual at the start is the tree itself.
  lemma {:induction false} AtStart(t: Re, env: Env, i: nat)
    requires WellFormed(t)
    ensures SameFrom(Resid(t, 0), i, t, i, env)
  {
    if Len(t) == 0 {
      EmptyCode(t, env, i);
    } else {
      match t
      case Cat(a, b) =>
        if Len(a) > 0 {
          AtStart(a, env, i);
          CatFrom(Resid(a, 0), i, a, i, b, env);
        } else {
          AtStart(b, env, i);
          EmptyCode(a, env, i);
          CatFrom(a, i, Eps, i, b, env);
          CatEps(b, env, i);
        }
      case Group(reg, _, a) =>
        if reg > MAX_REGNUM { AtStart(a, env, i); }
      case _ =>
    }
  }

  // Inside the first part of a sequence, the residual continues with the second part.
  lemma {:induction false} CatResid(a: Re, b: Re, q: int, env: Env, d: nat)
    requires WellFormed(a) && WellFormed(b) && 0 <= q <= Len(a)
    ensures SameFrom(Resid(Cat(a, b), q), d, Cat(Resid(a, q), b), d, env)
  {
    if q == Len(a) {
      CatEps(b, env, d);
      AtStart(b, env, d);
    }
  }

  // One step at an instruction of t preserves exactly the reachable ends.
  ghost predicate StepKeeps(t: Re, o: nat, q: int, env: Env, d: nat, m: Move)
    requires 0 <= q <= Len(t)
  {
    match m
    case Stuck => forall e: nat :: !Spans(Resid(t, q), env, d, e)
    case To(p, d') =>
      && Boundary(t, p - o) && 0 <= p - o <= Len(t) && d <= d' <= |env.text|
      && SameFrom(Resid(t, q), d, Resid(t, p - o), d', env)
    case Either(p1, p2) =>
      && Boundary(t, p1 - o) && 0 <= p1 - o <= Len(t)
      && Boundary(t, p2 - o) && 0 <= p2 - o <= Len(t)
      && forall e: nat :: Spans(Resid(t, q), env, d, e) <==>
           Spans(Resid(t, p1 - o), env, d, e) || Spans(Resid(t, p2 - o), env, d, e)
  }

  // Position x of the part s, k bytes into t, where t's residual is the part's own ...
  ghost predicate InsideAt(t: Re, k: nat, s: Re, x: int) {
    0 <= x <= Len(s) && 0 <= x + k <= Len(t) && Boundary(t, x + k) && Resid(t, x + k) == Resid(s, x)
  }

  ghost predicate Inside(t: Re, k: nat, s: Re) {
    forall x: int {:trigger Boundary(s, x)} :: Boundary(s, x) ==> InsideAt(t, k, s, x)
  }

  // ... or the part's own followed by b.
  ghost predicate InsideThenAt(t: Re, k: nat, s: Re, b: Re, env: Env, x: int) {
    0 <= x <= Len(s) && 0 <= x + k <= Len(t) && Boundary(t, x + k) && Alike(Resid(t, x + k), Cat(Resid(s, x), b), env)
  }

  ghost predicate InsideThen(t: Re, k: nat, s: Re, b: Re, env: Env) {
    forall x: int {:trigger Boundary(s, x)} :: Boundary(s, x) ==> InsideThenAt(t, k, s, b, env, x)
  }

  lemma {:induction false} LiftInside(t: Re, o: nat, k: nat, s: Re, q: int, env: Env, d: nat, m: Move)
    requires Inside(t, k, s) && 0 <= q <= Len(s) && Boundary(s, q)
    requires StepKeeps(s, o + k, q, env, d, m)
    ensures 0 <= q + k <= Len(t) && StepKeeps(t, o, q + k, env, d, m)
  {
    hide Resid, Boundary, Spans, Len, StepKeeps;
    assert InsideAt(t, k, s, q);
    match m
    case Stuck => LiftStuck(t, o, k, s, q, env, d);
    case To(p, d') =>
      StepBoundaries(s, o + k, q, env, d, m);
      LiftTo(t, o, k, s, q, env, d, p, d');
    case Either(p1, p2) =>
      StepBoundaries(s, o + k, q, env, d, m);
      LiftEither(t, o, k, s, q, env, d, p1, p2);
  }

  lemma {:induction false} StepBoundaries(s: Re, o: nat, q: int, env: Env, d: nat, m: Move)
    requires 0 <= q <= Len(s) && StepKeeps(s, o, q, env, d, m)
    ensures m.To? ==> Boundary(s, m.p - o)
    ensures m.Either? ==> Boundary(s, m.p1 - o) && Boundary(s, m.p2 - o)
  {
  }

  lemma {:induction false} LiftStuck(t: Re, o: nat, k: nat, s: Re, q: int, env: Env, d: nat)
    requires InsideAt(t, k, s, q)
    requires StepKeeps(s, o + k, q, env, d, Stuck)
    ensures StepKeeps(t, o, q + k, env, d, Stuck)
  {
    hide Resid, Boundary, Spans, Len;
  }

  lemma {:induction false} LiftTo(t: Re, o: nat, k: nat, s: Re, q: int, env: Env, d: nat, p: int, d': nat)
    requires InsideAt(t, k, s, q) && InsideAt(t, k, s, p - (o + k))
    requires StepKeeps(s, o + k, q, env, d, To(p, d'))
    ensures StepKeeps(t, o, q + k, env, d, To(p, d'))
  {
    hide Resid, Boundary, Spans, Len;
    assert p - (o + k) + k == p - o;
  }

  lemma {:induction false} LiftEither(t: Re, o: nat, k: nat, s: Re, q: int, env: Env, d: nat, p1: int, p2: int)
    requires InsideAt(t, k, s, q) && InsideAt(t, k, s, p1 - (o + k)) && InsideAt(t, k, s, p2 - (o + k))
    requires StepKeeps(s, o + k, q, env, d, Either(p1, p2))
    ensures StepKeeps(t, o, q + k, env, d, Either(p1, p2))
  {
    hide Resid, Boundary, Spans, Len;
    assert p1 - (o + k) + k == p1 - o;
    assert p2 - (o + k) + k == p2 - o;
  }

  lemma {:induction false} LiftThen(t: Re, o: nat, k: nat, s: Re, b: Re, q: int, env: Env, d: nat, m: Move)
    requires InsideThen(t, k, s, b, env) && 0 <= q <= Len(s) && Boundary(s, q)
    requires StepKeeps(s, o + k, q, env, d, m)
    ensures 0 <= q + k <= Len(t) && StepKeeps(t, o, q + k, env, d, m)
  {
    hide Resid, Boundary, Spans, Len, StepKeeps;
    assert InsideThenAt(t, k, s, b, env, q);
    StepBoundaries(s, o + k, q, env, d, m);
    match m
    case Stuck =>
      LiftThenStuck(t, o, k, s, b, q, env, d);
    case To(p, d') =>
      LiftThenTo(t, o, k, s, b, q, env, d, p, d');
    case Either(p1, p2) =>
      LiftThenEither(t, o, k, s, b, q, env, d, p1, p2);
  }

  lemma {:induction false} LiftThenStuck(t: Re, o: nat, k: nat, s: Re, b: Re, q: int, env: Env, d: nat)
    requires InsideThenAt(t, k, s, b, env, q)
    requires StepKeeps(s, o + k, q, env, d, Stuck)
    ensures StepKeeps(t, o, q + k, env, d, Stuck)
  {
    hide Resid, Boundary, Spans, Len;
    NoCat(Resid(s, q), b, env, d);
  }

  lemma {:induction false} LiftThenTo(t: Re, o: nat, k: nat, s: Re, b: Re, q: int, env: Env, d: nat, p: int, d': nat)
    requires InsideThenAt(t, k, s, b, env, q) && InsideThenAt(t, k, s, b, env, p - (o + k))
    requires StepKeeps(s, o + k, q, env, d, To(p, d'))
    ensures StepKeeps(t, o, q + k, env, d, To(p, d'))
  {
    hide Resid, Boundary, Spans, Len;
    assert p - (o + k) + k == p - o;
    CatFrom(Resid(s, q), d, Resid(s, p - (o + k)), d', b, env);
  }

  lemma {:induction false} LiftThenEither(t: Re, o: nat, k: nat, s: Re, b: Re, q: int, env: Env, d: nat, p1: int,
        p2: int)
    requires InsideThenAt(t, k, s, b, env, q)
    requires InsideThenAt(t, k, s, b, env, p1 - (o + k)) && InsideThenAt(t, k, s, b, env, p2 - (o + k))
    requires StepKeeps(s, o + k, q, env, d, Either(p1, p2))
    ensures StepKeeps(t, o, q + k, env, d, Either(p1, p2))
  {
    hide Resid, Boundary, Spans, Len;
    assert p1 - (o + k) + k == p1 - o;
    assert p2 - (o + k) + k == p2 - o;
    CatOr(Resid(s, q), Resid(s, p1 - (o + k)), Resid(s, p2 - (o + k)), b, env, d);
  }

  lemma {:induction false} NoCat(s: Re, b: Re, env: Env, d: nat)
    requires forall e: nat :: !Spans(s, env, d, e)
    ensures forall e: nat :: !Spans(Cat(s, b), env, d, e)
  {
    forall e: nat | Spans(Cat(s, b), env, d, e) ensures false {
      var k := CatSplit(s, b, env, d, e);
    }
  }

  lemma {:induction false} CatOr(s: Re, s1: Re, s2: Re, b: Re, env: Env, d: nat)
    requires forall e: nat :: Spans(s, env, d, e) <==> Spans(s1, env, d, e) || Spans(s2, env, d, e)
    ensures forall e: nat :: Spans(Cat(s, b), env, d, e) <==>
      Spans(Cat(s1, b), env, d, e) || Spans(Cat(s2, b), env, d, e)
  {
    hide Spans;
    forall e: nat
      ensures Spans(Cat(s, b), env, d, e) <==> Spans(Cat(s1, b), env, d, e) || Spans(Cat(s2, b), env, d, e)
    {
      CatOrAt(s, s1, s2, b, env, d, e);
    }
  }

  lemma {:induction false} CatOrAt(s: Re, s1: Re, s2: Re, b: Re, env: Env, d: nat, e: nat)
    requires forall k: nat :: Spans(s, env, d, k) <==> Spans(s1, env, d, k) || Spans(s2, env, d, k)
    ensures Spans(Cat(s, b), env, d, e) <==> Spans(Cat(s1, b), env, d, e) || Spans(Cat(s2, b), env, d, e)
  {
    hide Spans;
    if Spans(Cat(s, b), env, d, e) {
      var k := CatSplit(s, b, env, d, e);
      if Spans(s1, env, d, k) { CatJoin(s1, b, env, d, k, e); } else { CatJoin(s2, b, env, d, k, e); }
    } else if Spans(Cat(s1, b), env, d, e) {
      var k := CatSplit(s1, b, env, d, e);
      CatJoin(s, b, env, d, k, e);
    } else if Spans(Cat(s2, b), env, d, e) {
      var k := CatSplit(s2, b, env, d, e);
      CatJoin(s, b, env, d, k, e);
    }
  }

  // The one-step equation: at every instruction of t's code, wherever t lies in the buffer, the
  // ends reachable from here are those reachable after the step.
  lemma {:induction false} ResidStep(code: seq<byte>, o: nat, t: Re, q: int, env: Env, d: nat)
    requires Embeds(code, o, t) && Len(t) <= MAX_REACH
    requires 0 <= q < Len(t) && Boundary(t, q) && d <= |env.text|
    ensures StepKeeps(t, o, q, env, d, Moves(code, env, o + q, d))
    decreases t, 1
  {
    hide Fetch, Emit, Spans, StepKeeps, Moves, Resid;
    Layout(code, o, t);
    match t
    case Cat(a, b) => CatStep(code, o, a, b, q, env, d);
    case Alt(a, b) => AltStep(code, o, a, b, q, env, d);
    case Star(a) => StarStep(code, o, a, q, env, d);
    case Plus(a) => PlusStep(code, o, a, q, env, d);
    case Opt(a) => OptStep(code, o, a, q, env, d);
    case Group(reg, inner, a) => GroupStep(code, o, reg, inner, a, q, env, d);
    case _ => LeafStep(code, o, t, env, d);
  }

  // The step of a part, seen from the whole.
  lemma {:induction false} PartStep(code: seq<byte>, o: nat, t: Re, k: nat, s: Re, q: int, env: Env, d: nat)
    requires Embeds(code, o + k, s) && Len(s) <= MAX_REACH && Inside(t, k, s) && s < t
    requires k <= q < k + Len(s) && Boundary(s, q - k) && d <= |env.text|
    ensures 0 <= q <= Len(t) && StepKeeps(t, o, q, env, d, Moves(code, env, o + q, d))
    decreases s, 2
  {
    hide Fetch, Boundary, Spans, StepKeeps, Moves, Resid, Inside, Emit;
    ResidStep(code, o + k, s, q - k, env, d);
    LiftInside(t, o, k, s, q - k, env, d, Moves(code, env, o + k + (q - k), d));
  }

  lemma {:induction false} PartThenStep(code: seq<byte>, o: nat, t: Re, k: nat, s: Re, b: Re, q: int, env: Env, d: nat)
    requires Embeds(code, o + k, s) && Len(s) <= MAX_REACH && InsideThen(t, k, s, b, env) && s < t
    requires k <= q < k + Len(s) && Boundary(s, q - k) && d <= |env.text|
    ensures 0 <= q <= Len(t) && StepKeeps(t, o, q, env, d, Moves(code, env, o + q, d))
    decreases s, 2
  {
    hide Fetch, Boundary, Spans, StepKeeps, Moves, Resid, InsideThen, Emit;
    ResidStep(code, o + k, s, q - k, env, d);
    LiftThen(t, o, k, s, b, q - k, env, d, Moves(code, env, o + k + (q - k), d));
  }

  lemma {:induction false} CatStep(code: seq<byte>, o: nat, a: Re, b: Re, q: int, env: Env, d: nat)
    requires Embeds(code, o, a) && Embeds(code, o + Len(a), b) && Len(Cat(a, b)) <= MAX_REACH
    requires 0 <= q < Len(Cat(a, b)) && Boundary(Cat(a, b), q) && d <= |env.text|
    ensures StepKeeps(Cat(a, b), o, q, env, d, Moves(code, env, o + q, d))
    decreases Cat(a, b), 0
  {
    hide Fetch, Spans, StepKeeps, Moves, Resid, Inside, InsideThen, Emit, Boundary, Len;
    CatHolds(a, b, q);
    if q < Len(a) {
      CatInside(a, b, env);
      PartThenStep(code, o, Cat(a, b), 0, a, b, q, env, d);
    } else {
      CatSecond(a, b);
      PartStep(code, o, Cat(a, b), Len(a), b, q, env, d);
    }
  }

  lemma {:induction false} AltStep(code: seq<byte>, o: nat, a: Re, b: Re, q: int, env: Env, d: nat)
    requires o + Len(Alt(a, b)) <= |code| && Parts(code, o, Alt(a, b)) && Structure(code, o, Alt(a, b))
    requires 0 <= q < Len(Alt(a, b)) <= MAX_REACH && Boundary(Alt(a, b), q) && d <= |env.text|
    ensures StepKeeps(Alt(a, b), o, q, env, d, Moves(code, env, o + q, d))
    decreases Alt(a, b), 0, 1
  {
    hide Fetch, Spans, StepKeeps, Moves, Resid, Inside, InsideThen, Structure, Emit;
    if q == 0 {
      AltEntry(code, o, a, b, env, d);
    } else if q == 3 + Len(a) {
      AltJump(code, o, a, b, env, d);
    } else {
      AltInside(a, b);
      AltHolds(a, b, q);
      AltPartStep(code, o, a, b, q, env, d);
    }
  }

  lemma {:induction false} StarStep(code: seq<byte>, o: nat, a: Re, q: int, env: Env, d: nat)
    requires o + Len(Star(a)) <= |code| && Parts(code, o, Star(a)) && Structure(code, o, Star(a))
    requires 0 <= q < Len(Star(a)) <= MAX_REACH && Boundary(Star(a), q) && d <= |env.text|
    ensures StepKeeps(Star(a), o, q, env, d, Moves(code, env, o + q, d))
    decreases Star(a), 0
  {
    hide Fetch, Spans, StepKeeps, Moves, Resid, Inside, InsideThen, Structure, Emit;
    if q == 0 || q == 3 + Len(a) {
      StarHere(code, o, a, q, env, d);
    } else {
      StarInside(a, env);
      PartThenStep(code, o, Star(a), 3, a, Star(a), q, env, d);
    }
  }

  lemma {:induction false} PlusStep(code: seq<byte>, o: nat, a: Re, q: int, env: Env, d: nat)
    requires o + Len(Plus(a)) <= |code| && Parts(code, o, Plus(a)) && Structure(code, o, Plus(a))
    requires 0 <= q < Len(Plus(a)) <= MAX_REACH && Boundary(Plus(a), q) && d <= |env.text|
    ensures StepKeeps(Plus(a), o, q, env, d, Moves(code, env, o + q, d))
    decreases Plus(a), 0
  {
    hide Fetch, Spans, StepKeeps, Moves, Resid, Inside, InsideThen, Structure, Emit;
    if q == 0 || q == 3 || q == 6 + Len(a) {
      PlusHere(code, o, a, q, env, d);
    } else {
      PlusInside(a, env);
      assert Boundary(a, q - 6);
      PartThenStep(code, o, Plus(a), 6, a, Star(a), q, env, d);
    }
  }

  lemma {:induction false} OptStep(code: seq<byte>, o: nat, a: Re, q: int, env: Env, d: nat)
    requires o + Len(Opt(a)) <= |code| && Parts(code, o, Opt(a)) && Structure(code, o, Opt(a))
    requires 0 <= q < Len(Opt(a)) <= MAX_REACH && Boundary(Opt(a), q) && d <= |env.text|
    ensures StepKeeps(Opt(a), o, q, env, d, Moves(code, env, o + q, d))
    decreases Opt(a), 0
  {
    hide Fetch, Spans, StepKeeps, Moves, Resid, Inside, InsideThen, Structure, Emit;
    if q == 0 {
      OptHere(code, o, a, env, d);
    } else {
      OptInside(a);
      PartStep(code, o, Opt(a), 3, a, q, env, d);
    }
  }

  lemma {:induction false} GroupStep(code: seq<byte>, o: nat, reg: nat, inner: nat, a: Re, q: int, env: Env, d: nat)
    requires var t := Group(reg, inner, a);
      && o + Len(t) <= |code| && Parts(code, o, t) && Structure(code, o, t)
      && 0 <= q < Len(t) <= MAX_REACH && Boundary(t, q)
    requires d <= |env.text|
    ensures StepKeeps(Group(reg, inner, a), o, q, env, d, Moves(code, env, o + q, d))
    decreases Group(reg, inner, a), 0
  {
    hide Fetch, Spans, StepKeeps, Moves, Resid, Inside, InsideThen, Structure;
    var t, g := Group(reg, inner, a), GroupOpen(reg);
    if q < g {
      GroupFront(a, g, q);
      GroupEntry(code, o, reg, inner, a, env, d);
    } else if q >= g + Len(a) {
      GroupBack(a, g, q);
      GroupExit(code, o, reg, inner, a, q, env, d);
    } else {
      if q == 0 { StartIsBoundary(a); }
      GroupInside(reg, inner, a);
      PartStep(code, o, t, g, a, q, env, d);
    }
  }

  lemma {:induction false} CatInside(a: Re, b: Re, env: Env)
    requires WellFormed(a) && WellFormed(b)
    ensures InsideThen(Cat(a, b), 0, a, b, env)
  {
    hide Spans, Resid, Boundary, Len, WellFormed;
    forall x: int | Boundary(a, x)
      ensures InsideThenAt(Cat(a, b), 0, a, b, env, x)
    {
      CatFront(a, b, x);
      forall i: nat, j: nat
        ensures Spans(Resid(Cat(a, b), x), env, i, j) <==> Spans(Cat(Resid(a, x), b), env, i, j)
      {
        CatResid(a, b, x, env, i);
      }
    }
  }

  lemma {:induction false} CatFront(a: Re, b: Re, x: int)
    requires Boundary(a, x)
    ensures 0 <= x <= Len(a) && 0 <= x <= Len(Cat(a, b)) && Boundary(Cat(a, b), x)
  {
    BoundaryInRange(a, x);
    if x == Len(a) { StartIsBoundary(b); }
  }

  lemma {:induction false} CatSecond(a: Re, b: Re)
    ensures Inside(Cat(a, b), Len(a), b)
  {
  }

  lemma {:induction false} LeafStep(code: seq<byte>, o: nat, t: Re, env: Env, d: nat)
    requires o + Len(t) <= |code| && Structure(code, o, t) && Len(t) > 0 && d <= |env.text|
    requires !t.Eps? && !t.Cat? && !t.Alt? && !t.Star? && !t.Plus? && !t.Opt? && !t.Group?
    ensures StepKeeps(t, o, 0, env, d, Moves(code, env, o, d))
  {
    hide Fetch;
    var m := Moves(code, env, o, d);
    assert Resid(t, 0) == t && Resid(t, Len(t)) == Eps;
    match t
    case Lit(cs) =>
    case Any =>
    case Set(neg, bits) =>
    case Bol =>
    case Eol =>
    case Dummy =>
  }

  lemma {:induction false} AltPartStep(code: seq<byte>, o: nat, a: Re, b: Re, q: int, env: Env, d: nat)
    requires Embeds(code, o + 3, a) && Embeds(code, o + 6 + Len(a), b) && d <= |env.text|
    requires Inside(Alt(a, b), 3, a) && Inside(Alt(a, b), 6 + Len(a), b)
    requires 0 <= q < Len(Alt(a, b)) == 6 + Len(a) + Len(b) <= MAX_REACH && q != 3 + Len(a)
    requires if q < 3 + Len(a) then 3 <= q && Boundary(a, q - 3) else 6 + Len(a) <= q && Boundary(b, q - (6 + Len(a)))
    ensures StepKeeps(Alt(a, b), o, q, env, d, Moves(code, env, o + q, d))
    decreases Alt(a, b), 0, 0
  {
    hide Boundary, StepKeeps, Moves, Inside, Embeds, Len;
    if q < 3 + Len(a) {
      PartStep(code, o, Alt(a, b), 3, a, q, env, d);
    } else {
      assert o + 6 + Len(a) == o + (6 + Len(a));
      PartStep(code, o, Alt(a, b), 6 + Len(a), b, q, env, d);
    }
  }

  lemma {:induction false} AltInside(a: Re, b: Re)
    ensures Inside(Alt(a, b), 3, a) && Inside(Alt(a, b), 6 + Len(a), b)
  {
    hide Resid, Boundary;
    forall x: int | Boundary(a, x) ensures InsideAt(Alt(a, b), 3, a, x) {
      AltInsideFirst(a, b, x);
    }
    forall x: int | Boundary(b, x) ensures InsideAt(Alt(a, b), 6 + Len(a), b, x) {
      AltInsideSecond(a, b, x);
    }
  }

  // The layout functions, one level unfolded.
  lemma {:induction false} AltAt(a: Re, b: Re, q: int)
    requires 0 <= q <= Len(Alt(a, b))
    ensures Len(Alt(a, b)) == 6 + Len(a) + Len(b)
    ensures Boundary(a, q - 3) ==> Boundary(Alt(a, b), q)
    ensures Boundary(b, q - 6 - Len(a)) ==> Boundary(Alt(a, b), q)
    ensures 3 <= q <= 3 + Len(a) ==> Resid(Alt(a, b), q) == Resid(a, q - 3)
    ensures 6 + Len(a) <= q < Len(Alt(a, b)) ==> Resid(Alt(a, b), q) == Resid(b, q - 6 - Len(a))
  {
  }

  lemma {:induction false} AltInsideFirst(a: Re, b: Re, x: int)
    requires Boundary(a, x)
    ensures InsideAt(Alt(a, b), 3, a, x)
  {
    hide Resid, Boundary, Len;
    BoundaryInRange(a, x);
    LenAlt(a, b);
    AltAt(a, b, x + 3);
  }

  lemma {:induction false} AltInsideSecond(a: Re, b: Re, x: int)
    requires Boundary(b, x)
    ensures InsideAt(Alt(a, b), 6 + Len(a), b, x)
  {
    hide Resid, Boundary, Len;
    BoundaryInRange(b, x);
    LenAlt(a, b);
    var q := x + (6 + Len(a));
    assert q - 6 - Len(a) == x;
    AltAt(a, b, q);
    ResidAtEnd(b);
    ResidAtEnd(Alt(a, b));
    assert Resid(Alt(a, b), q) == Resid(b, x);
  }

  lemma {:induction false} LenAlt(a: Re, b: Re)
    ensures Len(Alt(a, b)) == 6 + Len(a) + Len(b)
  {
  }

  lemma {:induction false} ResidAtEnd(t: Re)
    ensures Resid(t, Len(t)) == Eps
  {
  }

  lemma {:induction false} AltEntry(code: seq<byte>, o: nat, a: Re, b: Re, env: Env, d: nat)
    requires o + Len(Alt(a, b)) <= |code| && Structure(code, o, Alt(a, b)) && WellFormed(a) && WellFormed(b)
    requires d <= |env.text|
    ensures StepKeeps(Alt(a, b), o, 0, env, d, Moves(code, env, o, d))
  {
    AltForks(code, o, a, b, env, d);
    hide Spans, Resid, Boundary, StepKeeps, Moves, Structure, Len, WellFormed;
    StartIsBoundary(a);
    StartIsBoundary(b);
    AtStart(a, env, d);
    AtStart(b, env, d);
    AltInsideFirst(a, b, 0);
    AltInsideSecond(a, b, 0);
    AltEnds(a, b, Resid(a, 0), Resid(b, 0), env, d);
    ForkKeeps(Alt(a, b), o, 0, 3, 6 + Len(a), env, d);
  }

  lemma {:induction false} AltForks(code: seq<byte>, o: nat, a: Re, b: Re, env: Env, d: nat)
    requires o + Len(Alt(a, b)) <= |code| && Structure(code, o, Alt(a, b))
    ensures Moves(code, env, o, d) == Either(o + 3, o + (6 + Len(a))) && Resid(Alt(a, b), 0) == Alt(a, b)
  {
    hide Fetch;
  }

  // A choice between two positions that together have what is left.
  lemma {:induction false} ForkKeeps(t: Re, o: nat, q: int, x1: int, x2: int, env: Env, d: nat)
    requires 0 <= q <= Len(t) && 0 <= x1 <= Len(t) && 0 <= x2 <= Len(t) && Boundary(t, x1) && Boundary(t, x2)
    requires forall e: nat :: Spans(Resid(t, q), env, d, e) <==>
      Spans(Resid(t, x1), env, d, e) || Spans(Resid(t, x2), env, d, e)
    ensures StepKeeps(t, o, q, env, d, Either(o + x1, o + x2))
  {
    hide Spans, Resid, Len, Boundary;
    assert o + x1 - o == x1 && o + x2 - o == x2;
  }

  lemma {:induction false} AltEnds(a: Re, b: Re, ra: Re, rb: Re, env: Env, d: nat)
    requires SameFrom(ra, d, a, d, env) && SameFrom(rb, d, b, d, env)
    ensures forall e: nat :: Spans(Alt(a, b), env, d, e) <==> Spans(ra, env, d, e) || Spans(rb, env, d, e)
  {
    hide Spans;
    forall e: nat ensures Spans(Alt(a, b), env, d, e) <==> Spans(ra, env, d, e) || Spans(rb, env, d, e) {
      AltSpans(a, b, env, d, e);
    }
  }

  lemma {:induction false} AltJump(code: seq<byte>, o: nat, a: Re, b: Re, env: Env, d: nat)
    requires o + Len(Alt(a, b)) <= |code| && Structure(code, o, Alt(a, b)) && WellFormed(a) && WellFormed(b)
    requires d <= |env.text|
    ensures StepKeeps(Alt(a, b), o, 3 + Len(a), env, d, Moves(code, env, o + 3 + Len(a), d))
  {
    hide Fetch, Spans, PastAltDistance, Resid, StepKeeps, Boundary, WellFormed;
    var x := PastAltDistance(b);
    AltTail(a, b);
    assert Fetch(code, o + 3 + Len(a)) == Goto(PastAlt, o + 6 + Len(a) + x);
    assert Moves(code, env, o + 3 + Len(a), d) == To(o + (6 + Len(a) + x), d);
    JumpKeeps(Alt(a, b), o, 3 + Len(a), 6 + Len(a) + x, env, d);
  }

  lemma {:induction false} AltTail(a: Re, b: Re)
    ensures var t, x := Alt(a, b), 6 + Len(a) + PastAltDistance(b);
      0 <= x <= Len(t) && Boundary(t, x) && Resid(t, x) == Resid(t, 3 + Len(a))
  {
    hide PastAltDistance;
    var t, x := Alt(a, b), PastAltDistance(b);
    PastAltEnd(b);
    AltInside(a, b);
    assert InsideAt(t, 6 + Len(a), b, x);
    assert Resid(t, 3 + Len(a)) == Resid(a, Len(a)) == Eps;
  }

  // A jump between two positions with the same residual.
  lemma {:induction false} JumpKeeps(t: Re, o: nat, q: int, x: int, env: Env, d: nat)
    requires 0 <= q <= Len(t) && 0 <= x <= Len(t) && Boundary(t, x) && d <= |env.text|
    requires Resid(t, q) == Resid(t, x)
    ensures StepKeeps(t, o, q, env, d, To(o + x, d))
  {
    hide Spans, Resid, Len, Boundary;
    assert o + x - o == x;
  }

  // The jump closing an alternative ends at the next such jump, or at the end: nothing is left there.
  lemma {:induction false} PastAltEnd(b: Re)
    ensures 0 <= PastAltDistance(b) <= Len(b) && Boundary(b, PastAltDistance(b))
    ensures Resid(b, PastAltDistance(b)) == Eps
  {
    if b.Alt? {
      assert Resid(b.a, Len(b.a)) == Eps;
    }
  }

  lemma {:induction false} StarInside(a: Re, env: Env)
    ensures InsideThen(Star(a), 3, a, Star(a), env)
  {
    hide Spans;
  }

  lemma {:induction false} StarHere(code: seq<byte>, o: nat, a: Re, q: int, env: Env, d: nat)
    requires o + Len(Star(a)) <= |code| && Structure(code, o, Star(a)) && WellFormed(a)
    requires (q == 0 || q == 3 + Len(a)) && d <= |env.text|
    ensures StepKeeps(Star(a), o, q, env, d, Moves(code, env, o + q, d))
  {
    hide Fetch, Spans;
    if q == 0 {
      assert Moves(code, env, o, d) == Either(o + 3, o + Len(Star(a)));
      LoopHead(Star(a), o, 0, a, env, d);
    } else {
      assert Moves(code, env, o + q, d) == To(o, d);
      LoopBack(Star(a), o, q, 0, a, env, d);
    }
  }

  // The on_failure_jump at the head of a loop.
  lemma {:induction false} LoopHead(t: Re, o: nat, q: int, a: Re, env: Env, d: nat)
    requires WellFormed(a) && d <= |env.text|
    requires (t == Star(a) && q == 0) || (t == Plus(a) && q == 3)
    ensures StepKeeps(t, o, q, env, d, Either(o + q + 3, o + Len(t)))
  {
    hide Spans;
    StartIsBoundary(a);
    LoopEntry(a, env, d);
    assert o + Len(t) - o == Len(t);
  }

  // The jump at the foot of a loop.
  lemma {:induction false} LoopBack(t: Re, o: nat, q: int, head: int, a: Re, env: Env, d: nat)
    requires d <= |env.text| && q == head + 3 + Len(a)
    requires (t == Star(a) && head == 0) || (t == Plus(a) && head == 3)
    ensures StepKeeps(t, o, q, env, d, To(o + head, d))
  {
    hide Spans;
    CatEps(Star(a), env, d);
    assert Resid(a, Len(a)) == Eps;
    assert Resid(t, q) == Cat(Eps, Star(a)) && Resid(t, head) == Star(a);
    assert o + head - o == head;
  }

  // At the head of a loop: leave, or go into the body and come back.
  lemma {:induction false} LoopEntry(a: Re, env: Env, d: nat)
    requires WellFormed(a) && d <= |env.text|
    ensures forall e: nat :: Spans(Star(a), env, d, e) <==>
      Spans(Cat(Resid(a, 0), Star(a)), env, d, e) || Spans(Eps, env, d, e)
  {
    AtStart(a, env, d);
    CatFrom(Resid(a, 0), d, a, d, Star(a), env);
    forall e: nat ensures Spans(Star(a), env, d, e) <==>
      Spans(Cat(Resid(a, 0), Star(a)), env, d, e) || Spans(Eps, env, d, e)
    {
      StarUnfolds(a, env, d, e);
    }
  }

  lemma {:induction false} PlusInside(a: Re, env: Env)
    ensures InsideThen(Plus(a), 6, a, Star(a), env)
  {
    hide Spans;
  }

  lemma {:induction false} PlusHere(code: seq<byte>, o: nat, a: Re, q: int, env: Env, d: nat)
    requires o + Len(Plus(a)) <= |code| && Structure(code, o, Plus(a)) && WellFormed(a)
    requires (q == 0 || q == 3 || q == 6 + Len(a)) && d <= |env.text|
    ensures StepKeeps(Plus(a), o, q, env, d, Moves(code, env, o + q, d))
  {
    hide Fetch, Spans;
    if q == 0 {
      assert Moves(code, env, o, d) == To(o + 6, d);
      PlusEntry(o, a, env, d);
    } else if q == 3 {
      assert Moves(code, env, o + 3, d) == Either(o + 6, o + Len(Plus(a)));
      LoopHead(Plus(a), o, 3, a, env, d);
    } else {
      assert Moves(code, env, o + q, d) == To(o + 3, d);
      LoopBack(Plus(a), o, q, 3, a, env, d);
    }
  }

  lemma {:induction false} PlusEntry(o: nat, a: Re, env: Env, d: nat)
    requires WellFormed(a) && d <= |env.text|
    ensures StepKeeps(Plus(a), o, 0, env, d, To(o + 6, d))
  {
    hide Spans;
    StartIsBoundary(a);
    PlusIsCatStar(a, env, d);
    AtStart(a, env, d);
    CatFrom(Resid(a, 0), d, a, d, Star(a), env);
    assert Resid(Plus(a), 6) == Cat(Resid(a, 0), Star(a)) && Resid(Plus(a), 0) == Plus(a);
    assert o + 6 - o == 6;
  }

  lemma {:induction false} OptInside(a: Re)
    ensures Inside(Opt(a), 3, a)
  {
  }

  lemma {:induction false} OptHere(code: seq<byte>, o: nat, a: Re, env: Env, d: nat)
    requires o + Len(Opt(a)) <= |code| && Structure(code, o, Opt(a)) && WellFormed(a) && d <= |env.text|
    ensures StepKeeps(Opt(a), o, 0, env, d, Moves(code, env, o, d))
  {
    hide Fetch, Spans;
    StartIsBoundary(a);
    AtStart(a, env, d);
    assert Resid(Opt(a), 3) == Resid(a, 0);
    forall e: nat
      ensures Spans(Opt(a), env, d, e) <==> Spans(Resid(a, 0), env, d, e) || Spans(Eps, env, d, e)
    {
      OptSpans(a, env, d, e);
    }
  }

  lemma {:induction false} GroupInside(reg: nat, inner: nat, a: Re)
    ensures Inside(Group(reg, inner, a), GroupOpen(reg), a)
  {
  }

  lemma {:induction false} GroupEntry(code: seq<byte>, o: nat, reg: nat, inner: nat, a: Re, env: Env, d: nat)
    requires var t := Group(reg, inner, a);
      && o + Len(t) <= |code| && Structure(code, o, t) && WellFormed(a)
    requires d <= |env.text| && reg <= MAX_REGNUM
    ensures StepKeeps(Group(reg, inner, a), o, 0, env, d, Moves(code, env, o, d))
  {
    hide Fetch;
    var t := Group(reg, inner, a);
    StartIsBoundary(a);
    AtStart(a, env, d);
    assert Boundary(t, 3) && Resid(t, 3) == Resid(a, 0) by {
      GroupInside(reg, inner, a);
      assert InsideAt(t, 3, a, 0);
    }
    assert Resid(t, 0) == t;
  }

  lemma {:induction false} GroupExit(code: seq<byte>, o: nat, reg: nat, inner: nat, a: Re, q: int, env: Env, d: nat)
    requires var t, g := Group(reg, inner, a), GroupOpen(reg);
      && o + Len(t) <= |code| && Structure(code, o, t) && 0 <= q < Len(t)
      && (q == g + Len(a) || q == g + Len(a) + GroupDummy(a))
    requires d <= |env.text|
    ensures StepKeeps(Group(reg, inner, a), o, q, env, d, Moves(code, env, o + q, d))
  {
    hide Fetch, Spans, Resid, Boundary, StepKeeps;
    var t, g := Group(reg, inner, a), GroupOpen(reg);
    GroupTail(reg, inner, a, q);
    if q == g + Len(a) && a.Alt? {
      assert Fetch(code, o + q) == PushDummy;
      GroupTail(reg, inner, a, q + 1);
      JumpKeeps(t, o, q, q + 1, env, d);
    } else {
      assert Fetch(code, o + q) == StopMem(reg, inner % 256);
      GroupTail(reg, inner, a, q + 3);
      JumpKeeps(t, o, q, q + 3, env, d);
    }
  }

  // Past the body of a group there is nothing left to match.
  lemma {:induction false} GroupTail(reg: nat, inner: nat, a: Re, q: int)
    requires var t, g := Group(reg, inner, a), GroupOpen(reg);
      q == g + Len(a) || q == g + Len(a) + GroupDummy(a) || q == Len(t)
    ensures 0 <= q <= Len(Group(reg, inner, a)) && Resid(Group(reg, inner, a), q) == Eps
    ensures Boundary(Group(reg, inner, a), q)
  {
    assert Resid(a, Len(a)) == Eps;
  }

  // No instruction of the body starts outside it.
  lemma {:induction false} GroupFront(a: Re, g: nat, q: int)
    requires 0 <= q < g <= 3 && (q == 0 || Boundary(a, q - g) || q == g + Len(a) + GroupDummy(a))
    ensures q == 0
  {
  }

  lemma {:induction false} GroupBack(a: Re, g: nat, q: int)
    requires g + Len(a) <= q && (q == 0 || Boundary(a, q - g) || q == g + Len(a) + GroupDummy(a))
    ensures q == g + Len(a) || q == g + Len(a) + GroupDummy(a)
  {
  }
}
