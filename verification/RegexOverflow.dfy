// When the failure stack cannot overflow: a bound on the points stacked at once, counted in the
// commands that push, for programs whose loops repeat one character.
module RegexOverflow {
  import opened Bytes
  import opened RegexTree
  import opened RegexCode
  import opened RegexResid
  import opened RegexDepth
  import opened RegexMachine
  import opened Wrappers
  import opened RegexSound
  import opened RegexRoles
  import opened RegexDecide
  import opened RegexComplete
  import opened RegexTerminate
  import opened RegexGroups
  import opened RegexOpen
  import opened RegexRegisters

  // The commands that push a failure point.
  predicate Pushes(i: Instr) {
    i.OnFail? || i.PushDummy? || (i.Goto? && i.kind.DummyFailure?)
  }

  // How many of them there are from position q on.
  function Forks(code: seq<byte>, t: Re, q: nat): nat
    requires q <= |code|
    decreases |code| - q
  {
    if q == |code| then 0
    else (if Boundary(t, q) && Pushes(Fetch(code, q)) then 1 else 0) + Forks(code, t, q + 1)
  }

  // What can still be pushed before the next character; a loop's closing jump goes back to its head.
  function Ahead(code: seq<byte>, t: Re, q: nat): nat
    requires q <= |code| == Len(t)
  {
    match RoleOf(t, 0, q)
    case Back(head) => if 0 <= head <= q then Forks(code, t, head) else 0
    case _ => Forks(code, t, q)
  }

  // What can still be pushed before the end of the text.
  function Room(code: seq<byte>, t: Re, env: Env, q: nat, d: nat): nat
    requires q <= |code| == Len(t) && d <= |env.text|
  {
    Times(|env.text| - d, Forks(code, t, 0)) + Ahead(code, t, q)
  }

  // The program never has more failure points stacked than its pushing commands, once for every
  // character left and once more.
  predicate Roomy(code: seq<byte>, t: Re, cfg: Config) {
    cfg.pos > |cfg.env.text| || (|cfg.env.text| - cfg.pos + 1) * Forks(code, t, 0) <= 2000
  }

  // ---- Counting ----

  lemma {:induction false} ForksFall(code: seq<byte>, t: Re, q: nat, p: nat)
    requires q <= p <= |code|
    ensures Forks(code, t, p) <= Forks(code, t, q)
    ensures q < p && Boundary(t, q) && Pushes(Fetch(code, q)) ==> Forks(code, t, p) + 1 <= Forks(code, t, q)
    decreases p - q
  {
    hide Boundary, Pushes, Fetch;
    if q < p { ForksFall(code, t, q + 1, p); }
  }

  lemma {:induction false} AheadBound(code: seq<byte>, t: Re, q: nat)
    requires q <= |code| == Len(t)
    ensures Ahead(code, t, q) <= Forks(code, t, 0)
  {
    hide RoleOf, Forks, Len;
    ForksFall(code, t, 0, q);
    match RoleOf(t, 0, q)
    case Back(head) => if 0 <= head <= q { ForksFall(code, t, 0, head); }
    case _ =>
  }

  // A character taken makes room for everything that can be pushed before the next one.
  lemma {:induction false} RoomByText(code: seq<byte>, t: Re, env: Env, q: nat, d: nat, p: nat, d': nat)
    requires q <= |code| == Len(t) && p <= |code| && d < d' <= |env.text|
    ensures Room(code, t, env, p, d') <= Room(code, t, env, q, d)
  {
    hide Forks, Ahead, Len;
    Scale(|env.text| - d, |env.text| - d', Forks(code, t, 0));
    AheadBound(code, t, p);
  }

  lemma {:induction false} AheadForward(code: seq<byte>, t: Re, q: nat, p: nat)
    requires q < p <= |code| == Len(t) && Boundary(t, q) && !RoleOf(t, 0, q).Back? && !RoleOf(t, 0, p).Back?
    ensures Ahead(code, t, p) + (if Pushes(Fetch(code, q)) then 1 else 0) <= Ahead(code, t, q)
  {
    hide RoleOf, Forks, Len, Boundary, Pushes, Fetch;
    ForksFall(code, t, q, p);
  }

  lemma {:induction false} AheadBack(code: seq<byte>, t: Re, q: nat, head: nat)
    requires head <= q <= |code| == Len(t) && RoleOf(t, 0, q) == Back(head) && RoleOf(t, 0, head) == Free
    ensures Ahead(code, t, head) == Ahead(code, t, q)
  {
    hide RoleOf, Forks, Len;
  }

  // What a command that pushes takes, its successors no longer have.
  ghost predicate RoomFacts(code: seq<byte>, t: Re, env: Env, q: int, d: nat) {
    0 <= q < |code| == Len(t) && d <= |env.text| &&
    var m := Moves(code, env, q, d);
    var spent := if Pushes(Fetch(code, q)) then 1 else 0;
    && (m.To? ==> 0 <= m.p <= Len(t) && d <= m.d <= |env.text|
                  && Room(code, t, env, m.p, m.d) + spent <= Room(code, t, env, q, d))
    && (m.Either? ==>
          && 0 <= m.p1 <= Len(t) && Room(code, t, env, m.p1, d) + spent <= Room(code, t, env, q, d)
          && 0 <= m.p2 <= Len(t) && Room(code, t, env, m.p2, d) + spent <= Room(code, t, env, q, d))
  }

  lemma {:induction false} MoveRoom(code: seq<byte>, t: Re, cfg: Config, q: int, d: nat)
    requires Program(code, t) && Simple(t) && Within(t, cfg, q, d) && q < Len(t)
    ensures RoomFacts(code, t, cfg.env, q, d)
  {
    hide Spans, Resid, Embeds, Boundary, Simple, Ahead, Forks, Times, RoleOf, Fetch, DepthFacts, RoleFacts, Moves,
      Pushes, Depth, StepKeeps;
    Command(code, t, cfg, q, d);
    SimpleCommand(code, t, cfg, q, d);
    match Moves(code, cfg.env, q, d)
    case Stuck =>
    case To(p, d') =>
      MovesOnward(code, t, cfg, q, d, p, d');
      if d < d' {
        TakesNoRoom(code, cfg.env, q, d);
        RoomByText(code, t, cfg.env, q, d, p, d');
      } else {
        AheadTo(code, t, cfg.env, q, d, p, d');
      }
    case Either(p1, p2) => AheadEither(code, t, cfg.env, q, d, p1, p2);
  }

  lemma {:induction false} MovesOnward(code: seq<byte>, t: Re, cfg: Config, q: int, d: nat, p: int, d': nat)
    requires Program(code, t) && Simple(t) && Within(t, cfg, q, d) && q < Len(t)
    requires Moves(code, cfg.env, q, d) == To(p, d')
    ensures 0 <= p <= Len(t) && d <= d' <= |cfg.env.text|
  {
    hide Spans, Resid, Embeds, Boundary, Simple, Moves, Rank;
    MoveRanks(code, t, cfg, q, d);
  }

  lemma {:induction false} TakesNoRoom(code: seq<byte>, env: Env, q: nat, d: nat)
    requires q < |code| && Moves(code, env, q, d).To? && d < Moves(code, env, q, d).d
    ensures !Pushes(Fetch(code, q))
  {
    hide Fetch;
  }

  lemma {:induction false} AheadTo(code: seq<byte>, t: Re, env: Env, q: int, d: nat, p: int, d': nat)
    requires 0 <= q < Len(t) == |code| && 0 <= p <= Len(t) && d' <= d && Boundary(t, q)
    requires RoleFacts(code, t, 0, q, Fetch(code, q)) && DepthFacts(t, 0, q, Fetch(code, q))
    requires Moves(code, env, q, d) == To(p, d')
    ensures Ahead(code, t, p) + (if Pushes(Fetch(code, q)) then 1 else 0) <= Ahead(code, t, q)
  {
    hide Fetch, Ahead, Depth, RoleOf, Boundary;
    assert q - 0 == q && p - 0 == p;
    var i := Fetch(code, q);
    if i.Goto? && i.kind.MaybePop? {
      AheadBack(code, t, q, p);
    } else {
      NotEaten(code, env, q, d);
      AheadForward(code, t, q, p);
    }
  }

  lemma {:induction false} AheadEither(code: seq<byte>, t: Re, env: Env, q: int, d: nat, p1: int, p2: int)
    requires 0 <= q < Len(t) == |code| && Boundary(t, q)
    requires RoleFacts(code, t, 0, q, Fetch(code, q)) && Moves(code, env, q, d) == Either(p1, p2)
    ensures 0 <= p1 <= Len(t) && 0 <= p2 <= Len(t)
    ensures Ahead(code, t, p1) + (if Pushes(Fetch(code, q)) then 1 else 0) <= Ahead(code, t, q)
    ensures Ahead(code, t, p2) + (if Pushes(Fetch(code, q)) then 1 else 0) <= Ahead(code, t, q)
  {
    hide Fetch, Ahead, RoleOf, Boundary;
    assert q - 0 == q && p1 - 0 == p1 && p2 - 0 == p2;
    AheadForward(code, t, q, p1);
    AheadForward(code, t, q, p2);
  }

  // ---- The stack stays small ----

  // The i-th failure point from the bottom, of at most m.
  ghost predicate SmallFrame(code: seq<byte>, t: Re, cfg: Config, f: Frame, i: int, m: nat) {
    && |code| == Len(t) && Counted(f.low, f.high, cfg.nsub) && |f.saved| <= cfg.nsub
    && (f.pat.At? ==>
          0 <= f.pat.p <= |code| && f.str <= |cfg.env.text| && i + 1 + Room(code, t, cfg.env, f.pat.p, f.str) <= m)
  }

  ghost predicate SmallStack(code: seq<byte>, t: Re, cfg: Config, stack: seq<Frame>, m: nat) {
    forall i :: 0 <= i < |stack| ==> SmallFrame(code, t, cfg, stack[i], i, m)
  }

  ghost predicate Small(code: seq<byte>, t: Re, cfg: Config, st: State, m: nat) {
    && 0 <= st.p <= |code| == Len(t) && st.d <= |cfg.env.text|
    && |st.stack| + Room(code, t, cfg.env, st.p, st.d) <= m
    && Counted(st.low, st.high, cfg.nsub) && st.size > 0
    && SmallStack(code, t, cfg, st.stack, m)
  }

  ghost predicate SmallOutcome(code: seq<byte>, t: Re, cfg: Config, o: Outcome, m: nat) {
    match o
    case Go(st) => Small(code, t, cfg, st, m)
    case Done(r) => r != -2
    case Crash => true
    case Overrun => false
  }

  lemma {:induction false} TimesIs(a: nat, m: nat)
    ensures Times(a, m) == a * m
  {
    if a > 0 {
      TimesIs(a - 1, m);
      assert a * m == (a - 1) * m + m;
    }
  }

  lemma {:induction false} SmallPrefix(code: seq<byte>, t: Re, cfg: Config, stack: seq<Frame>, m: nat)
    requires SmallStack(code, t, cfg, stack, m) && stack != []
    ensures var n := |stack| - 1;
      SmallStack(code, t, cfg, stack[..n], m) && SmallFrame(code, t, cfg, stack[n], n, m)
  {
    hide SmallFrame;
    var s := stack[..|stack| - 1];
    forall i | 0 <= i < |s| ensures SmallFrame(code, t, cfg, s[i], i, m) { assert s[i] == stack[i]; }
  }

  lemma {:induction false} SmallPush(code: seq<byte>, t: Re, cfg: Config, stack: seq<Frame>, f: Frame, m: nat)
    requires SmallStack(code, t, cfg, stack, m) && SmallFrame(code, t, cfg, f, |stack|, m)
    ensures SmallStack(code, t, cfg, stack + [f], m)
  {
    hide SmallFrame;
    var s := stack + [f];
    forall i | 0 <= i < |s| ensures SmallFrame(code, t, cfg, s[i], i, m) {
      if i < |stack| { assert s[i] == stack[i]; }
    }
  }

  lemma {:induction false} AvailSmall(code: seq<byte>, t: Re, cfg: Config, stack: seq<Frame>, m: nat)
    requires SmallStack(code, t, cfg, stack, m)
    ensures Avail(stack) <= Times(|stack|, MostItems(cfg))
    decreases |stack|
  {
    hide SmallStack;
    if stack != [] {
      SmallPrefix(code, t, cfg, stack, m);
      AvailSmall(code, t, cfg, stack[..|stack| - 1], m);
    }
  }

  lemma {:induction false} GrownFits(size: nat, need: nat, limit: nat)
    requires size > 0 && need <= RE_MAX_FAILURES * limit
    ensures Grown(size, need, limit).Some? && Grown(size, need, limit).value > 0
    decreases need - size
  {
    if size < need { GrownFits(2 * size, need, limit); }
  }

  // A push that leaves at most m points on the stack succeeds.
  lemma {:induction false} PushFits(code: seq<byte>, t: Re, cfg: Config, st: State, pat: Place, str: nat, m: nat)
    requires SmallStack(code, t, cfg, st.stack, m) && Bounded(st.low, st.high, cfg.nsub) && st.size > 0
    requires |st.stack| < m <= RE_MAX_FAILURES && |code| == Len(t)
    requires pat.At? ==>
      0 <= pat.p <= |code| && str <= |cfg.env.text| && |st.stack| + 1 + Room(code, t, cfg.env, pat.p, str) <= m
    ensures var o := Push(cfg, st, pat, str);
      && o.Some? && |o.value.stack| == |st.stack| + 1 && o.value.size > 0
      && SmallStack(code, t, cfg, o.value.stack, m)
      && o.value.low == st.low && o.value.high == st.high && o.value.d == st.d
  {
    hide SmallStack, Room, Len, Grown, Avail;
    var f := Frame(pat, str, st.low, st.high, Saved(st.info, st.low, st.high));
    var limit, n := MostItems(cfg), |st.stack| + 1;
    AvailSmall(code, t, cfg, st.stack, m);
    assert Items(f) <= limit;
    TimesIs(n, limit);
    Fits(n, limit);
    AsksWhatItStores(cfg, st, pat, str);
    GrownFits(st.size, Avail(st.stack) + Items(f), limit);
    GrownEnough(st.size, Avail(st.stack) + Items(f), limit);
    SmallPush(code, t, cfg, st.stack, f, m);
  }

  lemma {:induction false} Fits(n: nat, limit: nat)
    requires n <= RE_MAX_FAILURES
    ensures n * limit <= RE_MAX_FAILURES * limit
  {
  }

  lemma {:induction false} FailSmall(code: seq<byte>, t: Re, cfg: Config, st: State, m: nat)
    requires SmallStack(code, t, cfg, st.stack, m) && st.size > 0 && BestOk(t, cfg, st.best)
    ensures SmallOutcome(code, t, cfg, Fail(code, cfg, st), m)
    decreases |st.stack|
  {
    hide SmallStack, Room, Len, LoopJumpAt, Spans, Counted;
    if st.stack != [] {
      SmallPrefix(code, t, cfg, st.stack, m);
      var f := st.stack[|st.stack| - 1];
      var st' := st.(stack := st.stack[..|st.stack| - 1], low := f.low, high := f.high,
                     info := Restored(st.info, f.low, f.saved));
      match f.pat
      case Null => FailSmall(code, t, cfg, st', m);
      case At(p) => FailSmall(code, t, cfg, st'.(p := p, d := f.str), m);
    }
  }

  lemma {:induction false} AtEndSmall(code: seq<byte>, t: Re, cfg: Config, st: State, m: nat)
    requires Small(code, t, cfg, st, m) && BestOk(t, cfg, st.best) && cfg.pos <= st.d && st.p == Len(t)
    requires st.d < |cfg.env.text| ==> Spans(t, cfg.env, cfg.pos, st.d)
    ensures SmallOutcome(code, t, cfg, AtEnd(code, cfg, st), m)
  {
    hide SmallStack, Room, Len, Fail, Spans, Counted;
    if st.d != |cfg.env.text| && st.stack != [] {
      var longer := st.best.None? || st.d > st.best.value;
      FailSmall(code, t, cfg, if longer then st.(best := Some(st.d)) else st, m);
    }
  }

  // ---- Every command ----

  lemma {:induction false} GroupSmall(code: seq<byte>, t: Re, cfg: Config, st: State, m: nat)
    requires Small(code, t, cfg, st, m) && RoomFacts(code, t, cfg.env, st.p, st.d)
    requires var i := Fetch(code, st.p);
      && RegFacts(i, cfg.nsub)
      && (i.StartMem? || (i.StopMem? && LoopAround(code, StopGroup(st, i.reg), st.p, i.reg) == None))
    ensures SmallOutcome(code, t, cfg, Execute(code, cfg, st), m)
  {
    hide SmallStack, Room, Len, Fetch, LoopAround, ActiveBelow;
    var i := Fetch(code, st.p);
    if i.StopMem? { BelowIsLower(WithInfo(st.info, i.reg, InfoOf(st.info, i.reg).(active := false)), i.reg); }
  }

  lemma {:induction false} ForkSmall(code: seq<byte>, t: Re, cfg: Config, st: State, m: nat)
    requires Small(code, t, cfg, st, m) && RoomFacts(code, t, cfg.env, st.p, st.d) && m <= RE_MAX_FAILURES
    requires Fetch(code, st.p).OnFail?
    requires var c := CoverGroup(code, st, st.p + 3); Bounded(c.low, c.high, cfg.nsub)
    ensures SmallOutcome(code, t, cfg, Execute(code, cfg, st), m)
  {
    hide SmallStack, Room, Len, Fetch, Counted, Push, SkipNoOps;
    var target := Fetch(code, st.p).target;
    assert Moves(code, cfg.env, st.p, st.d) == Either(st.p + 3, target);
    PushFits(code, t, cfg, CoverGroup(code, st, st.p + 3), RegexMachine.At(target), st.d, m);
  }

  // The group after a fork is one of the program's.
  lemma {:induction false} CoverCounted(code: seq<byte>, t: Re, cfg: Config, st: State, p: nat)
    requires Program(code, t) && RegsWithin(t, cfg.nsub) && Counted(st.low, st.high, cfg.nsub)
    requires p <= Len(t) && Boundary(t, p)
    ensures var c := CoverGroup(code, st, p); Counted(c.low, c.high, cfg.nsub)
  {
    hide Embeds, Boundary, Len, RegsWithin, DepthFacts, Fetch;
    if p < |code| {
      RegStep(code, 0, t, p, cfg.nsub);
      DepthStep(code, 0, t, p);
      NotBad(t, 0, p, Fetch(code, p));
      assert 0 + p == p;
      NoNoOp(code, p);
      if code[p] == START_MEMORY { FetchStart(code, p); }
    } else {
      assert SkipNoOps(code, p) == p;
    }
  }

  lemma {:induction false} DummySmall(code: seq<byte>, t: Re, cfg: Config, st: State, m: nat)
    requires Small(code, t, cfg, st, m) && RoomFacts(code, t, cfg.env, st.p, st.d) && m <= RE_MAX_FAILURES
    requires var i := Fetch(code, st.p); i.PushDummy? || (i.Goto? && i.kind.DummyFailure?)
    requires Bounded(st.low, st.high, cfg.nsub)
    ensures SmallOutcome(code, t, cfg, Execute(code, cfg, st), m)
  {
    hide SmallStack, Room, Len, Fetch, Counted, Push;
    assert Moves(code, cfg.env, st.p, st.d) == To(DummyNext(Fetch(code, st.p), st.p), st.d);
    PushFits(code, t, cfg, st, Null, 0, m);
  }

  lemma {:induction false} JumpSmall(code: seq<byte>, t: Re, cfg: Config, st: State, m: nat)
    requires Small(code, t, cfg, st, m) && RoomFacts(code, t, cfg.env, st.p, st.d)
    requires var i := Fetch(code, st.p); i.Goto? && !i.kind.DummyFailure?
    ensures SmallOutcome(code, t, cfg, Execute(code, cfg, st), m)
  {
    hide SmallStack, Room, Len, Fetch, Decide, Counted;
    if st.stack != [] { SmallPrefix(code, t, cfg, st.stack, m); }
  }

  lemma {:induction false} EatSmall(code: seq<byte>, t: Re, cfg: Config, st: State, m: nat)
    requires Small(code, t, cfg, st, m) && RoomFacts(code, t, cfg.env, st.p, st.d) && BestOk(t, cfg, st.best)
    requires var i := Fetch(code, st.p); i.Exact? || i.AnyChar? || i.CharSet? || i.BegLine? || i.EndLine?
    ensures SmallOutcome(code, t, cfg, Execute(code, cfg, st), m)
  {
    hide SmallStack, Room, Len, Fetch, Moves, Fail, Spans, Pushes, Counted;
    match Moves(code, cfg.env, st.p, st.d)
    case To(p, d) =>
    case _ => FailSmall(code, t, cfg, st, m);
  }

  lemma {:induction false} ExecuteSmall(code: seq<byte>, t: Re, cfg: Config, st: State, m: nat)
    requires Program(code, t) && Simple(t) && RegsWithin(t, cfg.nsub) && Inv(t, cfg, st) && 0 <= st.p < Len(t)
    requires Small(code, t, cfg, st, m) && m <= RE_MAX_FAILURES && !Strays(code, st)
    ensures SmallOutcome(code, t, cfg, Execute(code, cfg, st), m)
  {
    hide Spans, Resid, Embeds, Boundary, Simple, Fetch, StackOk, Depth, DepthFacts, Execute, SmallOutcome, Small,
      RoomFacts, RegsWithin, RegFacts, CoverGroup, LoopAround, StopGroup, Counted;
    MoveRoom(code, t, cfg, st.p, st.d);
    Command(code, t, cfg, st.p, st.d);
    RegStep(code, 0, t, st.p, cfg.nsub);
    assert 0 + st.p == st.p;
    SmallCounts(code, t, cfg, st, m);
    NotBad(t, 0, st.p, Fetch(code, st.p));
    var i := Fetch(code, st.p);
    if i.StartMem? || i.StopMem? {
      if i.StopMem? { NoLoopAround(code, t, cfg, StopGroup(st, i.reg), st.p, st.d, i.reg); }
      GroupSmall(code, t, cfg, st, m);
    } else if i.OnFail? {
      assert Moves(code, cfg.env, st.p, st.d) == Either(st.p + 3, i.target);
      CoverCounted(code, t, cfg, st, st.p + 3);
      ForkSmall(code, t, cfg, st, m);
    } else if i.PushDummy? || (i.Goto? && i.kind.DummyFailure?) {
      DummySmall(code, t, cfg, st, m);
    } else if i.Goto? {
      JumpSmall(code, t, cfg, st, m);
    } else {
      EatSmall(code, t, cfg, st, m);
    }
  }

  lemma {:induction false} SmallCounts(code: seq<byte>, t: Re, cfg: Config, st: State, m: nat)
    requires Small(code, t, cfg, st, m)
    ensures Counted(st.low, st.high, cfg.nsub)
  {
  }

  lemma {:induction false} StepSmall(code: seq<byte>, t: Re, cfg: Config, st: State, m: nat)
    requires Program(code, t) && Simple(t) && RegsWithin(t, cfg.nsub) && Inv(t, cfg, st)
    requires Small(code, t, cfg, st, m) && m <= RE_MAX_FAILURES && !Strays(code, st)
    ensures SmallOutcome(code, t, cfg, Step(code, cfg, st), m)
  {
    hide Spans, Resid, Embeds, Boundary, Simple, StackOk, Depth, Execute, AtEnd, SmallStack, Room, RegsWithin, Counted,
      Strays;
    if st.p == |code| {
      EndIsMatch(t, cfg, st.d);
      AtEndSmall(code, t, cfg, st, m);
    } else {
      ExecuteSmall(code, t, cfg, st, m);
    }
  }

  // Until a push strays.
  lemma {:induction false} RunSmall(code: seq<byte>, t: Re, cfg: Config, n: nat, m: nat)
    requires Program(code, t) && Simple(t) && RegsWithin(t, cfg.nsub)
    requires SmallOutcome(code, t, cfg, Start(cfg), m) && m <= RE_MAX_FAILURES
    ensures Strayed(code, cfg, n) || SmallOutcome(code, t, cfg, Match(code, cfg, n), m)
    decreases n
  {
    hide Step, Start, Program, Simple, SmallOutcome, Strays, RegsWithin, OutcomeOk, Strayed;
    if n > 0 {
      var k: nat := n - 1;
      RunSmall(code, t, cfg, k, m);
      OneMoreStep(code, cfg, Start(cfg), k);
      StartOk(code, t, cfg);
      RunOk(code, t, cfg, Start(cfg), k);
      var o := Match(code, cfg, k);
      if Strayed(code, cfg, k) {
        StrayedLater(code, cfg, k, n);
      } else if o.Go? {
        if Strays(code, o.st) {
          StraysNow(code, cfg, k);
        } else {
          NextSmall(code, t, cfg, o, m);
        }
      }
    }
  }

  lemma {:induction false} NextSmall(code: seq<byte>, t: Re, cfg: Config, o: Outcome, m: nat)
    requires Program(code, t) && Simple(t) && RegsWithin(t, cfg.nsub) && o.Go? && OutcomeOk(t, cfg, o)
    requires SmallOutcome(code, t, cfg, o, m) && m <= RE_MAX_FAILURES && !Strays(code, o.st)
    ensures SmallOutcome(code, t, cfg, Step(code, cfg, o.st), m)
  {
    hide Step, Program, Simple, Small, Strays, RegsWithin, Inv;
    StepSmall(code, t, cfg, o.st, m);
  }

  lemma {:induction false} StrayedLater(code: seq<byte>, cfg: Config, k: nat, n: nat)
    requires Strayed(code, cfg, k) && k <= n
    ensures Strayed(code, cfg, n)
  {
    hide StraysAfter;
  }

  lemma {:induction false} StraysNow(code: seq<byte>, cfg: Config, k: nat)
    requires StraysAfter(code, cfg, k)
    ensures Strayed(code, cfg, k + 1)
  {
    hide StraysAfter;
  }

  lemma {:induction false} StartSmall(code: seq<byte>, t: Re, cfg: Config)
    requires |code| == Len(t) && cfg.pos <= |cfg.env.text|
    ensures SmallOutcome(code, t, cfg, Start(cfg), (|cfg.env.text| - cfg.pos + 1) * Forks(code, t, 0))
  {
    hide RoleOf, Forks, Len;
    RoleAtStart(t, 0);
    var k, f := |cfg.env.text| - cfg.pos, Forks(code, t, 0);
    TimesIs(k, f);
    assert (k + 1) * f == k * f + f;
  }

  // ---- The result ----

  // A roomy program runs out of failure stack, or writes past it, only once a push has strayed.
  lemma {:induction false} NoOverflow(t: Re, cfg: Config, n: nat)
    requires WellFormed(t) && Len(t) <= MAX_REACH && Simple(t) && RegsWithin(t, cfg.nsub)
    requires Roomy(Emit(t), t, cfg)
    ensures var o := Match(Emit(t), cfg, n); o == Done(-2) || o == Overrun ==> Strayed(Emit(t), cfg, n)
  {
    hide Spans, Run, Start, Emit, Len, Simple, RegsWithin, Forks, SmallOutcome, Strayed;
    var code := Emit(t);
    if cfg.pos <= |cfg.env.text| {
      assert code[0..0 + Len(t)] == code;
      var m := (|cfg.env.text| - cfg.pos + 1) * Forks(code, t, 0);
      StartSmall(code, t, cfg);
      RunSmall(code, t, cfg, n, m);
      if !Strayed(code, cfg, n) { NotOverflow(code, t, cfg, Match(code, cfg, n), m); }
    } else {
      PastTheText(code, cfg, n);
    }
  }

  lemma {:induction false} NotOverflow(code: seq<byte>, t: Re, cfg: Config, o: Outcome, m: nat)
    requires SmallOutcome(code, t, cfg, o, m)
    ensures o != Done(-2) && o != Overrun
  {
    hide Small;
  }

  lemma {:induction false} PastTheText(code: seq<byte>, cfg: Config, n: nat)
    requires cfg.pos > |cfg.env.text|
    ensures Match(code, cfg, n) == Done(-1)
  {
  }

  // So, where every loop repeats one character and the program is roomy, the matcher decides matching unless a
  // push strays; and where the registers stay in step, none does.
  lemma {:induction false} MatcherDecides(t: Re, cfg: Config)
    requires WellFormed(t) && Len(t) <= MAX_REACH && Simple(t) && RegsWithin(t, cfg.nsub)
    requires cfg.pos <= |cfg.env.text| && Roomy(Emit(t), t, cfg)
    ensures var o, n := Match(Emit(t), cfg, Enough(t, cfg.env)), Enough(t, cfg.env);
      && (Strayed(Emit(t), cfg, n) || (o.Done? && Decides(t, cfg, o.result)))
      && (InStep(t, cfg.nsub) ==> !Strayed(Emit(t), cfg, n))
  {
    hide Spans, Emit, Len, Simple, InStep, Forks, Match, Enough, Roomy, Strayed, RegsWithin;
    MatcherComplete(t, cfg);
    NoOverflow(t, cfg, Enough(t, cfg.env));
    if InStep(t, cfg.nsub) { NoneStrays(t, cfg, Enough(t, cfg.env)); }
  }
}
