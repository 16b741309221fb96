// The matcher terminates where every loop repeats one character: a weight summed over the current
// state and all failure points falls with every step.
module RegexTerminate {
  import opened Bytes
  import opened RegexTree
  import opened RegexCode
  import opened RegexResid
  import opened RegexDepth
  import opened RegexMachine
  import opened Wrappers
  import opened RegexSound
  import opened RegexRoles
  import opened RegexDecide
  import opened RegexComplete

  function Power3(n: nat): (r: nat)
    ensures r >= 1
  {
    if n == 0 then 1 else 3 * Power3(n - 1)
  }

  // a * m, by repeated addition.
  function Times(a: nat, m: nat): nat {
    if a == 0 then 0 else Times(a - 1, m) + m
  }

  // How far position q is from the end; a loop's closing jump counts as just before its head.
  function Order(t: Re, q: int): nat
    requires 0 <= q <= Len(t)
  {
    match RoleOf(t, 0, q)
    case Back(head) => if 0 <= head <= Len(t) then 2 * (Len(t) - head) + 1 else 0
    case _ => 2 * (Len(t) - q)
  }

  // Characters left count for more than any distance in the code.
  function Rank(t: Re, env: Env, q: int, d: nat): nat
    requires 0 <= q <= Len(t) && d <= |env.text|
  {
    Times(|env.text| - d, 2 * Len(t) + 2) + Order(t, q)
  }

  function FrameWeight(t: Re, env: Env, f: Frame): nat {
    match f.pat
    case Null => 1
    case At(p) => if 0 <= p <= Len(t) && f.str <= |env.text| then Power3(Rank(t, env, p, f.str)) else 0
  }

  function StackWeight(t: Re, env: Env, stack: seq<Frame>): nat
    decreases |stack|
  {
    if stack == [] then 0
    else FrameWeight(t, env, stack[|stack| - 1]) + StackWeight(t, env, stack[..|stack| - 1])
  }

  function Weight(t: Re, env: Env, st: State): nat
    requires 0 <= st.p <= Len(t) && st.d <= |env.text|
  {
    Power3(Rank(t, env, st.p, st.d)) + StackWeight(t, env, st.stack)
  }

  // ---- Ranks fall ----

  lemma {:induction false} Scale(a: nat, b: nat, m: nat)
    requires b < a
    ensures Times(b, m) + m <= Times(a, m)
    decreases a
  {
    if b < a - 1 { Scale(a - 1, b, m); }
  }

  lemma {:induction false} RankByText(t: Re, env: Env, q: int, d: nat, p: int, d': nat)
    requires 0 <= q < Len(t) && 0 <= p <= Len(t) && d < d' <= |env.text|
    ensures Rank(t, env, p, d') < Rank(t, env, q, d)
  {
    hide RoleOf, Len;
    Scale(|env.text| - d, |env.text| - d', 2 * Len(t) + 2);
  }

  lemma {:induction false} RankByOrder(t: Re, env: Env, q: int, p: int, d: nat)
    requires 0 <= q <= Len(t) && 0 <= p <= Len(t) && d <= |env.text| && Order(t, p) < Order(t, q)
    ensures Rank(t, env, p, d) < Rank(t, env, q, d)
  {
    hide Order, Len;
  }

  lemma {:induction false} OrderForward(t: Re, q: int, p: int)
    requires 0 <= q < p <= Len(t) && !RoleOf(t, 0, q).Back? && !RoleOf(t, 0, p).Back?
    ensures Order(t, p) < Order(t, q)
  {
    hide RoleOf, Len;
  }

  lemma {:induction false} Power3Grows(a: nat, b: nat)
    requires a < b
    ensures 3 * Power3(a) <= Power3(b)
    decreases b
  {
    if a < b - 1 { Power3Grows(a, b - 1); }
  }

  // ---- Weights fall ----

  lemma {:induction false} StackWeightPush(t: Re, env: Env, stack: seq<Frame>, f: Frame)
    ensures StackWeight(t, env, stack + [f]) == StackWeight(t, env, stack) + FrameWeight(t, env, f)
  {
    hide FrameWeight;
    var s := stack + [f];
    assert s[..|s| - 1] == stack;
    assert StackWeight(t, env, s) == FrameWeight(t, env, s[|s| - 1]) + StackWeight(t, env, s[..|s| - 1]);
  }

  // Every successor of a command ranks lower; of two ways on, both do.
  lemma {:induction false} MoveRanks(code: seq<byte>, t: Re, cfg: Config, q: int, d: nat)
    requires Program(code, t) && Simple(t) && Within(t, cfg, q, d) && q < Len(t)
    ensures var m := Moves(code, cfg.env, q, d);
      && (m.To? ==>
            && 0 <= m.p <= Len(t) && d <= m.d <= |cfg.env.text|
            && Rank(t, cfg.env, m.p, m.d) < Rank(t, cfg.env, q, d))
      && (m.Either? ==>
            && 0 <= m.p1 <= Len(t) && Rank(t, cfg.env, m.p1, d) < Rank(t, cfg.env, q, d)
            && 0 <= m.p2 <= Len(t) && Rank(t, cfg.env, m.p2, d) < Rank(t, cfg.env, q, d))
  {
    hide Spans, Resid, Embeds, Boundary, Simple, Rank, Order, RoleOf, Fetch, DepthFacts, RoleFacts, Moves;
    Command(code, t, cfg, q, d);
    SimpleCommand(code, t, cfg, q, d);
    match Moves(code, cfg.env, q, d)
    case Stuck =>
    case To(p, d') =>
      if d < d' {
        RankByText(t, cfg.env, q, d, p, d');
      } else {
        ToOrder(code, t, cfg.env, q, d, p, d');
        RankByOrder(t, cfg.env, q, p, d);
      }
    case Either(p1, p2) =>
      EitherOrder(code, t, cfg.env, q, d, p1, p2);
      RankByOrder(t, cfg.env, q, p1, d);
      RankByOrder(t, cfg.env, q, p2, d);
  }

  lemma {:induction false} ToOrder(code: seq<byte>, t: Re, env: Env, q: int, d: nat, p: int, d': nat)
    requires 0 <= q < Len(t) == |code| && 0 <= p <= Len(t) && d' <= d
    requires RoleFacts(code, t, 0, q, Fetch(code, q)) && DepthFacts(t, 0, q, Fetch(code, q))
    requires Moves(code, env, q, d) == To(p, d')
    ensures Order(t, p) < Order(t, q)
  {
    hide Fetch, Order, Depth, RoleOf;
    assert q - 0 == q && p - 0 == p;
    var i := Fetch(code, q);
    if i.Goto? && i.kind.MaybePop? {
      BackOrder(t, q, p);
    } else {
      NotEaten(code, env, q, d);
      OrderForward(t, q, p);
    }
  }

  // A command that takes no text is no loop body, and what follows it no loop jump.
  lemma {:induction false} NotEaten(code: seq<byte>, env: Env, q: nat, d: nat)
    requires q < |code| && Moves(code, env, q, d).To? && Moves(code, env, q, d).d <= d
    ensures !EatsOne(Fetch(code, q))
  {
    hide Fetch;
  }

  lemma {:induction false} BackOrder(t: Re, q: int, head: int)
    requires 0 <= q <= Len(t) && 0 <= head <= Len(t) && RoleOf(t, 0, q) == Back(head) && RoleOf(t, 0, head) == Free
    ensures Order(t, head) < Order(t, q)
  {
    hide RoleOf, Len;
  }

  lemma {:induction false} EitherOrder(code: seq<byte>, t: Re, env: Env, q: int, d: nat, p1: int, p2: int)
    requires 0 <= q < Len(t) == |code| && 0 <= p1 <= Len(t) && 0 <= p2 <= Len(t)
    requires RoleFacts(code, t, 0, q, Fetch(code, q)) && Moves(code, env, q, d) == Either(p1, p2)
    ensures Order(t, p1) < Order(t, q) && Order(t, p2) < Order(t, q)
  {
    hide Fetch, Order, RoleOf;
    assert q - 0 == q && p1 - 0 == p1 && p2 - 0 == p2;
    OrderForward(t, q, p1);
    OrderForward(t, q, p2);
  }

  // ---- Every step is lighter ----

  ghost predicate Lighter(t: Re, env: Env, o: Outcome, w: nat) {
    o.Go? ==> 0 <= o.st.p <= Len(t) && o.st.d <= |env.text| && Weight(t, env, o.st) < w
  }

  lemma {:induction false} FailLighter(code: seq<byte>, t: Re, cfg: Config, st: State, w: nat)
    requires StackOk(t, cfg, st.stack) && StackWeight(t, cfg.env, st.stack) < w
    ensures Lighter(t, cfg.env, Fail(code, cfg, st), w)
    decreases |st.stack|
  {
    hide Depth, StackOk, LoopJumpAt, Spans, Resid, Boundary, Rank;
    if st.stack != [] {
      StackPrefix(t, cfg, st.stack);
      var f := st.stack[|st.stack| - 1];
      var st' := st.(stack := st.stack[..|st.stack| - 1], low := f.low, high := f.high,
                     info := Restored(st.info, f.low, f.saved));
      match f.pat
      case Null => FailLighter(code, t, cfg, st', w);
      case At(p) => FailLighter(code, t, cfg, st'.(p := p, d := f.str), w);
    }
  }

  lemma {:induction false} ToLighter(t: Re, env: Env, st: State, st': State)
    requires 0 <= st.p <= Len(t) && st.d <= |env.text| && 0 <= st'.p <= Len(t) && st'.d <= |env.text|
    requires Rank(t, env, st'.p, st'.d) < Rank(t, env, st.p, st.d)
    requires StackWeight(t, env, st'.stack) <= StackWeight(t, env, st.stack) + 1
    ensures Weight(t, env, st') < Weight(t, env, st)
  {
    hide Rank, StackWeight, Len;
    Power3Grows(Rank(t, env, st'.p, st'.d), Rank(t, env, st.p, st.d));
  }

  lemma {:induction false} ForkLighter(t: Re, env: Env, st: State, st': State, f: Frame)
    requires 0 <= st.p <= Len(t) && st.d <= |env.text| && 0 <= st'.p <= Len(t) && st'.d <= |env.text|
    requires f.pat.At? && 0 <= f.pat.p <= Len(t) && f.str <= |env.text| && st'.stack == st.stack + [f]
    requires Rank(t, env, st'.p, st'.d) < Rank(t, env, st.p, st.d)
    requires Rank(t, env, f.pat.p, f.str) < Rank(t, env, st.p, st.d)
    ensures Weight(t, env, st') < Weight(t, env, st)
  {
    hide Rank, StackWeight, Len;
    StackWeightPush(t, env, st.stack, f);
    Power3Grows(Rank(t, env, st'.p, st'.d), Rank(t, env, st.p, st.d));
    Power3Grows(Rank(t, env, f.pat.p, f.str), Rank(t, env, st.p, st.d));
  }

  lemma {:induction false} PopWeight(t: Re, env: Env, stack: seq<Frame>)
    requires stack != []
    ensures StackWeight(t, env, stack[..|stack| - 1]) <= StackWeight(t, env, stack)
  {
    hide FrameWeight;
  }

  lemma {:induction false} ExecuteLighter(code: seq<byte>, t: Re, cfg: Config, st: State)
    requires Program(code, t) && Simple(t) && Inv(t, cfg, st) && 0 <= st.p < Len(t) && st.d <= |cfg.env.text|
    ensures Lighter(t, cfg.env, Execute(code, cfg, st), Weight(t, cfg.env, st))
  {
    hide Spans, Resid, Embeds, Boundary, Simple, Rank, RoleOf, Fetch, Fail, StackOk, Depth, StackWeight, Weight,
      DepthFacts, Execute, Lighter;
    MoveRanks(code, t, cfg, st.p, st.d);
    Command(code, t, cfg, st.p, st.d);
    NotBad(t, 0, st.p, Fetch(code, st.p));
    var i := Fetch(code, st.p);
    if i.StartMem? || i.StopMem? {
      if i.StopMem? { NoLoopAround(code, t, cfg, StopGroup(st, i.reg), st.p, st.d, i.reg); }
      GroupLighter(code, t, cfg, st);
    } else if i.OnFail? {
      ForksLighter(code, t, cfg, st);
    } else if i.PushDummy? || (i.Goto? && i.kind.DummyFailure?) {
      DummyLighter(code, t, cfg, st);
    } else if i.Goto? {
      JumpLighter(code, t, cfg, st);
    } else {
      EatLighter(code, t, cfg, st);
    }
  }

  // What MoveRanks establishes about the current command.
  ghost predicate Ranked(code: seq<byte>, t: Re, env: Env, q: int, d: nat) {
    0 <= q < |code| == Len(t) && d <= |env.text| &&
    var m := Moves(code, env, q, d);
    && (m.To? ==> 0 <= m.p <= Len(t) && d <= m.d <= |env.text| && Rank(t, env, m.p, m.d) < Rank(t, env, q, d))
    && (m.Either? ==>
          && 0 <= m.p1 <= Len(t) && Rank(t, env, m.p1, d) < Rank(t, env, q, d)
          && 0 <= m.p2 <= Len(t) && Rank(t, env, m.p2, d) < Rank(t, env, q, d))
  }

  lemma {:induction false} GroupLighter(code: seq<byte>, t: Re, cfg: Config, st: State)
    requires Ranked(code, t, cfg.env, st.p, st.d)
    requires var i := Fetch(code, st.p);
      i.StartMem? || (i.StopMem? && LoopAround(code, StopGroup(st, i.reg), st.p, i.reg) == None)
    ensures Lighter(t, cfg.env, Execute(code, cfg, st), Weight(t, cfg.env, st))
  {
    hide Rank, Fetch, StackWeight, Weight, LoopAround, Len;
    ToLighter(t, cfg.env, st, Execute(code, cfg, st).st);
  }

  lemma {:induction false} ForksLighter(code: seq<byte>, t: Re, cfg: Config, st: State)
    requires Ranked(code, t, cfg.env, st.p, st.d) && Fetch(code, st.p).OnFail?
    ensures Lighter(t, cfg.env, Execute(code, cfg, st), Weight(t, cfg.env, st))
  {
    hide Rank, Fetch, StackWeight, Weight, Len, Push;
    var target := Fetch(code, st.p).target;
    var covered := CoverGroup(code, st, st.p + 3);
    PushShape(cfg, covered, RegexMachine.At(target), st.d);
    var o := Push(cfg, covered, RegexMachine.At(target), st.d);
    if o.Some? {
      ForkLighter(t, cfg.env, st, o.value.(p := st.p + 3), o.value.stack[|st.stack|]);
    }
  }

  lemma {:induction false} DummyLighter(code: seq<byte>, t: Re, cfg: Config, st: State)
    requires Ranked(code, t, cfg.env, st.p, st.d)
    requires var i := Fetch(code, st.p); i.PushDummy? || (i.Goto? && i.kind.DummyFailure?)
    ensures Lighter(t, cfg.env, Execute(code, cfg, st), Weight(t, cfg.env, st))
  {
    hide Rank, Fetch, StackWeight, Weight, Len, Push;
    PushShape(cfg, st, Null, 0);
    var o := Push(cfg, st, Null, 0);
    if o.Some? {
      StackWeightPush(t, cfg.env, st.stack, o.value.stack[|st.stack|]);
      ToLighter(t, cfg.env, st, o.value.(p := DummyNext(Fetch(code, st.p), st.p)));
    }
  }

  lemma {:induction false} JumpLighter(code: seq<byte>, t: Re, cfg: Config, st: State)
    requires Ranked(code, t, cfg.env, st.p, st.d)
    requires var i := Fetch(code, st.p); i.Goto? && !i.kind.DummyFailure?
    ensures Lighter(t, cfg.env, Execute(code, cfg, st), Weight(t, cfg.env, st))
  {
    hide Rank, Fetch, StackWeight, Weight, Len, Decide;
    var o := Execute(code, cfg, st);
    if o.Go? {
      if st.stack != [] { PopWeight(t, cfg.env, st.stack); }
      ToLighter(t, cfg.env, st, o.st);
    }
  }

  lemma {:induction false} EatLighter(code: seq<byte>, t: Re, cfg: Config, st: State)
    requires Ranked(code, t, cfg.env, st.p, st.d) && StackOk(t, cfg, st.stack)
    requires var i := Fetch(code, st.p); i.Exact? || i.AnyChar? || i.CharSet? || i.BegLine? || i.EndLine?
    ensures Lighter(t, cfg.env, Execute(code, cfg, st), Weight(t, cfg.env, st))
  {
    hide Rank, Fetch, StackWeight, Len, Fail, Moves, StackOk;
    match Moves(code, cfg.env, st.p, st.d)
    case To(p, d) => ToLighter(t, cfg.env, st, Execute(code, cfg, st).st);
    case _ => FailLighter(code, t, cfg, st, Weight(t, cfg.env, st));
  }

  lemma {:induction false} StepLighter(code: seq<byte>, t: Re, cfg: Config, st: State)
    requires Program(code, t) && Simple(t) && Inv(t, cfg, st)
    ensures 0 <= st.p <= Len(t) && st.d <= |cfg.env.text|
    ensures Lighter(t, cfg.env, Step(code, cfg, st), Weight(t, cfg.env, st))
  {
    hide Spans, Embeds, Simple, Execute, StackOk, Rank, Depth, Fail, Boundary, Resid, StackWeight;
    if st.p == |code| {
      if st.d != |cfg.env.text| && st.stack != [] {
        var longer := st.best.None? || st.d > st.best.value;
        FailLighter(code, t, cfg, if longer then st.(best := Some(st.d)) else st, Weight(t, cfg.env, st));
      }
    } else {
      ExecuteLighter(code, t, cfg, st);
    }
  }

  lemma {:induction false} RunEnds(code: seq<byte>, t: Re, cfg: Config, o: Outcome, n: nat)
    requires Program(code, t) && Simple(t) && OutcomeOk(t, cfg, o) && Lighter(t, cfg.env, o, n)
    ensures !Run(code, cfg, o, n).Go? && !Run(code, cfg, o, n).Crash?
    decreases n
  {
    hide Inv, Step, Program, Simple, Weight;
    if o.Go? {
      if n > 0 {
        StepOk(code, t, cfg, o.st);
        StepLighter(code, t, cfg, o.st);
        RunEnds(code, t, cfg, Step(code, cfg, o.st), n - 1);
      }
    }
  }

  // Steps enough for any match of t on this text.
  function Enough(t: Re, env: Env): nat {
    Power3(Times(|env.text|, 2 * Len(t) + 2) + 2 * Len(t) + 1) + 1
  }

  // The matcher comes to an end, and unless its failure stack is overrun or overflows (-2) it returns a
  // length exactly when some stretch from the start matches, and the whole rest exactly when that matches.
  lemma {:induction false} MatcherComplete(t: Re, cfg: Config)
    requires WellFormed(t) && Len(t) <= MAX_REACH && Simple(t) && cfg.pos <= |cfg.env.text|
    ensures var o := Match(Emit(t), cfg, Enough(t, cfg.env));
      o.Overrun? || (o.Done? && Final(t, cfg, o.result))
  {
    hide Inv, Step, Spans, Run, Start, Emit, Len, Simple, Enough, SimpleInv;
    var code := Emit(t);
    assert code[0..0 + Len(t)] == code;
    StartOk(code, t, cfg);
    StartFinds(code, t, cfg);
    StartLight(t, cfg);
    RunEnds(code, t, cfg, Start(cfg), Enough(t, cfg.env));
    RunFinds(code, t, cfg, Start(cfg), Enough(t, cfg.env));
  }

  lemma {:induction false} StartLight(t: Re, cfg: Config)
    requires cfg.pos <= |cfg.env.text|
    ensures Lighter(t, cfg.env, Start(cfg), Enough(t, cfg.env))
  {
    hide RoleOf, Len, Times, Power3;
    RoleAtStart(t, 0);
    var n, m := |cfg.env.text|, 2 * Len(t) + 2;
    if cfg.pos > 0 { Scale(n, n - cfg.pos, m); }
    var big := Times(n, m) + 2 * Len(t) + 1;
    assert Rank(t, cfg.env, 0, cfg.pos) < big;
    Power3Grows(Rank(t, cfg.env, 0, cfg.pos), big);
  }
}
