// Which length is returned, where every loop repeats one character: the longest, unless the last
// candidate of all turns up with the failure stack empty and an earlier, shorter one on record.
module RegexLongest {
  import opened Bytes
  import opened RegexTree
  import opened RegexCode
  import opened RegexResid
  import opened RegexDepth
  import opened RegexMachine
  import opened Wrappers
  import opened RegexSound
  import opened RegexRoles
  import opened RegexDecide
  import opened RegexComplete
  import opened RegexTerminate

  ghost predicate IsLongest(t: Re, cfg: Config, r: int) {
    forall e: nat :: Spans(t, cfg.env, cfg.pos, e) ==> e <= cfg.pos + r
  }

  // A length returned from here is the longest.
  ghost predicate Longest(t: Re, cfg: Config, o: Outcome) {
    o.Done? && o.result >= 0 ==> IsLongest(t, cfg, o.result)
  }

  // The guard at which the earlier candidate is restored without being compared.
  predicate Overtaken(code: seq<byte>, cfg: Config, st: State) {
    && st.p == |code| && st.d != |cfg.env.text| && st.stack == []
    && st.best.Some? && st.d > st.best.value
  }

  lemma {:induction false} FailLongest(code: seq<byte>, t: Re, cfg: Config, st: State)
    requires Program(code, t) && Simple(t) && StackOk(t, cfg, st.stack) && FreeStack(t, st.stack)
    requires NothingLostBelow(t, cfg, st.best, st.stack)
    ensures Longest(t, cfg, Fail(code, cfg, st))
    decreases |st.stack|
  {
    hide Within, Depth, StackOk, FreeStack, LoopJumpAt, Embeds, NothingLostBelow, IsRole, Simple, Spans;
    if st.stack == [] {
      RecordIsLongest(t, cfg, st.best);
    } else {
      StackPrefix(t, cfg, st.stack);
      FreePrefix(t, st.stack);
      var f, s := st.stack[|st.stack| - 1], st.stack[..|st.stack| - 1];
      match f.pat
      case Null =>
        DropNull(t, cfg, st.best, st.stack);
        FailLongest(code, t, cfg,
          st.(stack := s, low := f.low, high := f.high, info := Restored(st.info, f.low, f.saved)));
      case At(p) => FreeIsNoLoopJump(code, t, cfg, p, f.str);
    }
  }

  lemma {:induction false} RecordIsLongest(t: Re, cfg: Config, best: Option<nat>)
    requires NothingLostBelow(t, cfg, best, [])
    ensures best.Some? ==> IsLongest(t, cfg, best.value - cfg.pos)
  {
    hide Spans;
    forall e: nat | Spans(t, cfg.env, cfg.pos, e) ensures best.Some? && e <= best.value {
      assert Held(t, cfg.env, best, [], e);
    }
  }

  lemma {:induction false} ExecuteLongest(code: seq<byte>, t: Re, cfg: Config, st: State)
    requires Program(code, t) && Simple(t) && SimpleInv(code, t, cfg, st) && st.p < Len(t)
    ensures Longest(t, cfg, Execute(code, cfg, st))
  {
    hide Spans, Depth, StackOk, FreeStack, Embeds, NothingLost, NothingLostBelow, Resid, Boundary, Simple, StepKeeps,
      Fetch, Inv, LoopTop, Moves, Fail, RoleFacts, DepthFacts, LoopAround, Push;
    SimpleWithin(code, t, cfg, st);
    SimpleCommand(code, t, cfg, st.p, st.d);
    var i := Fetch(code, st.p);
    if i.StopMem? {
      NoLoopAround(code, t, cfg, StopGroup(st, i.reg), st.p, st.d, i.reg);
    } else if i.Exact? || i.AnyChar? || i.CharSet? || i.BegLine? || i.EndLine? {
      EatMoves(code, cfg.env, st.p, st.d);
      if Moves(code, cfg.env, st.p, st.d).Stuck? {
        LostStuck(t, cfg, st.p, st.d, st.best, st.stack);
        InvParts(t, cfg, st);
        FailLongest(code, t, cfg, st);
      }
    } else if i.NoOp? {
      Command(code, t, cfg, st.p, st.d);
      NotBad(t, 0, st.p, i);
    }
  }

  // The last step of a match returns the longest length exactly when it is not the overtaken one.
  lemma {:induction false} LongestExactly(t: Re, cfg: Config, st: State)
    requires WellFormed(t) && Len(t) <= MAX_REACH && Simple(t) && SimpleInv(Emit(t), t, cfg, st)
    requires Step(Emit(t), cfg, st).Done? && Step(Emit(t), cfg, st).result >= 0
    ensures IsLongest(t, cfg, Step(Emit(t), cfg, st).result) <==> !Overtaken(Emit(t), cfg, st)
  {
    hide Spans, Depth, StackOk, FreeStack, NothingLost, NothingLostBelow, LoopTop, Resid, Boundary, Simple, Execute,
      Fail, IsLongest, Emit;
    var code := Emit(t);
    assert code[0..0 + Len(t)] == code;
    if st.p != |code| {
      SimpleWithin(code, t, cfg, st);
      ExecuteLongest(code, t, cfg, st);
    } else {
      EndIsMatch(t, cfg, st.d);
      if st.d == |cfg.env.text| {
        WholeIsLongest(t, cfg);
      } else if st.stack == [] {
        LastCandidate(t, cfg, st.d, st.best);
      } else {
        var longer := st.best.None? || st.d > st.best.value;
        var best := if longer then Some(st.d) else st.best;
        LostRecord(t, cfg, st.d, st.best, best, st.stack);
        FailLongest(code, t, cfg, st.(best := best));
      }
    }
  }

  lemma {:induction false} WholeIsLongest(t: Re, cfg: Config)
    ensures IsLongest(t, cfg, |cfg.env.text| - cfg.pos)
  {
    hide Spans;
    forall e: nat | Spans(t, cfg.env, cfg.pos, e) ensures e <= |cfg.env.text| {
      SpansInText(t, cfg.env, cfg.pos, e);
    }
  }

  lemma {:induction false} LastCandidate(t: Re, cfg: Config, d: nat, best: Option<nat>)
    requires NothingLost(t, cfg, Len(t), d, best, []) && Spans(t, cfg.env, cfg.pos, d)
    ensures IsLongest(t, cfg, (if best.Some? then best.value else d) - cfg.pos) <==> !(best.Some? && d > best.value)
  {
    hide Spans, Len;
    var m := if best.Some? then best.value else d;
    if m >= d {
      forall e: nat | Spans(t, cfg.env, cfg.pos, e) ensures e <= cfg.pos + (m - cfg.pos) {
        if Reaches(t, cfg.env, Len(t), d, e) { ReachesEnd(t, cfg.env, d, e); }
      }
    } else {
      assert !(d <= cfg.pos + (m - cfg.pos));
    }
  }

  // Over a whole match: let st be the state before the last step.  The length returned is the
  // longest exactly when st is not overtaken.
  lemma {:induction false} MatchLongest(t: Re, cfg: Config, n: nat, st: State)
    requires WellFormed(t) && Len(t) <= MAX_REACH && Simple(t) && cfg.pos <= |cfg.env.text|
    requires Match(Emit(t), cfg, n) == Go(st)
    requires Step(Emit(t), cfg, st).Done? && Step(Emit(t), cfg, st).result >= 0
    ensures Match(Emit(t), cfg, n + 1) == Step(Emit(t), cfg, st)
    ensures IsLongest(t, cfg, Match(Emit(t), cfg, n + 1).result) <==> !Overtaken(Emit(t), cfg, st)
  {
    hide Spans, Simple, Step, Start, Emit, Len, SimpleInv, IsLongest, Inv;
    var code := Emit(t);
    assert code[0..0 + Len(t)] == code;
    StartFinds(code, t, cfg);
    RunFinds(code, t, cfg, Start(cfg), n);
    OneMore(code, cfg, Start(cfg), n);
    LongestExactly(t, cfg, st);
  }

  lemma {:induction false} OneMore(code: seq<byte>, cfg: Config, o: Outcome, n: nat)
    requires Run(code, cfg, o, n).Go?
    ensures Run(code, cfg, o, n + 1) == Step(code, cfg, Run(code, cfg, o, n).st)
    decreases n
  {
    hide Step;
    if n > 0 { OneMore(code, cfg, Step(code, cfg, o.st), n - 1); }
    else { assert Run(code, cfg, o, 1) == Run(code, cfg, Step(code, cfg, o.st), 0); }
  }
}
