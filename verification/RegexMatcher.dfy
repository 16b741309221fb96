// re_match_2 itself: a loop that executes commands in place, on a program it rewrites, with the failure
// stack and the registers in arrays.
module RegexMatcher {
  import opened Bytes
  import opened RegexTree
  import opened RegexCode
  import opened RegexResid
  import opened RegexMachine
  import opened Wrappers
  import opened RegexDepth
  import opened RegexSound
  import opened RegexRoles
  import opened RegexComplete
  import opened RegexTerminate
  import opened RegexRewrite
  import opened RegexOpen
  import opened RegexRegisters
  import opened FailStack

  // How a command ends: carry on, return a value, or stop where C would be undefined: on a pop from an
  // empty stack, and on a push past the end of the stack.
  datatype Verdict = Continue | Return(value: int) | Abort | Smash

  // The registers that the command at p names exist.
  ghost predicate RegsHere(code: seq<byte>, p: int, numRegs: nat) {
    0 <= p < |code| ==>
      match Fetch(code, p)
      case StartMem(reg, _) => reg < numRegs
      case StopMem(reg, _) => reg < numRegs
      case OnFail(_) =>
        var g := SkipNoOps(code, p + 3);
        Bytes.At(code, g) == START_MEMORY ==> Bytes.At(code, g + 1) + Bytes.At(code, g + 2) < numRegs
      case _ => true
  }

  class Matcher {
    const cfg: Config
    const program: array<byte>
    const regs: array<Reg>
    const fails: Stack
    var p: int
    var d: nat
    var low: nat
    var high: nat
    var best: Option<nat>

    ghost predicate Valid()
      reads this, fails, fails.items
    {
      fails.Valid() && fails.regs == regs && regs.Length == cfg.nsub + 1 && (low <= high ==> high < regs.Length)
    }

    ghost function Now(): State
      reads this, fails, regs
    {
      State(p, d, Frames(fails.points), fails.items.Length, low, high, Infos(regs[..]), best)
    }

    // The outcome a verdict stands for.
    ghost function Result(v: Verdict): Outcome
      reads this, fails, regs
    {
      match v
      case Continue => Go(Now())
      case Return(r) => Done(r)
      case Abort => Crash
      case Smash => Overrun
    }

    constructor (program: array<byte>, cfg: Config)
      ensures Valid() && this.program == program && this.cfg == cfg
      ensures fresh(fails) && fresh(fails.items) && fresh(regs)
      ensures cfg.pos <= |cfg.env.text| ==> Go(Now()) == Start(cfg)
    {
      var rs := new Reg[cfg.nsub + 1](_ => Reg(-1, -1, Packed(IDLE)));
      var fs := new Stack(rs);
      this.program, this.cfg, this.regs, this.fails := program, cfg, rs, fs;
      p, d := 0, cfg.pos;
      low, high, best := NO_LOWEST_ACTIVE_REG, NO_HIGHEST_ACTIVE_REG, None;
      new;
      assert Infos(regs[..]) == seq(cfg.nsub + 1, _ => IDLE);
    }

    // PUSH_FAILURE_POINT, with the registers active now.
    method PushFailurePoint(place: Place, str: nat) returns (r: Pushed)
      requires Valid()
      modifies fails, fails.items
      ensures Valid() && (fails.items == old(fails.items) || fresh(fails.items))
      ensures r.Stored? ==> Push(cfg, old(Now()), place, str) == Some(Now())
      ensures !r.Stored? ==>
        Push(cfg, old(Now()), place, str) == None
          && NoRoom(cfg, old(Now())) == (if r.Refused? then Done(-2) else Overrun)
    {
      hide Push, NoRoom, Frames, Infos, Word;
      PushAgrees(cfg, Now(), fails.points, regs[..], place, str);
      r := fails.Push(Word(place), str, low, high);
    }

    // Pop one failure point; it is resumed unless it is a dummy or the backward jump of a loop.
    method Resume() returns (resumed: bool)
      requires Valid() && fails.points != []
      modifies this`p, this`d, this`low, this`high, fails`avail, fails`points, regs
      ensures Valid() && fails.items == old(fails.items) && |fails.points| < |old(fails.points)|
      ensures Fail(program[..], cfg, old(Now())) == if resumed then Go(Now()) else Fail(program[..], cfg, Now())
    {
      hide Fail, LoopJumpAt, PlaceOf, Frames, Infos, FrameOf, Whole, Active;
      ghost var st, before, points := Now(), regs[..], fails.points;
      var str, pat, l, h := fails.Pop();
      WholeRange(points[|points| - 1], regs.Length);
      PopAgrees(points, before, regs[..]);
      FrameFields(points[|points| - 1]);
      low, high := l, h;
      FailPops(program[..], cfg, st, Now());
      match PlaceOf(pat) {
        case Null => return false;
        case At(place) =>
          p, d := place, str;
          return !LoopJumpAt(program[..], p);
      }
    }

    // The `fail' label: pop until a failure point can be resumed.
    method FailBack() returns (v: Verdict)
      requires Valid()
      modifies this`p, this`d, this`low, this`high, fails`avail, fails`points, regs
      ensures Valid() && fails.items == old(fails.items) && Result(v) == Fail(program[..], cfg, old(Now()))
    {
      hide Fail, Frames, Infos;
      ghost var code := program[..];
      while true
        invariant Valid() && fails.items == old(fails.items)
        invariant Fail(code, cfg, Now()) == Fail(code, cfg, old(Now()))
        decreases |fails.points|
      {
        var empty := fails.IsEmpty();
        if empty { break; }
        var resumed := Resume();
        if resumed { return Continue; }
      }
      NoFrames(fails.points);
      NothingLeft(code, cfg, Now());
      match best {
        case Some(b) => return Return(b - cfg.pos);
        case None => return Return(-1);
      }
    }

    // End of pattern.
    method EndOfPattern() returns (v: Verdict)
      requires Valid()
      modifies this`p, this`d, this`low, this`high, this`best, fails`avail, fails`points, regs
      ensures Valid() && fails.items == old(fails.items) && Result(v) == AtEnd(program[..], cfg, old(Now()))
    {
      hide Fail, Frames, Infos;
      if d == |cfg.env.text| {
        return Return(d - cfg.pos);
      }
      var empty := fails.IsEmpty();
      NoFrames(fails.points);
      if empty {
        return Return((if best.Some? then best.value else d) - cfg.pos);
      }
      if best.None? || d > best.value {
        best := Some(d);
      }
      v := FailBack();
    }

    method PushAndGo(place: Place, str: nat, next: int) returns (v: Verdict)
      requires Valid()
      modifies this`p, fails, fails.items
      ensures Valid() && (fails.items == old(fails.items) || fresh(fails.items))
      ensures Result(v) == PushThen(cfg, old(Now()), place, str, next)
    {
      hide Push, NoRoom, Frames, Infos;
      var r := PushFailurePoint(place, str);
      match r {
        case Refused => return Return(-2);
        case Past => return Smash;
        case Stored =>
          p := next;
          return Continue;
      }
    }

    method PopAndGo(next: int) returns (v: Verdict)
      requires Valid()
      modifies this`p, fails`avail, fails`points
      ensures Valid() && fails.items == old(fails.items) && Result(v) == PopThen(old(Now()), next)
    {
      hide Infos, FrameOf;
      var empty := fails.IsEmpty();
      if empty { return Abort; }
      ghost var points := fails.points;
      fails.Drop();
      assert Frames(points)[..|points| - 1] == Frames(points[..|points| - 1]);
      p := next;
      return Continue;
    }

    // SET_REGS_MATCHED
    method SetRegsMatched()
      requires Valid()
      modifies regs
      ensures Infos(regs[..]) == MarkMatched(old(Infos(regs[..])), low, high)
    {
      ghost var before := Infos(regs[..]);
      if low <= high {
        var r := low;
        while r <= high
          invariant low <= r <= high + 1
          invariant forall k :: 0 <= k < regs.Length ==>
            Unpacked(regs[k].info) == if low <= k < r then before[k].(matched := true) else before[k]
        {
          WordsRoundTrip(Null, Unpacked(regs[r].info).(matched := true));
          regs[r] := regs[r].(info := Packed(Unpacked(regs[r].info).(matched := true)));
          r := r + 1;
        }
      }
      assert Infos(regs[..]) == MarkMatched(before, low, high);
    }

    // Literals, `.', sets, `^' and `$'.
    method MatchText() returns (v: Verdict)
      requires Valid() && 0 <= p < program.Length
      requires var i := Fetch(program[..], p);
        i.Exact? || i.AnyChar? || i.CharSet? || i.BegLine? || i.EndLine? || i.NoOp?
      modifies this`p, this`d, this`low, this`high, fails`avail, fails`points, regs
      ensures Valid() && fails.items == old(fails.items) && Result(v) == Execute(program[..], cfg, old(Now()))
    {
      hide Fetch, Moves, Fail, Frames, Infos, MarkMatched;
      var i := Fetch(program[..], p);
      var move := Moves(program[..], cfg.env, p, d);
      if !move.To? {
        v := FailBack();
        return;
      }
      if !(i.BegLine? || i.EndLine? || i.NoOp?) {
        SetRegsMatched();
      }
      p, d := move.p, move.d;
      return Continue;
    }

    method StartMemory(reg: byte) returns (v: Verdict)
      requires Valid() && reg < regs.Length
      modifies this`p, this`low, this`high, regs
      ensures Valid() && v == Continue && Now() == StartGroup(old(Now()), reg)
    {
      hide Frames;
      ghost var before := regs[..];
      WordsRoundTrip(Null, RegInfo(true, false));
      regs[reg] := Reg(d, regs[reg].end, Packed(RegInfo(true, false)));
      assert Infos(regs[..]) == Infos(before)[reg := RegInfo(true, false)];
      high := reg;
      if low == NO_LOWEST_ACTIVE_REG { low := reg; }
      p := p + 3;
      return Continue;
    }

    // The registers after stop_memory.
    method CloseRegister(reg: byte)
      requires Valid() && reg < regs.Length
      modifies this`low, this`high, regs
      ensures Valid() && Now() == StopGroup(old(Now()), reg)
    {
      hide Frames;
      ghost var before := regs[..];
      WordsRoundTrip(Null, Unpacked(regs[reg].info).(active := false));
      regs[reg] := Reg(regs[reg].start, d, Packed(Unpacked(regs[reg].info).(active := false)));
      assert Infos(regs[..]) == Infos(before)[reg := Infos(before)[reg].(active := false)];
      if low == high {
        low, high := NO_LOWEST_ACTIVE_REG, NO_HIGHEST_ACTIVE_REG;
        return;
      }
      ghost var info := Infos(regs[..]);
      var r: int := reg - 1;
      while r > 0 && !Unpacked(regs[r].info).active
        invariant -1 <= r < reg && (reg > 0 ==> r >= 0)
        invariant ActiveBelow(info, if r < 0 then 0 else r + 1) == ActiveBelow(info, reg)
      {
        r := r - 1;
      }
      if r <= 0 {
        low, high := NO_LOWEST_ACTIVE_REG, NO_HIGHEST_ACTIVE_REG;
      } else {
        high := r;
      }
    }

    // stop_memory, with the exit from a loop whose group matched nothing this time.
    method StopMemory(reg: byte) returns (v: Verdict)
      requires Valid() && 0 <= p < program.Length && Fetch(program[..], p).StopMem?
      requires Fetch(program[..], p).reg == reg < regs.Length
      modifies this`p, this`d, this`low, this`high, fails, fails.items, regs
      ensures Valid() && (fails.items == old(fails.items) || fresh(fails.items))
      ensures Result(v) == Execute(program[..], cfg, old(Now()))
    {
      hide Around, Fail, Push, NoRoom, Fetch, StopGroup, JumpTarget, Frames, Infos;
      CloseRegister(reg);
      InfoAt(regs[..], reg);
      match Around(program[..], Unpacked(regs[reg].info).matched, p, reg) {
        case None =>
          p := p + 3;
          return Continue;
        case Some(head) =>
          var r := PushFailurePoint(At(JumpTarget(program[..], head)), d);
          match r {
            case Refused => return Return(-2);
            case Past => return Smash;
            case Stored => v := FailBack();
          }
      }
    }

    method OnFailureJump(target: int) returns (v: Verdict)
      requires Valid() && 0 <= p < program.Length && Fetch(program[..], p) == OnFail(target)
      requires RegsHere(program[..], p, regs.Length)
      modifies this`p, this`low, this`high, fails, fails.items
      ensures Valid() && (fails.items == old(fails.items) || fresh(fails.items))
      ensures Result(v) == Execute(program[..], cfg, old(Now()))
    {
      hide Fetch, PushThen, JumpTarget, Frames, Infos, SkipNoOps;
      var g := SkipNoOps(program[..], p + 3);
      if g < program.Length && program[g] == START_MEMORY {
        high := Bytes.At(program[..], g + 1) + Bytes.At(program[..], g + 2);
        if low == NO_LOWEST_ACTIVE_REG { low := Bytes.At(program[..], g + 1); }
      }
      v := PushAndGo(At(target), d, p + 3);
    }

    // The smart repeat: settle the jump for good, then take it.
    method MaybePopJump(target: int) returns (v: Verdict)
      requires Valid() && 0 <= p < program.Length && Fetch(program[..], p) == Goto(MaybePop, target)
      modifies this`p, fails`avail, fails`points, program
      ensures Valid() && fails.items == old(fails.items) && Result(v) == Execute(old(program[..]), cfg, old(Now()))
      ensures program[..] == Rewritten(old(program[..]), old(p))
    {
      hide Frames, Infos, Decide;
      var pop := Decide(program[..], p);
      program[p] := if pop then POP_FAILURE_JUMP else JUMP;
      if pop {
        v := PopAndGo(target);
      } else {
        p := target;
        return Continue;
      }
    }

    method TakeJump(kind: JumpKind, target: int) returns (v: Verdict)
      requires Valid() && 0 <= p < program.Length && Fetch(program[..], p) == Goto(kind, target)
      modifies this`p, fails, fails.items, program
      ensures Valid() && (fails.items == old(fails.items) || fresh(fails.items))
      ensures Result(v) == Execute(old(program[..]), cfg, old(Now()))
      ensures program[..] == Rewritten(old(program[..]), old(p))
    {
      hide Frames, Infos, Decide, PushThen, PopThen;
      match kind {
        case DummyFailure => v := PushAndGo(Null, 0, target);
        case PopFailure => v := PopAndGo(target);
        case MaybePop => v := MaybePopJump(target);
        case _ =>
          p := target;
          return Continue;
      }
    }

    // One command, or the end of the pattern.
    method Advance() returns (v: Verdict)
      requires Valid() && 0 <= p <= program.Length && RegsHere(program[..], p, regs.Length)
      modifies this, fails, fails.items, regs, program
      ensures Valid() && (fails.items == old(fails.items) || fresh(fails.items))
      ensures Result(v) == Step(old(program[..]), cfg, old(Now()))
      ensures program[..] == Rewritten(old(program[..]), old(p))
    {
      hide Frames, Infos, Decide, PushThen, StopGroup, StartGroup, AtEnd;
      if p == program.Length {
        v := EndOfPattern();
        return;
      }
      match Fetch(program[..], p) {
        case StartMem(reg, _) => v := StartMemory(reg);
        case StopMem(reg, _) => v := StopMemory(reg);
        case OnFail(target) => v := OnFailureJump(target);
        case PushDummy => v := PushAndGo(Null, 0, p + 1);
        case Goto(kind, target) => v := TakeJump(kind, target);
        case Bad => return Abort;
        case _ => v := MatchText();
      }
    }
  }

  // ---- Steps as the loop takes them ----

  lemma {:induction false} FrameFields(p: Point)
    ensures var f := FrameOf(p);
      f.pat == PlaceOf(p.pat) && f.str == p.str && f.low == p.low && f.high == p.high && f.saved == Infos(p.regs)
  {
  }

  lemma {:induction false} WholeRange(p: Point, numRegs: nat)
    requires Whole(p, numRegs)
    ensures p.low <= p.high ==> p.high < numRegs
  {
  }

  lemma {:induction false} InfoAt(regs: seq<Reg>, r: nat)
    requires r < |regs|
    ensures InfoOf(Infos(regs), r) == Unpacked(regs[r].info)
  {
  }

  lemma {:induction false} NoFrames(points: seq<Point>)
    ensures Frames(points) == [] <==> points == []
  {
  }

  lemma {:induction false} FailPops(code: seq<byte>, cfg: Config, st: State, st': State)
    requires st.stack != []
    requires var f := st.stack[|st.stack| - 1];
      st' == st.(stack := st.stack[..|st.stack| - 1], low := f.low, high := f.high,
                 info := Restored(st.info, f.low, f.saved))
    ensures var f := st.stack[|st.stack| - 1];
      && (f.pat.Null? ==> Fail(code, cfg, st) == Fail(code, cfg, st'))
      && (f.pat.At? ==>
            var back := st'.(p := f.pat.p, d := f.str);
            Fail(code, cfg, st) == if LoopJumpAt(code, f.pat.p) then Fail(code, cfg, back) else Go(back))
  {
    hide LoopJumpAt;
  }

  lemma {:induction false} NothingLeft(code: seq<byte>, cfg: Config, st: State)
    requires st.stack == []
    ensures Fail(code, cfg, st) == GiveUp(cfg, st.best)
  {
  }

  // The value returned, nothing yet after `steps' commands, or a push past the end of the stack.
  datatype Answer = Answered(value: int) | Unfinished | Overran

  ghost predicate Gives(o: Outcome, r: Answer) {
    match r
    case Answered(value) => o == Done(value)
    case Unfinished => o.Go?
    case Overran => o == Overrun
  }

  // Match a program the compiler emitted, or one left behind by earlier matches, from cfg.pos.
  method ReMatch2(program: array<byte>, cfg: Config, ghost t: Re, steps: nat) returns (r: Answer)
    requires WellFormed(t) && Len(t) <= MAX_REACH && RegsWithin(t, cfg.nsub) && Variant(Emit(t), t, program[..])
    modifies program
    ensures Variant(Emit(t), t, program[..])
    // what is returned is what the fresh program gives
    ensures Gives(Match(Emit(t), cfg, steps), r)
    // a length returned is a match
    ensures r.Answered? && r.value >= 0 ==> Spans(t, cfg.env, cfg.pos, cfg.pos + r.value)
    // where the registers stay in step, no push goes past the end of the stack
    ensures InStep(t, cfg.nsub) ==> !r.Overran?
    // where loops repeat one character, there is an answer after enough steps, and it tells
    // whether there is a match and whether the whole rest is one
    ensures Simple(t) && steps >= Enough(t, cfg.env) && cfg.pos <= |cfg.env.text| ==>
      r.Overran? || (r.Answered? && Final(t, cfg, r.value))
  {
    hide *;
    ghost var code := Emit(t);
    WholeProgram(t);
    StartRuns(t, cfg, steps);
    if cfg.pos > |cfg.env.text| {
      r := Answered(-1);
    } else {
      var m := new Matcher(program, cfg);
      r := Loop(code, t, m, steps);
    }
    AnswerMeans(t, cfg, steps, r);
  }

  lemma {:induction false} StartRuns(t: Re, cfg: Config, steps: nat)
    requires WellFormed(t) && Len(t) <= MAX_REACH
    ensures cfg.pos > |cfg.env.text| ==> Gives(Match(Emit(t), cfg, steps), Answered(-1))
    ensures cfg.pos <= |cfg.env.text| ==>
      Start(cfg).Go? && Inv(t, cfg, Start(cfg).st) && Match(Emit(t), cfg, steps) == Run(Emit(t), cfg, Start(cfg), steps)
  {
    hide Run, Inv, Emit, Len, WellFormed;
    WholeProgram(t);
    StartOk(Emit(t), t, cfg);
    RunUnfolds(Emit(t), cfg, Start(cfg), steps);
  }

  // The loop of re_match_2.
  method Loop(ghost code: seq<byte>, ghost t: Re, m: Matcher, steps: nat) returns (r: Answer)
    requires Program(code, t) && RegsWithin(t, m.cfg.nsub)
    requires m.Valid() && Variant(code, t, m.program[..]) && Inv(t, m.cfg, m.Now())
    modifies m, m.fails, m.fails.items, m.regs, m.program
    ensures Variant(code, t, m.program[..])
    ensures Gives(Run(code, m.cfg, Go(old(m.Now())), steps), r)
  {
    hide Run, Step, Inv, Variant, Rewritten, Program, RegsWithin, RegsHere, Frames, Infos;
    var left := steps;
    while left > 0
      invariant 0 <= left <= steps && m.Valid() && (m.fails.items == old(m.fails.items) || fresh(m.fails.items))
      invariant Variant(code, t, m.program[..]) && Inv(t, m.cfg, m.Now())
      invariant Run(code, m.cfg, Go(m.Now()), left) == Run(code, m.cfg, Go(old(m.Now())), steps)
    {
      StepOnVariant(code, t, m.program[..], m.cfg, m.Now());
      NamesRegisters(code, t, m.program[..], m.cfg, m.Now());
      RunUnfolds(code, m.cfg, Go(m.Now()), left);
      var v := m.Advance();
      RunUnfolds(code, m.cfg, m.Result(v), left - 1);
      match v {
        case Return(value) => return Answered(value);
        case Abort => assert false;
        case Smash => return Overran;
        case Continue =>
      }
      left := left - 1;
    }
    RunUnfolds(code, m.cfg, Go(m.Now()), 0);
    return Unfinished;
  }

  lemma {:induction false} WholeProgram(t: Re)
    requires WellFormed(t) && Len(t) <= MAX_REACH
    ensures Program(Emit(t), t)
  {
    var code := Emit(t);
    assert code[0..0 + Len(t)] == code;
  }

  lemma {:induction false} RunUnfolds(code: seq<byte>, cfg: Config, o: Outcome, n: nat)
    ensures n == 0 || !o.Go? ==> Run(code, cfg, o, n) == o
    ensures n > 0 && o.Go? ==> Run(code, cfg, o, n) == Run(code, cfg, Step(code, cfg, o.st), n - 1)
  {
    hide Step;
  }

  // A step on a variant, as the loop needs it.
  lemma {:induction false} StepOnVariant(code: seq<byte>, t: Re, program: seq<byte>, cfg: Config, st: State)
    requires Program(code, t) && Variant(code, t, program) && Inv(t, cfg, st)
    ensures 0 <= st.p <= |program| && Variant(code, t, Rewritten(program, st.p))
    ensures Step(program, cfg, st) == Step(code, cfg, st) && OutcomeOk(t, cfg, Step(code, cfg, st))
  {
    hide Step, Rewritten, StackOk, Depth, Spans, Resid, Embeds, Variant;
    SameLength(code, t, program);
    SameStep(code, t, program, cfg, st);
    VariantKept(code, t, program, st.p);
    StepOk(code, t, cfg, st);
  }

  // The registers that a command names, or saves on its way, are among those of the program.
  lemma {:induction false} NamesRegisters(code: seq<byte>, t: Re, program: seq<byte>, cfg: Config, st: State)
    requires Program(code, t) && Variant(code, t, program) && Inv(t, cfg, st) && RegsWithin(t, cfg.nsub)
    ensures RegsHere(program, st.p, cfg.nsub + 1)
  {
    hide StackOk, Depth, Spans, Resid, Embeds, Variant, Boundary, RegsWithin, Fetch, SkipNoOps, Len;
    AtBoundary(t, cfg, st.p, st.d);
    SameLength(code, t, program);
    if st.p < Len(t) {
      var q: nat := st.p;
      assert 0 + q == q;
      SameCommand(code, t, program, q);
      RegStep(code, 0, t, q, cfg.nsub);
      Leading(code, t, q);
      if Fetch(program, q).OnFail? { NamesCovered(code, t, program, cfg.nsub, q + 3); }
    }
  }

  lemma {:induction false} NamesCovered(code: seq<byte>, t: Re, program: seq<byte>, n: nat, p: nat)
    requires Program(code, t) && Variant(code, t, program) && RegsWithin(t, n) && Boundary(t, p)
    ensures var g := SkipNoOps(program, p);
      Bytes.At(program, g) == START_MEMORY ==> Bytes.At(program, g + 1) + Bytes.At(program, g + 2) < n + 1
  {
    hide Embeds, Variant, Boundary, RegsWithin, Fetch, Len;
    SameLength(code, t, program);
    BoundaryInRange(t, p);
    SameGlance(code, t, program, p);
    if p < Len(t) {
      FreshJump(code, t, p);
      assert SkipNoOps(program, p) == p;
      assert 0 + p == p;
      RegStep(code, 0, t, p, n);
      if code[p] == START_MEMORY { FetchStart(code, p); }
    }
  }

  // More steps than needed change nothing.
  lemma {:induction false} MoreSteps(code: seq<byte>, cfg: Config, o: Outcome, n: nat, m: nat)
    requires n <= m && !Run(code, cfg, o, n).Go?
    ensures Run(code, cfg, o, m) == Run(code, cfg, o, n)
    decreases n
  {
    hide Step;
    if n > 0 && o.Go? { MoreSteps(code, cfg, Step(code, cfg, o.st), n - 1, m - 1); }
  }

  lemma {:induction false} AnswerMeans(t: Re, cfg: Config, steps: nat, r: Answer)
    requires WellFormed(t) && Len(t) <= MAX_REACH && Gives(Match(Emit(t), cfg, steps), r)
    ensures r.Answered? && r.value >= 0 ==> Spans(t, cfg.env, cfg.pos, cfg.pos + r.value)
    ensures InStep(t, cfg.nsub) ==> !r.Overran?
    ensures Simple(t) && steps >= Enough(t, cfg.env) && cfg.pos <= |cfg.env.text| ==>
      r.Overran? || (r.Answered? && Final(t, cfg, r.value))
  {
    hide Run, Start, Emit, Spans, Simple, Final, Len, Enough, InStep;
    MatcherSound(t, cfg, steps);
    if InStep(t, cfg.nsub) { RegistersInStep(t, cfg, steps); }
    if Simple(t) && steps >= Enough(t, cfg.env) && cfg.pos <= |cfg.env.text| {
      MatcherComplete(t, cfg);
      MoreSteps(Emit(t), cfg, Start(cfg), Enough(t, cfg.env), steps);
    }
  }
}
