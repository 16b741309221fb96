// re_match_2 as a state machine: one step executes one pattern command, failing back through the
// failure stack where the command fails.
module RegexMachine {
  import opened Bytes
  import opened RegexTree
  import opened RegexCode
  import opened RegexResid
  import opened Wrappers

  // Sentinels for "no register is active".
  const NO_HIGHEST_ACTIVE_REG := 256
  const NO_LOWEST_ACTIVE_REG := 257
  const INIT_FAILURE_ALLOC := 5
  const RE_MAX_FAILURES := 2000
  const NUM_REG_ITEMS := 3
  const NUM_NONREG_ITEMS := 4
  const WORD := 0x1_0000_0000

  // The bits of register_info_type the control flow depends on.
  datatype RegInfo = RegInfo(active: bool, matched: bool)

  // Where a failure point resumes; Null marks a dummy.
  datatype Place = Null | At(p: int)

  datatype Frame = Frame(pat: Place, str: nat, low: nat, high: nat, saved: seq<RegInfo>)

  // What stays fixed during one match: the text, the start, and the number of groups.
  datatype Config = Config(env: Env, pos: nat, nsub: nat)

  datatype State = State(
    p: int,
    d: nat,
    stack: seq<Frame>,
    size: nat,
    low: nat,
    high: nat,
    info: seq<RegInfo>,
    best: Option<nat>)

  // Done carries the value returned: a length, -1 for no match, -2 for an overflowing stack.
  // Crash is a pop from an empty stack, or an opcode outside the fragment; Overrun a push that writes
  // past the end of the stack.
  datatype Outcome = Go(st: State) | Done(result: int) | Crash | Overrun

  // ---- Registers ----

  const IDLE := RegInfo(false, false)

  function InfoOf(info: seq<RegInfo>, r: nat): RegInfo {
    if r < |info| then info[r] else IDLE
  }

  function WithInfo(info: seq<RegInfo>, r: nat, v: RegInfo): seq<RegInfo> {
    if r < |info| then info[r := v] else info
  }

  // SET_REGS_MATCHED
  function MarkMatched(info: seq<RegInfo>, low: nat, high: nat): seq<RegInfo> {
    seq(|info|, r requires 0 <= r < |info| => if low <= r <= high then info[r].(matched := true) else info[r])
  }

  // The highest active register below r, or 0.
  function ActiveBelow(info: seq<RegInfo>, r: nat): nat {
    if r == 0 then 0 else if InfoOf(info, r - 1).active && r - 1 > 0 then r - 1 else ActiveBelow(info, r - 1)
  }

  // ---- The failure stack ----

  function RegCount(low: nat, high: nat): nat {
    if low <= high then high - low + 1 else 0
  }

  function Items(f: Frame): nat {
    |f.saved| * NUM_REG_ITEMS + NUM_NONREG_ITEMS
  }

  function Avail(stack: seq<Frame>): nat {
    if stack == [] then 0 else Avail(stack[..|stack| - 1]) + Items(stack[|stack| - 1])
  }

  // NUM_FAILURE_ITEMS, what a push asks room for: register numbers are unsigned words, so with the lowest
  // past the highest by more than one this is not what the push stores.
  function Asked(low: nat, high: nat): nat {
    ((high - low + 1) * NUM_REG_ITEMS + NUM_NONREG_ITEMS) % WORD
  }

  function MostItems(cfg: Config): nat {
    cfg.nsub * NUM_REG_ITEMS + NUM_NONREG_ITEMS
  }

  // Doubling until there is room for `need' items in all; None once the limit is passed.
  function Grown(size: nat, need: nat, limit: nat): Option<nat>
    decreases need - size
  {
    if size >= need then Some(size)
    else if size == 0 || size > RE_MAX_FAILURES * limit then None
    else Grown(2 * size, need, limit)
  }

  function Saved(info: seq<RegInfo>, low: nat, high: nat): (s: seq<RegInfo>)
    ensures |s| == RegCount(low, high)
  {
    seq(RegCount(low, high), i requires 0 <= i => InfoOf(info, low + i))
  }

  function Restored(info: seq<RegInfo>, low: nat, saved: seq<RegInfo>): seq<RegInfo> {
    seq(|info|, r requires 0 <= r < |info| => if low <= r < low + |saved| then saved[r - low] else info[r])
  }

  // The size of the stack once there is room for what a push asks.
  function Widened(cfg: Config, st: State): Option<nat> {
    Grown(st.size, Avail(st.stack) + Asked(st.low, st.high), MostItems(cfg))
  }

  // PUSH_FAILURE_POINT, where what is stored fits.
  function Push(cfg: Config, st: State, pat: Place, str: nat): Option<State> {
    var f := Frame(pat, str, st.low, st.high, Saved(st.info, st.low, st.high));
    match Widened(cfg, st)
    case None => None
    case Some(size) =>
      if Avail(st.stack) + Items(f) <= size then Some(st.(stack := st.stack + [f], size := size)) else None
  }

  // And where it does not: the push is refused, or stores more than it asked for.
  function NoRoom(cfg: Config, st: State): Outcome {
    if Widened(cfg, st) == None then Done(-2) else Overrun
  }

  // ---- Failing ----

  // Resuming at the backward jump of a loop is given up at once.
  predicate LoopJumpAt(code: seq<byte>, p: int) {
    0 <= p < |code|
    && (code[p] == MAYBE_POP_JUMP || code[p] == POP_FAILURE_JUMP || code[p] == JUMP)
    && Bytes.At(code, JumpTarget(code, p)) == ON_FAILURE_JUMP
  }

  function GiveUp(cfg: Config, best: Option<nat>): Outcome {
    match best
    case Some(b) => Done(b - cfg.pos)
    case None => Done(-1)
  }

  // The `fail' label.
  function Fail(code: seq<byte>, cfg: Config, st: State): Outcome
    decreases |st.stack|
  {
    if st.stack == [] then GiveUp(cfg, st.best)
    else
      var f := st.stack[|st.stack| - 1];
      var st' := st.(stack := st.stack[..|st.stack| - 1], low := f.low, high := f.high,
                     info := Restored(st.info, f.low, f.saved));
      match f.pat
      case Null => Fail(code, cfg, st')
      case At(p) =>
        var back := st'.(p := p, d := f.str);
        if LoopJumpAt(code, p) then Fail(code, cfg, back) else Go(back)
  }

  // ---- Commands ----

  // End of pattern: the whole rest is accepted at once; otherwise longer candidates are sought.
  function AtEnd(code: seq<byte>, cfg: Config, st: State): Outcome {
    if st.d == |cfg.env.text| then Done(st.d - cfg.pos)
    else if st.stack == [] then Done((if st.best.Some? then st.best.value else st.d) - cfg.pos)
    else
      var longer := st.best.None? || st.d > st.best.value;
      Fail(code, cfg, if longer then st.(best := Some(st.d)) else st)
  }

  function StartGroup(st: State, reg: byte): State {
    st.(p := st.p + 3,
        info := WithInfo(st.info, reg, RegInfo(true, false)),
        high := reg,
        low := if st.low == NO_LOWEST_ACTIVE_REG then reg else st.low)
  }

  // The registers after stop_memory.
  function StopGroup(st: State, reg: byte): State {
    var info := WithInfo(st.info, reg, InfoOf(st.info, reg).(active := false));
    var r := if st.low == st.high then 0 else ActiveBelow(info, reg);
    if r == 0 then st.(info := info, low := NO_LOWEST_ACTIVE_REG, high := NO_HIGHEST_ACTIVE_REG)
    else st.(info := info, high := r)
  }

  // After stop_memory at q for a group that matched nothing: the head of the loop around the group,
  // if the next command is the jump back to it.
  function LoopAround(code: seq<byte>, st: State, q: nat, reg: byte): Option<nat> {
    Around(code, InfoOf(st.info, reg).matched, q, reg)
  }

  function Around(code: seq<byte>, matched: bool, q: nat, reg: byte): Option<nat> {
    if (!matched || Bytes.At(code, q - 2) == START_MEMORY) && q + 3 < |code| then
      var op, head := code[q + 3], JumpTarget(code, q + 3);
      if (op == POP_FAILURE_JUMP || op == MAYBE_POP_JUMP || op == JUMP || op == DUMMY_FAILURE_JUMP)
         && head < q + 6 && Bytes.At(code, head) == ON_FAILURE_JUMP
         && Bytes.At(code, head + 3) == START_MEMORY && Bytes.At(code, head + 4) == reg
      then Some(head) else None
    else None
  }

  function SkipNoOps(code: seq<byte>, p: nat): nat
    decreases |code| - p
  {
    if p < |code| && code[p] == NO_OP then SkipNoOps(code, p + 1) else p
  }

  // Before a group, on_failure_jump also saves the registers of that group.
  function CoverGroup(code: seq<byte>, st: State, p: nat): State {
    var g := SkipNoOps(code, p);
    if g < |code| && code[g] == START_MEMORY then
      st.(high := Bytes.At(code, g + 1) + Bytes.At(code, g + 2),
          low := if st.low == NO_LOWEST_ACTIVE_REG then Bytes.At(code, g + 1) else st.low)
    else st
  }

  // maybe_pop_jump at p: skip the group commands after it ...
  function SkipGroups(code: seq<byte>, p: nat): nat
    decreases |code| - p
  {
    if p + 2 < |code| && (code[p] == STOP_MEMORY || code[p] == START_MEMORY) then SkipGroups(code, p + 3) else p
  }

  // ... and tell whether the loop's failure point may be dropped: nothing follows, or a literal
  // that the first command of the body is taken not to match.
  predicate Decide(code: seq<byte>, p: nat) {
    var f, head := SkipGroups(code, p + 3), JumpTarget(code, p);
    f == |code| ||
    (Bytes.At(code, f) == EXACTN &&
      var c, body := Bytes.At(code, f + 2), Bytes.At(code, head + 3);
      if body == EXACTN then Bytes.At(code, head + 5) != c
      else if body == CHARSET || body == CHARSET_NOT then
        var hit := c < (Bytes.At(code, head + 4) * 8) % 256 && Bit(Bytes.At(code, head + 5 + c / 8), c % 8);
        hit == (body == CHARSET_NOT)
      else false)
  }

  function PopThen(st: State, p: int): Outcome {
    if st.stack == [] then Crash else Go(st.(stack := st.stack[..|st.stack| - 1], p := p))
  }

  function PushThen(cfg: Config, st: State, pat: Place, str: nat, p: int): Outcome {
    match Push(cfg, st, pat, str)
    case None => NoRoom(cfg, st)
    case Some(st') => Go(st'.(p := p))
  }

  function Execute(code: seq<byte>, cfg: Config, st: State): Outcome
    requires 0 <= st.p < |code|
  {
    match Fetch(code, st.p)
    case StartMem(reg, _) => Go(StartGroup(st, reg))
    case StopMem(reg, _) =>
      var st' := StopGroup(st, reg);
      (match LoopAround(code, st', st.p, reg)
       case None => Go(st'.(p := st.p + 3))
       case Some(head) =>
         (match Push(cfg, st', At(JumpTarget(code, head)), st.d)
          case None => NoRoom(cfg, st')
          case Some(st'') => Fail(code, cfg, st'')))
    case OnFail(target) => PushThen(cfg, CoverGroup(code, st, st.p + 3), At(target), st.d, st.p + 3)
    case PushDummy => PushThen(cfg, st, Null, 0, st.p + 1)
    case Goto(kind, target) =>
      (match kind
       case DummyFailure => PushThen(cfg, st, Null, 0, target)
       case PopFailure => PopThen(st, target)
       case MaybePop => if Decide(code, st.p) then PopThen(st, target) else Go(st.(p := target))
       case _ => Go(st.(p := target)))
    case Bad => Crash
    case i =>
      // the commands that match text, or test a position
      (match Moves(code, cfg.env, st.p, st.d)
       case To(p, d) =>
         var info := if i.BegLine? || i.EndLine? || i.NoOp? then st.info else MarkMatched(st.info, st.low, st.high);
         Go(st.(p := p, d := d, info := info))
       case _ => Fail(code, cfg, st))
  }

  function Step(code: seq<byte>, cfg: Config, st: State): Outcome {
    if st.p == |code| then AtEnd(code, cfg, st)
    else if 0 <= st.p < |code| then Execute(code, cfg, st)
    else Crash
  }

  // What the step writes into the program: maybe_pop_jump becomes pop_failure_jump or jump.
  function Rewritten(code: seq<byte>, p: int): (code': seq<byte>)
    ensures |code'| == |code|
  {
    if 0 <= p < |code| && code[p] == MAYBE_POP_JUMP then
      code[p := if Decide(code, p) then POP_FAILURE_JUMP else JUMP]
    else code
  }

  function Start(cfg: Config): Outcome {
    if cfg.pos > |cfg.env.text| then Done(-1)
    else Go(State(0, cfg.pos, [], INIT_FAILURE_ALLOC, NO_LOWEST_ACTIVE_REG, NO_HIGHEST_ACTIVE_REG,
                  seq(cfg.nsub + 1, _ => IDLE), None))
  }

  // At most n steps on a program that is never rewritten.
  function Run(code: seq<byte>, cfg: Config, o: Outcome, n: nat): Outcome
    decreases n
  {
    if n == 0 || !o.Go? then o else Run(code, cfg, Step(code, cfg, o.st), n - 1)
  }

  // At most n steps, each rewriting the program as it goes.
  function RunRewriting(code: seq<byte>, cfg: Config, o: Outcome, n: nat): (Outcome, seq<byte>)
    decreases n
  {
    if n == 0 || !o.Go? then (o, code)
    else RunRewriting(Rewritten(code, o.st.p), cfg, Step(code, cfg, o.st), n - 1)
  }

  // The value re_match_2 returns within n steps, or Go when n steps do not suffice.
  function Match(code: seq<byte>, cfg: Config, n: nat): Outcome {
    Run(code, cfg, Start(cfg), n)
  }
}
