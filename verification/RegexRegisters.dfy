// The register bounds over whole runs.  Registers are unsigned words in re_match_2: a push with the lowest
// active register past the highest by more than one asks for another room than it fills.  On programs
// whose registers stay in step that never happens, whatever the text.
module RegexRegisters {
  import opened Bytes
  import opened RegexTree
  import opened RegexCode
  import opened RegexResid
  import opened RegexDepth
  import opened RegexMachine
  import opened Wrappers
  import opened RegexSound
  import opened RegexDecide
  import opened RegexGroups
  import opened RegexOpen
  import opened RegexFirm

  // ---- What a push asks for ----

  // The sentinels are the only numbers past those of the groups ...
  predicate Counted(low: nat, high: nat, n: nat) {
    && 1 <= low && high <= 2 * MAX_REGNUM
    && (high <= n || (low == NO_LOWEST_ACTIVE_REG && high == NO_HIGHEST_ACTIVE_REG))
  }

  // ... and the lowest is at most one past the highest.
  predicate Bounded(low: nat, high: nat, n: nat) {
    Counted(low, high, n) && low <= high + 1
  }

  // A push asks for exactly what it stores just when the lowest register is at most one past the highest.
  lemma {:induction false} AsksWhatItStores(cfg: Config, st: State, pat: Place, str: nat)
    requires st.low <= WORD / 4 && st.high <= WORD / 4
    ensures var f := Frame(pat, str, st.low, st.high, Saved(st.info, st.low, st.high));
      Asked(st.low, st.high) == Items(f) <==> st.low <= st.high + 1
  {
  }

  lemma {:induction false} GrownEnough(size: nat, need: nat, limit: nat)
    ensures var g := Grown(size, need, limit); g.Some? ==> g.value >= need
    decreases need - size
  {
    if size < need && size > 0 { GrownEnough(2 * size, need, limit); }
  }

  // So a push writes past the end of the stack only with the lowest register further past the highest.
  lemma {:induction false} RoomForAll(cfg: Config, st: State, pat: Place, str: nat)
    requires st.low <= st.high + 1 <= WORD / 4
    ensures var o := Push(cfg, st, pat, str);
      && (o == None ==> NoRoom(cfg, st) == Done(-2))
      && (o.Some? ==> Avail(o.value.stack) <= o.value.size)
  {
    hide Avail, Saved, Grown;
    var f := Frame(pat, str, st.low, st.high, Saved(st.info, st.low, st.high));
    AsksWhatItStores(cfg, st, pat, str);
    GrownEnough(st.size, Avail(st.stack) + Asked(st.low, st.high), MostItems(cfg));
    AvailPush(st.stack, f);
  }

  lemma {:induction false} AvailPush(stack: seq<Frame>, f: Frame)
    ensures Avail(stack + [f]) == Avail(stack) + Items(f)
  {
    var s := stack + [f];
    assert s[..|s| - 1] == stack;
  }

  // ---- Where a push past the end comes from, on any program ----

  predicate Named(low: nat, high: nat) {
    low <= NO_LOWEST_ACTIVE_REG && high <= 2 * MAX_REGNUM
  }

  // The stack fits its array, and register numbers come from single bytes.
  predicate Held(st: State) {
    Avail(st.stack) <= st.size && Named(st.low, st.high) && forall f <- st.stack :: Named(f.low, f.high)
  }

  // The state whose registers the next command saves, if it pushes at all.
  function Pushing(code: seq<byte>, st: State): Option<State> {
    if !(0 <= st.p < |code|) then None
    else
      match Fetch(code, st.p)
      case StopMem(reg, _) =>
        if LoopAround(code, StopGroup(st, reg), st.p, reg).Some? then Some(StopGroup(st, reg)) else None
      case OnFail(_) => Some(CoverGroup(code, st, st.p + 3))
      case PushDummy => Some(st)
      case Goto(kind, _) => if kind.DummyFailure? then Some(st) else None
      case _ => None
  }

  // The next command pushes with the lowest register more than one past the highest.
  predicate Strays(code: seq<byte>, st: State) {
    Pushing(code, st).Some? && Pushing(code, st).value.low > Pushing(code, st).value.high + 1
  }

  predicate HeldOutcome(o: Outcome) {
    o.Go? ==> Held(o.st)
  }

  lemma {:induction false} PopHeld(stack: seq<Frame>)
    requires stack != []
    ensures var n := |stack| - 1;
      && Avail(stack[..n]) <= Avail(stack)
      && ((forall f <- stack :: Named(f.low, f.high)) ==>
            Named(stack[n].low, stack[n].high) && forall f <- stack[..n] :: Named(f.low, f.high))
  {
  }

  lemma {:induction false} FailHeld(code: seq<byte>, cfg: Config, st: State)
    requires Held(st)
    ensures HeldOutcome(Fail(code, cfg, st)) && Fail(code, cfg, st) != Overrun
    decreases |st.stack|
  {
    hide Avail, Named, LoopJumpAt;
    if st.stack != [] {
      PopHeld(st.stack);
      var f := st.stack[|st.stack| - 1];
      var st' := st.(stack := st.stack[..|st.stack| - 1], low := f.low, high := f.high,
                     info := Restored(st.info, f.low, f.saved));
      match f.pat
      case Null => FailHeld(code, cfg, st');
      case At(p) => FailHeld(code, cfg, st'.(p := p, d := f.str));
    }
  }

  lemma {:induction false} PushHeld(cfg: Config, st: State, pat: Place, str: nat)
    requires Held(st)
    ensures var o := Push(cfg, st, pat, str);
      && (o.Some? ==> Held(o.value))
      && (o == None && NoRoom(cfg, st) == Overrun ==> st.low > st.high + 1)
  {
    hide Avail, Grown, Saved;
    var f := Frame(pat, str, st.low, st.high, Saved(st.info, st.low, st.high));
    AvailPush(st.stack, f);
    if st.low <= st.high + 1 { RoomForAll(cfg, st, pat, str); }
  }

  lemma {:induction false} StopNamed(st: State, reg: byte)
    requires Held(st)
    ensures Held(StopGroup(st, reg))
  {
    var info := WithInfo(st.info, reg, InfoOf(st.info, reg).(active := false));
    BelowIsLower(info, reg);
  }

  lemma {:induction false} CoverNamed(code: seq<byte>, st: State, p: nat)
    requires Held(st)
    ensures Held(CoverGroup(code, st, p))
  {
    hide Avail;
  }

  // Any command, of any program: the stack goes on fitting its array, unless the command strays.
  lemma {:induction false} ExecuteHeld(code: seq<byte>, cfg: Config, st: State)
    requires Held(st) && 0 <= st.p < |code|
    ensures HeldOutcome(Execute(code, cfg, st)) && (Execute(code, cfg, st) == Overrun ==> Strays(code, st))
  {
    hide Fetch, Avail, Named, Push, Widened, Fail, Moves, MarkMatched, StopGroup, CoverGroup, LoopAround, Decide;
    match Fetch(code, st.p)
    case StartMem(reg, inner) => StartHeld(st, reg);
    case StopMem(reg, inner) =>
      var st' := StopGroup(st, reg);
      StopNamed(st, reg);
      match LoopAround(code, st', st.p, reg) {
        case None =>
        case Some(head) =>
          PushHeld(cfg, st', RegexMachine.At(JumpTarget(code, head)), st.d);
          var o := Push(cfg, st', RegexMachine.At(JumpTarget(code, head)), st.d);
          if o.Some? { FailHeld(code, cfg, o.value); }
      }
    case OnFail(target) =>
      CoverNamed(code, st, st.p + 3);
      PushHeld(cfg, CoverGroup(code, st, st.p + 3), RegexMachine.At(target), st.d);
    case PushDummy => PushHeld(cfg, st, Null, 0);
    case Goto(kind, target) =>
      PushHeld(cfg, st, Null, 0);
      if st.stack != [] { PopHeld(st.stack); }
    case Bad =>
    case _ => FailHeld(code, cfg, st);
  }

  lemma {:induction false} StartHeld(st: State, reg: byte)
    requires Held(st)
    ensures Held(StartGroup(st, reg))
  {
    hide Avail;
  }

  lemma {:induction false} StepHeld(code: seq<byte>, cfg: Config, st: State)
    requires Held(st)
    ensures HeldOutcome(Step(code, cfg, st)) && (Step(code, cfg, st) == Overrun ==> Strays(code, st))
  {
    hide Held, Execute, Fail, Strays;
    if st.p == |code| {
      var longer := st.best.None? || st.d > st.best.value;
      BestHeld(st, Some(st.d));
      FailHeld(code, cfg, if longer then st.(best := Some(st.d)) else st);
    } else if 0 <= st.p < |code| {
      ExecuteHeld(code, cfg, st);
    }
  }

  lemma {:induction false} BestHeld(st: State, best: Option<nat>)
    requires Held(st)
    ensures Held(st.(best := best))
  {
    hide Avail, Named;
  }

  lemma {:induction false} OneMoreStep(code: seq<byte>, cfg: Config, o: Outcome, n: nat)
    ensures var r := Run(code, cfg, o, n); Run(code, cfg, o, n + 1) == if r.Go? then Step(code, cfg, r.st) else r
    decreases n
  {
    hide Step;
    if n > 0 && o.Go? { OneMoreStep(code, cfg, Step(code, cfg, o.st), n - 1); }
  }

  // The step after n steps is a push that strays.
  predicate StraysAfter(code: seq<byte>, cfg: Config, n: nat) {
    Match(code, cfg, n).Go? && Strays(code, Match(code, cfg, n).st)
  }

  // Some push strayed within n steps.
  predicate Strayed(code: seq<byte>, cfg: Config, n: nat) {
    exists k: nat :: k < n && StraysAfter(code, cfg, k)
  }

  // On every program, text and run: until a push strays the stack fits its array, and only a push that strays
  // writes past its end.
  lemma {:induction false} OverrunStrays(code: seq<byte>, cfg: Config, n: nat)
    ensures HeldOutcome(Match(code, cfg, n))
    ensures Match(code, cfg, n) == Overrun ==> Strayed(code, cfg, n)
    decreases n
  {
    hide Held, Step, Start, Strays;
    if n == 0 {
      StartsHeld(cfg);
    } else {
      var k: nat := n - 1;
      OverrunStrays(code, cfg, k);
      OneMoreStep(code, cfg, Start(cfg), k);
      if Match(code, cfg, k).Go? {
        StepHeld(code, cfg, Match(code, cfg, k).st);
        if Match(code, cfg, n) == Overrun { assert StraysAfter(code, cfg, k); }
      }
    }
  }

  lemma {:induction false} StartsHeld(cfg: Config)
    ensures HeldOutcome(Start(cfg)) && Start(cfg) != Overrun
  {
  }

  // ---- The registers at a place ----

  // A place in a program: the groups open, the firm groups begun, how many are firm, and whether the first
  // group that is not firm holds no group.
  datatype Here = Here(e: seq<nat>, seen: nat, firm: nat, plain: bool)

  function HereAt(t: Re, p: int): Here {
    if 0 <= p <= Len(t) then Here(Open(t, p), Seen(t, p), Firm(t), InnerOf(t, 0, Firm(t) + 1) == 0)
    else Here([], 0, 0, false)
  }

  predicate IsAt(t: Re, p: int, h: Here) {
    0 <= p <= Len(t) && HereAt(t, p) == h
  }

  // The firm groups that are over.
  function Over(h: Here): set<nat> {
    set x: nat | 1 <= x <= h.seen && x !in h.e
  }

  // None active; or low is at most one past the firm groups begun, or one more where the first group that is not
  // firm is plain, and the open groups lie between low and high; or a single register is active, that of the
  // one group open.
  predicate Shape(low: nat, high: nat, h: Here, n: nat) {
    || (low == NO_LOWEST_ACTIVE_REG && high == NO_HIGHEST_ACTIVE_REG && h.e == [])
    || (1 <= low <= high + 1 && high <= n && high <= 2 * MAX_REGNUM
        && (low <= h.seen + 1 || (low == h.firm + 2 && h.seen == h.firm && h.plain))
        && (h.e != [] ==> h.e[|h.e| - 1] <= high && (low <= h.e[0] || (low == h.firm + 2 && h.e == [h.firm + 1]))))
    || (low == high && h.firm + 2 < low <= MAX_REGNUM && high <= n && h.e == [low])
  }

  lemma {:induction false} ShapeBounds(low: nat, high: nat, h: Here, n: nat)
    requires Shape(low, high, h, n)
    ensures Bounded(low, high, n)
  {
  }

  // The open groups from low on are active.
  predicate Lively(info: seq<RegInfo>, low: nat, e: seq<nat>) {
    forall i :: 0 <= i < |e| && e[i] >= low ==> InfoOf(info, e[i]).active
  }

  // Groups that are over are not.
  predicate Resting(info: seq<RegInfo>, over: set<nat>) {
    forall x <- over :: !InfoOf(info, x).active
  }

  ghost predicate Tracks(t: Re, n: nat, p: int, low: nat, high: nat, info: seq<RegInfo>) {
    var h := HereAt(t, p);
    && 0 <= p <= Len(t) && |info| == n + 1
    && Shape(low, high, h, n) && Lively(info, low, h.e) && Resting(info, Over(h))
  }

  predicate SavedLively(saved: seq<RegInfo>, low: nat, e: seq<nat>) {
    forall i :: 0 <= i < |e| && e[i] >= low ==> InfoOf(saved, e[i] - low).active
  }

  predicate SavedResting(saved: seq<RegInfo>, low: nat, over: set<nat>) {
    forall x <- over :: low <= x < low + |saved| ==> !saved[x - low].active
  }

  // A failure point saves the registers of its place.
  ghost predicate FrameTracks(t: Re, n: nat, f: Frame) {
    && Bounded(f.low, f.high, n) && |f.saved| == RegCount(f.low, f.high)
    && (f.pat.At? ==>
          var h := HereAt(t, f.pat.p);
          && 0 <= f.pat.p <= Len(t) && Shape(f.low, f.high, h, n)
          && SavedLively(f.saved, f.low, h.e) && SavedResting(f.saved, f.low, Over(h)))
  }

  ghost predicate StackTracks(t: Re, n: nat, stack: seq<Frame>) {
    forall i :: 0 <= i < |stack| ==> FrameTracks(t, n, stack[i])
  }

  // The groups over at a failure point's place.
  function OverAt(t: Re, f: Frame): set<nat> {
    if f.pat.At? then Over(HereAt(t, f.pat.p)) else {}
  }

  // What is over at the places of the stack is among these, or rests in these registers, or in those saved.
  predicate Behind(t: Re, stack: seq<Frame>, over: set<nat>) {
    forall i :: 0 <= i < |stack| ==> OverAt(t, stack[i]) <= over
  }

  predicate AllResting(t: Re, stack: seq<Frame>, info: seq<RegInfo>) {
    forall i :: 0 <= i < |stack| ==> Resting(info, OverAt(t, stack[i]))
  }

  predicate AllSavedResting(t: Re, stack: seq<Frame>, saved: seq<RegInfo>, low: nat) {
    forall i :: 0 <= i < |stack| ==> SavedResting(saved, low, OverAt(t, stack[i]))
  }

  // A failure point on top of others: it rests what is over at their places, and its own place comes after them.
  predicate LaidOn(t: Re, stack: seq<Frame>, f: Frame) {
    AllSavedResting(t, stack, f.saved, f.low) && (f.pat.At? ==> Behind(t, stack, OverAt(t, f)))
  }

  predicate Layered(t: Re, stack: seq<Frame>) {
    var k := |stack| - 1;
    stack == [] || (Layered(t, stack[..k]) && LaidOn(t, stack[..k], stack[k]))
  }

  // The failure points are in step with one another.
  ghost predicate Stacked(t: Re, n: nat, stack: seq<Frame>) {
    StackTracks(t, n, stack) && Layered(t, stack)
  }

  // What every step keeps.
  ghost predicate Steady(t: Re, cfg: Config, st: State) {
    && Tracks(t, cfg.nsub, st.p, st.low, st.high, st.info)
    && Stacked(t, cfg.nsub, st.stack) && Behind(t, st.stack, Over(HereAt(t, st.p)))
    && Avail(st.stack) <= st.size
  }

  ghost predicate SteadyOutcome(t: Re, cfg: Config, o: Outcome) {
    match o
    case Go(st) => Steady(t, cfg, st)
    case Done(_) => true
    case Crash => true
    case Overrun => false
  }

  // Programs whose registers stay in step, with as many registers as groups.
  ghost predicate InStep(t: Re, n: nat) {
    Numbered(t, 0) && Groups(t) <= n && Tame(t)
  }

  // ---- The stack ----

  lemma {:induction false} StackTop(t: Re, n: nat, stack: seq<Frame>)
    requires Stacked(t, n, stack) && stack != []
    ensures var k := |stack| - 1;
      && Stacked(t, n, stack[..k]) && FrameTracks(t, n, stack[k]) && LaidOn(t, stack[..k], stack[k])
      && Avail(stack) == Avail(stack[..k]) + Items(stack[k])
  {
    hide FrameTracks, LaidOn;
    var s := stack[..|stack| - 1];
    forall i | 0 <= i < |s| ensures FrameTracks(t, n, s[i]) { assert s[i] == stack[i]; }
  }

  lemma {:induction false} StackMore(t: Re, n: nat, stack: seq<Frame>, f: Frame)
    requires Stacked(t, n, stack) && FrameTracks(t, n, f) && LaidOn(t, stack, f)
    ensures Stacked(t, n, stack + [f])
  {
    hide FrameTracks, LaidOn;
    var s := stack + [f];
    forall i | 0 <= i < |s| ensures FrameTracks(t, n, s[i]) {
      if i < |stack| { assert s[i] == stack[i]; }
    }
    assert s[..|s| - 1] == stack;
  }

  lemma {:induction false} BehindTop(t: Re, stack: seq<Frame>, over: set<nat>)
    requires Behind(t, stack, over) && stack != []
    ensures Behind(t, stack[..|stack| - 1], over)
  {
    hide OverAt;
    var s := stack[..|stack| - 1];
    forall i | 0 <= i < |s| ensures OverAt(t, s[i]) <= over { assert s[i] == stack[i]; }
  }

  lemma {:induction false} BehindMore(t: Re, stack: seq<Frame>, f: Frame, over: set<nat>)
    requires Behind(t, stack, over) && OverAt(t, f) <= over
    ensures Behind(t, stack + [f], over)
  {
    hide OverAt;
    var s := stack + [f];
    forall i | 0 <= i < |s| ensures OverAt(t, s[i]) <= over {
      if i < |stack| { assert s[i] == stack[i]; }
    }
  }

  lemma {:induction false} BehindWider(t: Re, stack: seq<Frame>, over: set<nat>, more: set<nat>)
    requires Behind(t, stack, over) && over <= more
    ensures Behind(t, stack, more)
  {
    hide OverAt;
  }

  lemma {:induction false} BehindRests(t: Re, stack: seq<Frame>, over: set<nat>, info: seq<RegInfo>)
    requires Behind(t, stack, over) && Resting(info, over)
    ensures AllResting(t, stack, info)
  {
    hide OverAt, InfoOf;
  }

  // What is saved of lively registers is lively, and what rests is saved resting.
  lemma {:induction false} SavedFrom(info: seq<RegInfo>, low: nat, high: nat, h: Here, n: nat)
    requires Shape(low, high, h, n) && Lively(info, low, h.e) && Rising(h.e, 0, n)
    ensures SavedLively(Saved(info, low, high), low, h.e)
  {
    var e := h.e;
    if e != [] { RisingBounds(e, 0, n); }
    var s := Saved(info, low, high);
    forall i | 0 <= i < |e| && e[i] >= low ensures InfoOf(s, e[i] - low).active {
      assert e[i] <= high;
      assert s[e[i] - low] == InfoOf(info, low + (e[i] - low));
    }
  }

  lemma {:induction false} SavedRests(info: seq<RegInfo>, low: nat, high: nat, over: set<nat>)
    requires Resting(info, over)
    ensures SavedResting(Saved(info, low, high), low, over)
  {
    var s := Saved(info, low, high);
    forall x <- over | low <= x < low + |s| ensures !s[x - low].active {
      assert s[x - low] == InfoOf(info, low + (x - low));
    }
  }

  lemma {:induction false} SavedRestsAll(t: Re, stack: seq<Frame>, info: seq<RegInfo>, low: nat, high: nat)
    requires AllResting(t, stack, info)
    ensures AllSavedResting(t, stack, Saved(info, low, high), low)
  {
    hide OverAt, Resting, SavedResting;
    forall i | 0 <= i < |stack| ensures SavedResting(Saved(info, low, high), low, OverAt(t, stack[i])) {
      SavedRests(info, low, high, OverAt(t, stack[i]));
    }
  }

  // And so it comes back.
  lemma {:induction false} RestoredLively(n: nat, info: seq<RegInfo>, f: Frame, h: Here)
    requires |info| == n + 1 && |f.saved| == RegCount(f.low, f.high) && Rising(h.e, 0, n)
    requires Shape(f.low, f.high, h, n) && SavedLively(f.saved, f.low, h.e)
    ensures |Restored(info, f.low, f.saved)| == n + 1 && Lively(Restored(info, f.low, f.saved), f.low, h.e)
  {
    var e := h.e;
    if e != [] { RisingBounds(e, 0, n); }
    var s := Restored(info, f.low, f.saved);
    forall i | 0 <= i < |e| && e[i] >= f.low ensures InfoOf(s, e[i]).active {
      assert e[i] < |info| && s[e[i]] == f.saved[e[i] - f.low];
    }
  }

  lemma {:induction false} RestoredRests(info: seq<RegInfo>, low: nat, saved: seq<RegInfo>, over: set<nat>)
    requires Resting(info, over) && SavedResting(saved, low, over)
    ensures Resting(Restored(info, low, saved), over)
  {
    var s := Restored(info, low, saved);
    forall x <- over ensures !InfoOf(s, x).active {
      if x < |info| { assert s[x] == if low <= x < low + |saved| then saved[x - low] else info[x]; }
    }
  }

  // The stack below a failure point given up.
  lemma {:induction false} RestoredRestsAll(t: Re, stack: seq<Frame>, f: Frame, info: seq<RegInfo>)
    requires AllResting(t, stack + [f], info) && LaidOn(t, stack, f)
    ensures AllResting(t, stack, Restored(info, f.low, f.saved)) && Resting(info, OverAt(t, f))
  {
    hide OverAt, Resting, SavedResting, Restored, Behind;
    var s := stack + [f];
    forall i | 0 <= i < |stack| ensures Resting(Restored(info, f.low, f.saved), OverAt(t, stack[i])) {
      assert s[i] == stack[i];
      RestoredRests(info, f.low, f.saved, OverAt(t, stack[i]));
    }
    assert s[|stack|] == f;
  }

  lemma {:induction false} OpenInStep(t: Re, n: nat, p: int)
    requires InStep(t, n) && 0 <= p <= Len(t)
    ensures Rising(HereAt(t, p).e, 0, n)
  {
    hide Open, Len, Numbered, Tame, Seen;
    OpenRises(t, 0, p);
    RisesWider(Open(t, p), 0, Groups(t), 0, n);
  }

  lemma {:induction false} FrameOfPush(t: Re, n: nat, pat: Place, str: nat, low: nat, high: nat, info: seq<RegInfo>)
    requires InStep(t, n) && Bounded(low, high, n)
    requires pat.At? ==> Tracks(t, n, pat.p, low, high, info)
    ensures FrameTracks(t, n, Frame(pat, str, low, high, Saved(info, low, high)))
  {
    hide Len, HereAt, Shape, Lively, SavedLively, Resting, SavedResting, Over, InStep, Saved, Bounded, Rising;
    if pat.At? {
      OpenInStep(t, n, pat.p);
      SavedFrom(info, low, high, HereAt(t, pat.p), n);
      SavedRests(info, low, high, Over(HereAt(t, pat.p)));
    }
  }

  // A push where the registers are in step: refused for want of room, or the stack stays in step.
  lemma {:induction false} PushSteady(t: Re, cfg: Config, st: State, pat: Place, str: nat, over: set<nat>)
    requires InStep(t, cfg.nsub) && Stacked(t, cfg.nsub, st.stack) && Bounded(st.low, st.high, cfg.nsub)
    requires Behind(t, st.stack, over) && Resting(st.info, over)
    requires pat.At? ==> Tracks(t, cfg.nsub, pat.p, st.low, st.high, st.info) && Over(HereAt(t, pat.p)) == over
    ensures var o := Push(cfg, st, pat, str);
      && (o == None ==> NoRoom(cfg, st) == Done(-2))
      && (o.Some? ==>
            && Stacked(t, cfg.nsub, o.value.stack) && Behind(t, o.value.stack, over)
            && Avail(o.value.stack) <= o.value.size
            && o.value == st.(stack := o.value.stack, size := o.value.size))
  {
    hide Stacked, Behind, Avail, Widened, NoRoom, Saved, HereAt, Over, Tracks, InStep, FrameTracks, Resting,
      AllSavedResting, AllResting, SavedResting;
    var f := Frame(pat, str, st.low, st.high, Saved(st.info, st.low, st.high));
    RoomForAll(cfg, st, pat, str);
    FrameOfPush(t, cfg.nsub, pat, str, st.low, st.high, st.info);
    BehindRests(t, st.stack, over, st.info);
    SavedRestsAll(t, st.stack, st.info, st.low, st.high);
    StackMore(t, cfg.nsub, st.stack, f);
    BehindMore(t, st.stack, f, over);
  }

  lemma {:induction false} PushThenSteady(t: Re, cfg: Config, st: State, pat: Place, str: nat, p: int, h: Here)
    requires InStep(t, cfg.nsub) && Stacked(t, cfg.nsub, st.stack) && Behind(t, st.stack, Over(h))
    requires pat.At? ==> Tracks(t, cfg.nsub, pat.p, st.low, st.high, st.info) && IsAt(t, pat.p, h)
    requires Tracks(t, cfg.nsub, p, st.low, st.high, st.info) && IsAt(t, p, h)
    ensures SteadyOutcome(t, cfg, PushThen(cfg, st, pat, str, p))
  {
    hide Stacked, Behind, Avail, NoRoom, HereAt, Over, Len, Shape, Lively, Resting, Push, InStep, Bounded;
    ShapeBounds(st.low, st.high, h, cfg.nsub);
    PushSteady(t, cfg, st, pat, str, Over(h));
  }

  lemma {:induction false} FailSteady(code: seq<byte>, t: Re, cfg: Config, st: State)
    requires InStep(t, cfg.nsub) && Stacked(t, cfg.nsub, st.stack) && Avail(st.stack) <= st.size
    requires |st.info| == cfg.nsub + 1 && AllResting(t, st.stack, st.info)
    ensures SteadyOutcome(t, cfg, Fail(code, cfg, st))
    decreases |st.stack|
  {
    hide Stacked, Avail, Len, Tracks, LaidOn, LoopJumpAt, InStep, FrameTracks, Items, AllResting, Resting, OverAt,
      Restored, HereAt, Over;
    if st.stack != [] {
      var s := st.stack[..|st.stack| - 1];
      var f := st.stack[|st.stack| - 1];
      assert s + [f] == st.stack;
      StackTop(t, cfg.nsub, st.stack);
      RestoredRestsAll(t, s, f, st.info);
      RestoredTracks(t, cfg.nsub, s, f, st.info);
      var st' := st.(stack := s, low := f.low, high := f.high, info := Restored(st.info, f.low, f.saved));
      match f.pat
      case Null => FailSteady(code, t, cfg, st');
      case At(p) => FailSteady(code, t, cfg, st'.(p := p, d := f.str));
    }
  }

  lemma {:induction false} RestoredTracks(t: Re, n: nat, stack: seq<Frame>, f: Frame, info: seq<RegInfo>)
    requires InStep(t, n) && |info| == n + 1 && FrameTracks(t, n, f) && LaidOn(t, stack, f)
    requires Resting(info, OverAt(t, f))
    ensures var info' := Restored(info, f.low, f.saved);
      && |info'| == n + 1
      && (f.pat.At? ==>
            && Tracks(t, n, f.pat.p, f.low, f.high, info') && Behind(t, stack, Over(HereAt(t, f.pat.p))))
  {
    hide Len, HereAt, Shape, Lively, SavedLively, Resting, SavedResting, Over, InStep, Bounded, Rising, Behind,
      AllSavedResting, RegCount;
    if f.pat.At? {
      var h := HereAt(t, f.pat.p);
      OpenInStep(t, n, f.pat.p);
      RestoredLively(n, info, f, h);
      RestoredRests(info, f.low, f.saved, Over(h));
    }
  }

  // ---- Group commands ----

  // Where group reg begins, with `inner' groups in it.
  predicate Begins(reg: nat, inner: nat, h: Here, n: nat) {
    && 1 <= reg <= MAX_REGNUM && reg + inner <= n && inner <= MAX_REGNUM
    && (h.e != [] ==> h.e[|h.e| - 1] < reg)
    && (h.e == [h.firm + 1] ==> !h.plain) && (h.e == [] && reg == h.firm + 2 ==> h.plain)
    && (if reg <= h.firm then reg == h.seen + 1 else h.seen == h.firm)
  }

  function Begun(h: Here, reg: nat): Here {
    h.(e := h.e + [reg], seen := if reg <= h.firm then h.seen + 1 else h.seen)
  }

  lemma {:induction false} StartShape(low: nat, high: nat, h: Here, n: nat, reg: nat, inner: nat)
    requires Shape(low, high, h, n) && Rising(h.e, 0, n)
    requires Begins(reg, inner, h, n) && (h.e != [] ==> h.e[0] <= h.firm + 2)
    ensures Shape(if low == NO_LOWEST_ACTIVE_REG then reg else low, reg, Begun(h, reg), n)
  {
    hide Rising;
    if h.e != [] { RisingBounds(h.e, 0, n); }
    var e' := h.e + [reg];
    assert e'[|e'| - 1] == reg && (h.e != [] ==> e'[0] == h.e[0]);
  }

  lemma {:induction false} StartLively(info: seq<RegInfo>, low: nat, h: Here, reg: nat)
    requires Lively(info, low, h.e) && Resting(info, Over(h)) && reg < |info| && forall x <- h.e :: x < reg
    requires if reg <= h.firm then reg == h.seen + 1 else h.seen == h.firm
    ensures var info', h' := WithInfo(info, reg, RegInfo(true, false)), Begun(h, reg);
      && Lively(info', if low == NO_LOWEST_ACTIVE_REG then reg else low, h'.e)
      && Resting(info', Over(h')) && Over(h) <= Over(h')
  {
    var info', h' := WithInfo(info, reg, RegInfo(true, false)), Begun(h, reg);
    assert h'.e[|h.e|] == reg && forall i :: 0 <= i < |h.e| ==> h'.e[i] == h.e[i] && h.e[i] in h.e;
    forall i | 0 <= i < |h'.e| && h'.e[i] >= (if low == NO_LOWEST_ACTIVE_REG then reg else low)
      ensures InfoOf(info', h'.e[i]).active
    {
      if i < |h.e| { assert InfoOf(info, h.e[i]).active; }
    }
    forall x | x in h'.e ensures x in h.e || x == reg { }
    forall x <- Over(h') ensures x in Over(h) { }
    forall x <- Over(h) ensures x in Over(h') { }
  }

  // Before a group, the registers saved are those of the group as well.
  lemma {:induction false} CoverShape(low: nat, high: nat, h: Here, n: nat, reg: nat, inner: nat)
    requires Shape(low, high, h, n) && Rising(h.e, 0, n) && Begins(reg, inner, h, n) && Mild(reg, h.e, h.firm + 2)
    ensures Shape(if low == NO_LOWEST_ACTIVE_REG then reg else low, reg + inner, h, n)
  {
    hide Rising;
    if h.e != [] { RisingBounds(h.e, 0, n); }
  }

  lemma {:induction false} CoverLively(info: seq<RegInfo>, low: nat, e: seq<nat>, reg: nat)
    requires Lively(info, low, e) && forall x <- e :: x < reg
    ensures Lively(info, if low == NO_LOWEST_ACTIVE_REG then reg else low, e)
  {
    hide InfoOf;
    assert forall i :: 0 <= i < |e| ==> e[i] in e;
  }

  // The open groups lie below one that begins.
  lemma {:induction false} Beneath(e: seq<nat>, n: nat, reg: nat)
    requires Rising(e, 0, n) && (e != [] ==> e[|e| - 1] < reg)
    ensures forall x <- e :: x < reg
  {
    hide Rising;
    if e != [] { RisingBounds(e, 0, n); }
  }

  lemma {:induction false} ActiveBelowFinds(info: seq<RegInfo>, r: nat, x: nat)
    requires 0 < x < r && InfoOf(info, x).active
    ensures x <= ActiveBelow(info, r)
  {
    if x < r - 1 { ActiveBelowFinds(info, r - 1, x); }
  }

  lemma {:induction false} BelowIsLower(info: seq<RegInfo>, r: nat)
    ensures var x := ActiveBelow(info, r); (r > 0 ==> x < r) && (x > 0 ==> InfoOf(info, x).active)
  {
    if r > 0 { BelowIsLower(info, r - 1); }
  }

  // A place with groups open, and the next once the innermost is closed.
  function Ended(h: Here): Here
    requires h.e != []
  {
    h.(e := h.e[..|h.e| - 1])
  }

  lemma {:induction false} StopLively(info: seq<RegInfo>, low: nat, h: Here, n: nat, reg: nat)
    requires h.e != [] && h.e[|h.e| - 1] == reg && Rising(h.e, 0, n)
    requires Lively(info, low, h.e) && Resting(info, Over(h))
    ensures var info' := WithInfo(info, reg, InfoOf(info, reg).(active := false));
      && Lively(info', low, Ended(h).e) && Resting(info', Over(Ended(h))) && Over(h) <= Over(Ended(h))
  {
    hide Rising;
    var info', e, e' := WithInfo(info, reg, InfoOf(info, reg).(active := false)), h.e, Ended(h).e;
    RisingBounds(e, 0, n);
    forall i | 0 <= i < |e'| && e'[i] >= low ensures InfoOf(info', e'[i]).active { assert e'[i] == e[i]; }
    assert e == e' + [reg];
    forall x <- Over(Ended(h)) ensures !InfoOf(info', x).active {
      if x != reg { assert x !in e && x in Over(h); }
    }
    forall x <- Over(h) ensures x in Over(Ended(h)) { assert x !in e; }
  }

  // Closing the innermost group: what is left open is still covered.
  lemma {:induction false} StopShape(low: nat, high: nat, info: seq<RegInfo>, h: Here, n: nat, reg: nat)
    requires h.e != [] && h.e[|h.e| - 1] == reg && Rising(h.e, 0, n) && Shape(low, high, h, n)
    requires Lively(info, low, Ended(h).e) && Resting(info, Over(Ended(h)))
    ensures var r := if low == high then 0 else ActiveBelow(info, reg);
      if r == 0 then Ended(h).e == [] else Shape(low, r, Ended(h), n)
  {
    hide Rising, Over, Lively, Resting, ActiveBelow;
    var e, e' := h.e, Ended(h).e;
    RisingBounds(e, 0, n);
    if low != high {
      var r := ActiveBelow(info, reg);
      BelowIsLower(info, reg);
      if e' != [] {
        assert e'[0] == e[0] && e'[|e'| - 1] == e[|e| - 2];
        LastFound(info, low, e', reg);
      }
      if 0 < r < low - 1 { FirmFound(info, Ended(h), n, r); }
    }
  }

  // Among the registers below reg, the innermost group left open is found ...
  lemma {:induction false} LastFound(info: seq<RegInfo>, low: nat, e: seq<nat>, reg: nat)
    requires e != [] && Lively(info, low, e) && low <= e[|e| - 1] < reg && e[|e| - 1] > 0
    ensures e[|e| - 1] <= ActiveBelow(info, reg)
  {
    hide InfoOf, ActiveBelow;
    ActiveBelowFinds(info, reg, e[|e| - 1]);
  }

  // ... and a firm group only where it is open.
  lemma {:induction false} FirmFound(info: seq<RegInfo>, h: Here, n: nat, r: nat)
    requires Resting(info, Over(h)) && InfoOf(info, r).active && 1 <= r <= h.seen
    ensures r in h.e
  {
    assert r in h.e || r in Over(h);
  }

  // ---- Every command ----

  // What is known about a command of such a program: where it leads.
  ghost predicate CommandFacts(code: seq<byte>, t: Re, n: nat, q: int, i: Instr) {
    var h := HereAt(t, q);
    match i
    case NoOp => false
    case Bad => false
    case StartMem(reg, inner) =>
      Begins(reg, inner, h, n) && (h.e != [] ==> h.e[0] <= h.firm + 2) && IsAt(t, q + 3, Begun(h, reg))
    case StopMem(reg, _) => reg <= n && h.e != [] && h.e[|h.e| - 1] == reg && IsAt(t, q + 3, Ended(h))
    case Goto(_, target) => IsAt(t, target, h)
    case OnFail(target) => IsAt(t, target, h) && IsAt(t, q + 3, h) && Gentle(code, q + 3, h)
    case _ => IsAt(t, q + Size(i), h)
  }

  // A group that begins right after a choice.
  predicate Gentle(code: seq<byte>, p: int, h: Here) {
    0 <= p < |code| && Fetch(code, p).StartMem? ==> Mild(Fetch(code, p).reg, h.e, h.firm + 2)
  }

  lemma {:induction false} CommandInStep(code: seq<byte>, t: Re, n: nat, q: int)
    requires Program(code, t) && InStep(t, n) && 0 <= q < Len(t) && Boundary(t, q)
    ensures CommandFacts(code, t, n, q, Fetch(code, q))
  {
    hide Embeds, Boundary, Len, Numbered, TameFrom, Fetch, OpenFacts, NumberFacts, TameFacts, RegFacts, SeenFacts, Firm,
      Groups, CommandFacts;
    assert 0 + q == q;
    var f := Firm(t);
    NumberedWithin(t, 0, n);
    OpenStep(code, 0, t, q);
    SeenStep(code, 0, t, 0, q);
    NumberStep(code, 0, t, 0, q, f + 1);
    TameStep(code, 0, t, false, 0, q, f + 2);
    RegStep(code, 0, t, q, n);
    if Fetch(code, q).StartMem? {
      StartFactsHere(code, t, n, q, Fetch(code, q));
    } else if Fetch(code, q).StopMem? {
      StopFactsHere(code, t, n, q, Fetch(code, q));
    } else {
      PlainFactsHere(code, t, n, q, Fetch(code, q));
    }
  }

  lemma {:induction false} StartFactsHere(code: seq<byte>, t: Re, n: nat, q: int, i: Instr)
    requires 0 <= q <= Len(t) && i.StartMem? && OpenFacts(t, 0, q, i) && SeenFacts(t, 0, 0, q, i) && RegFacts(i, n)
    requires NumberFacts(t, 0, q, i, Firm(t) + 1) && TameFacts(code, t, 0, q, i, Firm(t) + 2)
    ensures CommandFacts(code, t, n, q, i)
  {
    hide Open, Seen, Firm, InnerOf, Len, Groups, Fetch;
  }

  lemma {:induction false} StopFactsHere(code: seq<byte>, t: Re, n: nat, q: int, i: Instr)
    requires 0 <= q <= Len(t) && i.StopMem? && OpenFacts(t, 0, q, i) && SeenFacts(t, 0, 0, q, i) && RegFacts(i, n)
    ensures CommandFacts(code, t, n, q, i)
  {
    hide Open, Seen, Firm, InnerOf, Len, Groups, Fetch;
    var e := Open(t, q + 3);
    assert (e + [i.reg])[..|e|] == e;
  }

  lemma {:induction false} PlainFactsHere(code: seq<byte>, t: Re, n: nat, q: int, i: Instr)
    requires 0 <= q <= Len(t) && !i.StartMem? && !i.StopMem? && OpenFacts(t, 0, q, i) && SeenFacts(t, 0, 0, q, i)
    requires TameFacts(code, t, 0, q, i, Firm(t) + 2)
    ensures CommandFacts(code, t, n, q, i)
  {
    hide Open, Seen, Firm, InnerOf, Len, Groups, Fetch, Size;
  }

  lemma {:induction false} StartSteady(code: seq<byte>, t: Re, cfg: Config, st: State, reg: byte, inner: byte)
    requires InStep(t, cfg.nsub) && Steady(t, cfg, st)
    requires CommandFacts(code, t, cfg.nsub, st.p, StartMem(reg, inner))
    ensures Steady(t, cfg, StartGroup(st, reg))
  {
    hide Stacked, Behind, Avail, HereAt, Over, Len, Shape, Lively, Resting, InStep, Rising, Fetch;
    var h := HereAt(t, st.p);
    OpenInStep(t, cfg.nsub, st.p);
    Beneath(h.e, cfg.nsub, reg);
    StartShape(st.low, st.high, h, cfg.nsub, reg, inner);
    StartLively(st.info, st.low, h, reg);
    BehindWider(t, st.stack, Over(h), Over(Begun(h, reg)));
  }

  lemma {:induction false} StopTracks(code: seq<byte>, t: Re, cfg: Config, st: State, reg: byte, inner: byte)
    requires InStep(t, cfg.nsub) && Tracks(t, cfg.nsub, st.p, st.low, st.high, st.info)
    requires CommandFacts(code, t, cfg.nsub, st.p, StopMem(reg, inner))
    ensures var st' := StopGroup(st, reg);
      && Tracks(t, cfg.nsub, st.p + 3, st'.low, st'.high, st'.info)
      && st' == st.(low := st'.low, high := st'.high, info := st'.info)
      && Over(HereAt(t, st.p)) <= Over(HereAt(t, st.p + 3))
  {
    hide HereAt, Over, Len, Shape, Resting, InStep, Rising, ActiveBelow, Lively, InfoOf, Fetch;
    var h := HereAt(t, st.p);
    var info := WithInfo(st.info, reg, InfoOf(st.info, reg).(active := false));
    OpenInStep(t, cfg.nsub, st.p);
    StopLively(st.info, st.low, h, cfg.nsub, reg);
    StopShape(st.low, st.high, info, h, cfg.nsub, reg);
    NothingLively(info);
    if Ended(h).e == [] { NothingShape(Ended(h), cfg.nsub); }
  }

  lemma {:induction false} NothingLively(info: seq<RegInfo>)
    ensures Lively(info, NO_LOWEST_ACTIVE_REG, [])
  {
  }

  lemma {:induction false} NothingShape(h: Here, n: nat)
    requires h.e == []
    ensures Shape(NO_LOWEST_ACTIVE_REG, NO_HIGHEST_ACTIVE_REG, h, n)
  {
  }

  // The exit from a loop around the group just closed has the same groups open.
  lemma {:induction false} ExitHere(code: seq<byte>, t: Re, cfg: Config, st: State, q: nat, d: nat, reg: byte)
    requires Program(code, t) && InStep(t, cfg.nsub) && Within(t, cfg, q, d) && q < Len(t) && Fetch(code, q).StopMem?
    ensures var head := LoopAround(code, st, q, reg);
      head.Some? ==> IsAt(t, JumpTarget(code, head.value), HereAt(t, q + 3))
  {
    hide Within, Depth, Boundary, Spans, Resid, Embeds, HereAt, InStep;
    var o := LoopAround(code, st, q, reg);
    if o.Some? {
      Command(code, t, cfg, q, d);
      HeadHere(code, t, cfg, q + 3, d, o.value);
    }
  }

  lemma {:induction false} HeadHere(code: seq<byte>, t: Re, cfg: Config, j: nat, d: nat, head: int)
    requires Program(code, t) && InStep(t, cfg.nsub) && Within(t, cfg, j, d) && j < Len(t)
    requires var op := code[j]; op == POP_FAILURE_JUMP || op == MAYBE_POP_JUMP || op == JUMP || op == DUMMY_FAILURE_JUMP
    requires head == JumpTarget(code, j) && head < j + 3 && Bytes.At(code, head) == ON_FAILURE_JUMP
    ensures IsAt(t, JumpTarget(code, head), HereAt(t, j))
  {
    hide Within, Depth, Boundary, Spans, Resid, Embeds, HereAt, InStep, Gentle;
    Command(code, t, cfg, j, d);
    AtBoundary(t, cfg, j, d);
    CommandInStep(code, t, cfg.nsub, j);
    assert Fetch(code, j) == Goto(MaybePop, head);
    assert Moves(code, cfg.env, j, d) == To(head, d);
    AtBoundary(t, cfg, head, d);
    CommandInStep(code, t, cfg.nsub, head);
    assert Fetch(code, head) == OnFail(JumpTarget(code, head));
  }

  lemma {:induction false} AtBoundary(t: Re, cfg: Config, p: int, d: nat)
    requires Within(t, cfg, p, d)
    ensures 0 <= p <= Len(t) && Boundary(t, p)
  {
  }

  // The registers of a place are those of another with the same groups open and over.
  lemma {:induction false} SameTracks(t: Re, n: nat, p: int, p': int, low: nat, high: nat, info: seq<RegInfo>)
    requires Tracks(t, n, p, low, high, info) && IsAt(t, p', HereAt(t, p))
    ensures Tracks(t, n, p', low, high, info)
  {
    hide HereAt, Len, Shape, Lively, Resting, Over;
  }

  lemma {:induction false} StopSteady(code: seq<byte>, t: Re, cfg: Config, st: State, reg: byte, inner: byte)
    requires Program(code, t) && InStep(t, cfg.nsub) && Within(t, cfg, st.p, st.d) && Steady(t, cfg, st)
    requires 0 <= st.p < Len(t) && Fetch(code, st.p) == StopMem(reg, inner)
    requires CommandFacts(code, t, cfg.nsub, st.p, StopMem(reg, inner))
    ensures SteadyOutcome(t, cfg, Execute(code, cfg, st))
  {
    hide Stacked, Behind, Avail, HereAt, Over, Len, Tracks, InStep, Within, Embeds, Fetch, LoopAround, Fail, Push,
      NoRoom, StopGroup, Gentle;
    StopTracks(code, t, cfg, st, reg, inner);
    var st', here := StopGroup(st, reg), HereAt(t, st.p + 3);
    BehindWider(t, st.stack, Over(HereAt(t, st.p)), Over(here));
    ExitHere(code, t, cfg, st', st.p, st.d, reg);
    match LoopAround(code, st', st.p, reg)
    case None =>
    case Some(head) => ExitSteady(code, t, cfg, st', st.p + 3, JumpTarget(code, head));
  }

  // The failure point pushed for the exit of a loop, and failing back.
  lemma {:induction false} ExitSteady(code: seq<byte>, t: Re, cfg: Config, st: State, p: int, exit: int)
    requires InStep(t, cfg.nsub) && Tracks(t, cfg.nsub, p, st.low, st.high, st.info) && IsAt(t, exit, HereAt(t, p))
    requires Stacked(t, cfg.nsub, st.stack) && Behind(t, st.stack, Over(HereAt(t, p)))
    ensures var o := Push(cfg, st, RegexMachine.At(exit), st.d);
      if o.Some? then SteadyOutcome(t, cfg, Fail(code, cfg, o.value)) else NoRoom(cfg, st) == Done(-2)
  {
    hide Stacked, Behind, Avail, HereAt, Over, Len, Shape, Lively, Resting, InStep, Fail, Push, NoRoom, Bounded, Fetch,
      AllResting;
    var over := Over(HereAt(t, p));
    ShapeBounds(st.low, st.high, HereAt(t, p), cfg.nsub);
    SameTracks(t, cfg.nsub, p, exit, st.low, st.high, st.info);
    PushSteady(t, cfg, st, RegexMachine.At(exit), st.d, over);
    var o := Push(cfg, st, RegexMachine.At(exit), st.d);
    if o.Some? {
      BehindRests(t, o.value.stack, over, st.info);
      FailSteady(code, t, cfg, o.value);
    }
  }

  // on_failure_jump: where a group follows, its registers are covered.
  lemma {:induction false} CoverSteady(code: seq<byte>, t: Re, n: nat, st: State, q: int, target: int)
    requires Program(code, t) && InStep(t, n) && 0 <= q < Len(t) && 0 <= q + 3 <= Len(t) && Boundary(t, q + 3)
    requires CommandFacts(code, t, n, q, OnFail(target)) && Tracks(t, n, q, st.low, st.high, st.info)
    ensures var c := CoverGroup(code, st, q + 3);
      && c == st.(low := c.low, high := c.high)
      && Tracks(t, n, q + 3, c.low, c.high, c.info) && Tracks(t, n, target, c.low, c.high, c.info)
  {
    hide Embeds, Boundary, Len, HereAt, Over, Shape, Lively, Resting, InStep, Fetch, DepthFacts, Mild, Rising;
    var p: nat, h := q + 3, HereAt(t, q);
    if p < |code| {
      CommandInStep(code, t, n, p);
      DepthStep(code, 0, t, p);
      assert 0 + p == p;
      NotBad(t, 0, p, Fetch(code, p));
      NoNoOp(code, p);
      if code[p] == START_MEMORY {
        FetchStart(code, p);
        var i := Fetch(code, p);
        OpenInStep(t, n, q);
        Beneath(h.e, n, i.reg);
        CoverShape(st.low, st.high, h, n, i.reg, i.inner);
        CoverLively(st.info, st.low, h.e, i.reg);
      }
    } else {
      assert SkipNoOps(code, p) == p;
    }
  }

  lemma {:induction false} NoNoOp(code: seq<byte>, p: nat)
    requires p < |code| && Fetch(code, p) != NoOp
    ensures SkipNoOps(code, p) == p
  {
  }

  lemma {:induction false} FetchStart(code: seq<byte>, p: nat)
    requires p < |code| && code[p] == START_MEMORY
    ensures Fetch(code, p) == StartMem(Bytes.At(code, p + 1), Bytes.At(code, p + 2))
  {
  }

  lemma {:induction false} MarkedLively(info: seq<RegInfo>, low: nat, high: nat, x: nat, e: seq<nat>, over: set<nat>)
    requires Lively(info, x, e) && Resting(info, over)
    ensures var s := MarkMatched(info, low, high); |s| == |info| && Lively(s, x, e) && Resting(s, over)
  {
    var s := MarkMatched(info, low, high);
    forall i | 0 <= i < |e| && e[i] >= x ensures InfoOf(s, e[i]).active { assert InfoOf(info, e[i]).active; }
  }

  // Literals, `.', sets, `^' and `$'.
  lemma {:induction false} TextSteady(code: seq<byte>, t: Re, cfg: Config, st: State)
    requires InStep(t, cfg.nsub) && Steady(t, cfg, st) && 0 <= st.p < Len(t) == |code| && st.d <= |cfg.env.text|
    requires CommandFacts(code, t, cfg.nsub, st.p, Fetch(code, st.p))
    requires var i := Fetch(code, st.p); i.Exact? || i.AnyChar? || i.CharSet? || i.BegLine? || i.EndLine?
    ensures SteadyOutcome(t, cfg, Execute(code, cfg, st))
  {
    hide Stacked, Behind, Avail, HereAt, Over, Len, Shape, Lively, Resting, InStep, Fetch, Fail, MarkMatched,
      AllResting;
    var i, over := Fetch(code, st.p), Over(HereAt(t, st.p));
    match Moves(code, cfg.env, st.p, st.d)
    case To(p, d) => MarkedLively(st.info, st.low, st.high, st.low, HereAt(t, st.p).e, over);
    case _ =>
      BehindRests(t, st.stack, over, st.info);
      FailSteady(code, t, cfg, st);
  }

  lemma {:induction false} JumpSteady(code: seq<byte>, t: Re, cfg: Config, st: State, kind: JumpKind, target: int)
    requires InStep(t, cfg.nsub) && Steady(t, cfg, st) && 0 <= st.p < Len(t) == |code|
    requires Fetch(code, st.p) == Goto(kind, target)
    requires CommandFacts(code, t, cfg.nsub, st.p, Fetch(code, st.p))
    ensures SteadyOutcome(t, cfg, Execute(code, cfg, st))
  {
    hide Stacked, Behind, Avail, HereAt, Over, Len, Shape, Lively, Resting, InStep, Fetch, Decide, PushThen,
      FrameTracks, LaidOn;
    SameTracks(t, cfg.nsub, st.p, target, st.low, st.high, st.info);
    if st.stack != [] {
      StackTop(t, cfg.nsub, st.stack);
      BehindTop(t, st.stack, Over(HereAt(t, st.p)));
    }
    if kind.DummyFailure? { PushThenSteady(t, cfg, st, Null, 0, target, HereAt(t, st.p)); }
  }

  lemma {:induction false} ForkSteady(code: seq<byte>, t: Re, cfg: Config, st: State, target: int)
    requires Program(code, t) && InStep(t, cfg.nsub) && Steady(t, cfg, st) && Within(t, cfg, st.p, st.d)
    requires 0 <= st.p < Len(t)
    requires Fetch(code, st.p) == OnFail(target) && CommandFacts(code, t, cfg.nsub, st.p, OnFail(target))
    ensures SteadyOutcome(t, cfg, Execute(code, cfg, st))
  {
    hide Stacked, Behind, Avail, HereAt, Over, Len, Tracks, InStep, Fetch, PushThen, Within, Embeds, CoverGroup, Gentle;
    Command(code, t, cfg, st.p, st.d);
    assert Moves(code, cfg.env, st.p, st.d) == Either(st.p + 3, target);
    AtBoundary(t, cfg, st.p + 3, st.d);
    CoverSteady(code, t, cfg.nsub, st, st.p, target);
    var c := CoverGroup(code, st, st.p + 3);
    PushThenSteady(t, cfg, c, RegexMachine.At(target), st.d, st.p + 3, HereAt(t, st.p));
  }

  lemma {:induction false} DummySteady(code: seq<byte>, t: Re, cfg: Config, st: State)
    requires InStep(t, cfg.nsub) && Steady(t, cfg, st) && CommandFacts(code, t, cfg.nsub, st.p, PushDummy)
    ensures SteadyOutcome(t, cfg, PushThen(cfg, st, Null, 0, st.p + 1))
  {
    hide Stacked, Behind, Avail, HereAt, Over, Len, Tracks, InStep, Fetch, PushThen;
    SameTracks(t, cfg.nsub, st.p, st.p + 1, st.low, st.high, st.info);
    PushThenSteady(t, cfg, st, Null, 0, st.p + 1, HereAt(t, st.p));
  }

  lemma {:induction false} ExecuteSteady(code: seq<byte>, t: Re, cfg: Config, st: State)
    requires Program(code, t) && InStep(t, cfg.nsub) && Inv(t, cfg, st) && Steady(t, cfg, st) && 0 <= st.p < Len(t)
    ensures SteadyOutcome(t, cfg, Execute(code, cfg, st))
  {
    hide Steady, Avail, HereAt, Len, InStep, Fetch, PushThen, Within, Embeds, StackOk, Depth, DepthFacts, StartGroup,
      CommandFacts;
    AtBoundary(t, cfg, st.p, st.d);
    CommandInStep(code, t, cfg.nsub, st.p);
    DepthStep(code, 0, t, st.p);
    assert 0 + st.p == st.p;
    NotBad(t, 0, st.p, Fetch(code, st.p));
    InText(t, cfg, st.p, st.d);
    match Fetch(code, st.p)
    case StartMem(reg, inner) => StartSteady(code, t, cfg, st, reg, inner);
    case StopMem(reg, inner) => StopSteady(code, t, cfg, st, reg, inner);
    case OnFail(target) => ForkSteady(code, t, cfg, st, target);
    case PushDummy => DummySteady(code, t, cfg, st);
    case Goto(kind, target) => JumpSteady(code, t, cfg, st, kind, target);
    case _ => TextSteady(code, t, cfg, st);
  }

  lemma {:induction false} InText(t: Re, cfg: Config, p: int, d: nat)
    requires Within(t, cfg, p, d)
    ensures d <= |cfg.env.text|
  {
  }

  lemma {:induction false} StepSteady(code: seq<byte>, t: Re, cfg: Config, st: State)
    requires Program(code, t) && InStep(t, cfg.nsub) && Inv(t, cfg, st) && Steady(t, cfg, st)
    ensures SteadyOutcome(t, cfg, Step(code, cfg, st))
  {
    hide Stacked, Behind, Avail, HereAt, Over, Shape, Lively, Resting, InStep, Within, Embeds, StackOk, Depth, Execute,
      Fail, AllResting;
    if st.p == |code| {
      if st.d != |cfg.env.text| && st.stack != [] {
        var longer := st.best.None? || st.d > st.best.value;
        BehindRests(t, st.stack, Over(HereAt(t, st.p)), st.info);
        FailSteady(code, t, cfg, if longer then st.(best := Some(st.d)) else st);
      }
    } else if 0 <= st.p < |code| {
      ExecuteSteady(code, t, cfg, st);
    }
  }

  lemma {:induction false} StartsSteady(t: Re, cfg: Config)
    ensures SteadyOutcome(t, cfg, Start(cfg))
  {
    OpenAtStart(t);
    SeenAtStart(t);
  }

  lemma {:induction false} RunSteady(code: seq<byte>, t: Re, cfg: Config, o: Outcome, n: nat)
    requires Program(code, t) && InStep(t, cfg.nsub) && OutcomeOk(t, cfg, o) && SteadyOutcome(t, cfg, o)
    ensures SteadyOutcome(t, cfg, Run(code, cfg, o, n))
    decreases n
  {
    hide Inv, Step, Program, Steady, InStep;
    if n > 0 && o.Go? {
      StepOk(code, t, cfg, o.st);
      StepSteady(code, t, cfg, o.st);
      RunSteady(code, t, cfg, Step(code, cfg, o.st), n - 1);
    }
  }

  // ---- No push strays ----

  // The registers saved at a fork, those of a group that follows included.
  lemma {:induction false} CoverBounds(code: seq<byte>, t: Re, cfg: Config, st: State, target: int)
    requires Program(code, t) && InStep(t, cfg.nsub) && Steady(t, cfg, st) && Within(t, cfg, st.p, st.d)
    requires 0 <= st.p < Len(t) && Fetch(code, st.p) == OnFail(target)
    ensures var c := CoverGroup(code, st, st.p + 3); Bounded(c.low, c.high, cfg.nsub)
  {
    hide Embeds, Boundary, Len, HereAt, Shape, Lively, Resting, Over, InStep, Fetch, Stacked, Behind, CoverGroup, Avail,
      Bounded, Within, Gentle;
    AtBoundary(t, cfg, st.p, st.d);
    CommandInStep(code, t, cfg.nsub, st.p);
    Command(code, t, cfg, st.p, st.d);
    assert Moves(code, cfg.env, st.p, st.d) == Either(st.p + 3, target);
    AtBoundary(t, cfg, st.p + 3, st.d);
    CoverSteady(code, t, cfg.nsub, st, st.p, target);
    var c := CoverGroup(code, st, st.p + 3);
    ShapeBounds(c.low, c.high, HereAt(t, st.p + 3), cfg.nsub);
  }

  lemma {:induction false} SteadyBounds(t: Re, cfg: Config, st: State)
    requires Steady(t, cfg, st)
    ensures Bounded(st.low, st.high, cfg.nsub)
  {
    hide HereAt, Len, Shape, Stacked, Behind, Avail, Bounded, Lively, Resting, Over;
    ShapeBounds(st.low, st.high, HereAt(t, st.p), cfg.nsub);
  }

  lemma {:induction false} StopBounds(code: seq<byte>, t: Re, cfg: Config, st: State, reg: byte, inner: byte)
    requires Program(code, t) && InStep(t, cfg.nsub) && Steady(t, cfg, st) && Within(t, cfg, st.p, st.d)
    requires 0 <= st.p < Len(t) && Fetch(code, st.p) == StopMem(reg, inner)
    ensures var c := StopGroup(st, reg); Bounded(c.low, c.high, cfg.nsub)
  {
    hide Embeds, Boundary, Len, HereAt, Shape, Lively, Resting, Over, InStep, Fetch, Stacked, Behind, Avail, Bounded,
      Within, StopGroup, Gentle;
    AtBoundary(t, cfg, st.p, st.d);
    CommandInStep(code, t, cfg.nsub, st.p);
    StopTracks(code, t, cfg, st, reg, inner);
    var c := StopGroup(st, reg);
    ShapeBounds(c.low, c.high, HereAt(t, st.p + 3), cfg.nsub);
  }

  lemma {:induction false} NeverStrays(code: seq<byte>, t: Re, cfg: Config, st: State)
    requires Program(code, t) && InStep(t, cfg.nsub) && Inv(t, cfg, st) && Steady(t, cfg, st)
    ensures !Strays(code, st)
  {
    hide Embeds, InStep, Fetch, Steady, Within, Depth, StackOk, StopGroup, CoverGroup, LoopAround;
    if 0 <= st.p < |code| {
      SteadyBounds(t, cfg, st);
      match Fetch(code, st.p)
      case StopMem(reg, inner) => StopBounds(code, t, cfg, st, reg, inner);
      case OnFail(target) => CoverBounds(code, t, cfg, st, target);
      case _ =>
    }
  }

  // ---- The result ----

  // A failure point that saves exactly the registers from low to high.
  predicate WholeFrame(f: Frame, n: nat) {
    Bounded(f.low, f.high, n) && |f.saved| == RegCount(f.low, f.high)
  }

  // In every state reached, the lowest register is at most one past the highest, the stack consists of
  // whole failure points, and they fit it; every push asks for exactly what it stores, and none ever writes
  // past the end of the stack.
  lemma {:induction false} RegistersInStep(t: Re, cfg: Config, n: nat)
    requires WellFormed(t) && Len(t) <= MAX_REACH && InStep(t, cfg.nsub)
    ensures var o := Match(Emit(t), cfg, n);
      && o != Overrun
      && (o.Go? ==>
            && Bounded(o.st.low, o.st.high, cfg.nsub) && Avail(o.st.stack) <= o.st.size
            && forall f <- o.st.stack :: WholeFrame(f, cfg.nsub))
    ensures !StraysAfter(Emit(t), cfg, n)
  {
    hide Run, Start, Emit, Len, Shape, HereAt, Lively, Resting, Over, InStep, Avail, Strays, Inv, Layered, Behind;
    var code := Emit(t);
    assert code[0..0 + Len(t)] == code;
    StartOk(code, t, cfg);
    StartsSteady(t, cfg);
    RunOk(code, t, cfg, Start(cfg), n);
    RunSteady(code, t, cfg, Start(cfg), n);
    var o := Match(code, cfg, n);
    if o.Go? {
      NeverStrays(code, t, cfg, o.st);
      ShapeBounds(o.st.low, o.st.high, HereAt(t, o.st.p), cfg.nsub);
      assert forall f <- o.st.stack :: FrameTracks(t, cfg.nsub, f);
    }
  }

  // So no push strays at any time.
  lemma {:induction false} NoneStrays(t: Re, cfg: Config, n: nat)
    requires WellFormed(t) && Len(t) <= MAX_REACH && InStep(t, cfg.nsub)
    ensures !Strayed(Emit(t), cfg, n)
  {
    hide Emit, Len, InStep, StraysAfter;
    forall k: nat | k < n ensures !StraysAfter(Emit(t), cfg, k) { RegistersInStep(t, cfg, k); }
  }
}
