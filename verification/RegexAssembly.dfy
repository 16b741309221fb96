// How the code of an unfinished expression lies in the buffer, and how each compile step keeps it
// so: finished alternatives with their jumps, groups still open, and the current alternative.
module RegexAssembly {
  import opened Bytes
  import opened RegexTree
  import opened RegexCode
  import opened RegexParse
  import opened Wrappers

  // Finished alternatives from o on.  The three bytes after the last one are still to be filled in.
  ghost predicate AltsHold(code: seq<byte>, o: nat, alts: seq<Re>)
    requires GoodAlts(alts)
  {
    alts != [] ==>
      var n := |alts| - 1;
      var front, a := alts[..n], alts[n];
      var q := o + AltsLen(front);
      && AltsHold(code, o, front)
      && q + 6 + Len(a) <= |code|
      && code[q..q + 3] == JumpCode(ON_FAILURE_JUMP, Len(a) + 3)
      && code[q + 3..q + 3 + Len(a)] == Emit(a)
      && (front != [] ==> q >= 3 && code[q - 3..q] == JumpCode(JUMP_PAST_ALT, 3 + Len(a)))
  }

  // Where the current alternative of a level starting at o begins.
  function AltStart(o: nat, alts: seq<Re>): nat {
    o + AltsLen(alts)
  }

  predicate GoodStack(stack: seq<Saved>, regnum: nat) {
    forall i :: 0 <= i < |stack| ==> GoodSaved(stack[i], regnum)
  }

  // The levels set aside, each ended by the start_memory of the group inside it; the inner-group
  // count is still to be filled in.
  ghost predicate StackHolds(code: seq<byte>, stack: seq<Saved>, regnum: nat)
    requires GoodStack(stack, regnum)
  {
    stack != [] ==>
      var n := |stack| - 1;
      var s := stack[n];
      var q := AltStart(Base(stack[..n]), s.alts);
      && StackHolds(code, stack[..n], regnum)
      && AltsHold(code, Base(stack[..n]), s.alts)
      && q + Len(s.cur) + GroupOpen(s.reg) <= |code|
      && code[q..q + Len(s.cur)] == Emit(s.cur)
      && (s.reg <= MAX_REGNUM ==> code[q + Len(s.cur)] == START_MEMORY && code[q + Len(s.cur) + 1] == s.reg)
  }

  function Begalt(st: PState): nat {
    AltStart(Base(st.stack), st.level.alts)
  }

  ghost predicate Holds(code: seq<byte>, st: PState)
    requires Good(st)
  {
    && |code| == Used(st)
    && StackHolds(code, st.stack, st.regnum)
    && AltsHold(code, Base(st.stack), st.level.alts)
    && code[Begalt(st)..] == Emit(Current(st.level))
  }

  // The pieces Holds is made of.
  lemma {:induction false} Pieces(code: seq<byte>, st: PState)
    requires Good(st)
    ensures GoodStack(st.stack, st.regnum) && GoodAlts(st.level.alts) && WellFormed(Current(st.level))
    ensures Len(Current(st.level)) + Begalt(st) == Used(st)
    ensures Holds(code, st) <==>
      && |code| == Used(st)
      && StackHolds(code, st.stack, st.regnum)
      && AltsHold(code, Base(st.stack), st.level.alts)
      && code[Begalt(st)..] == Emit(Current(st.level))
  {
    hide StackHolds, AltsHold, Emit, Len, Base, AltsLen;
  }

  // ---- Frames ----

  lemma {:induction false} SamePrefix(code: seq<byte>, code': seq<byte>, n: nat, i: nat, j: nat)
    requires n <= |code| && n <= |code'| && code[..n] == code'[..n] && i <= j <= n
    ensures code[i..j] == code'[i..j]
  {
    assert code[..n][i..j] == code[i..j] && code'[..n][i..j] == code'[i..j];
  }

  lemma {:induction false} AltsLenAppend(alts: seq<Re>, a: Re)
    ensures AltsLen(alts + [a]) == AltsLen(alts) + 6 + Len(a)
  {
    var s := alts + [a];
    assert s[..|s| - 1] == alts;
  }

  lemma {:induction false} BaseAppend(stack: seq<Saved>, s: Saved)
    ensures Base(stack + [s]) == AltStart(Base(stack), s.alts) + Len(s.cur) + GroupOpen(s.reg)
  {
    var t := stack + [s];
    assert t[..|t| - 1] == stack;
  }

  // Only what lies before the three bytes left open matters.
  lemma {:induction false} AltsFrame(code: seq<byte>, code': seq<byte>, o: nat, alts: seq<Re>, n: nat)
    requires GoodAlts(alts) && AltsHold(code, o, alts)
    requires n <= |code| && n <= |code'| && code[..n] == code'[..n]
    requires alts != [] ==> o + AltsLen(alts) <= n + 3 && o + AltsLen(alts) <= |code'|
    ensures AltsHold(code', o, alts)
  {
    hide Emit, JumpCode, Len;
    if alts != [] {
      var k := |alts| - 1;
      var front, a := alts[..k], alts[k];
      var q := o + AltsLen(front);
      AltsFrame(code, code', o, front, n);
      SamePrefix(code, code', n, q, q + 3);
      SamePrefix(code, code', n, q + 3, q + 3 + Len(a));
      if front != [] { SamePrefix(code, code', n, q - 3, q); }
    }
  }

  lemma {:induction false} StackFrame(code: seq<byte>, code': seq<byte>, stack: seq<Saved>, regnum: nat, regnum': nat,
        n: nat)
    requires GoodStack(stack, regnum) && GoodStack(stack, regnum') && StackHolds(code, stack, regnum)
    requires Base(stack) <= n <= |code| && n <= |code'| && code[..n] == code'[..n]
    ensures StackHolds(code', stack, regnum')
  {
    hide Emit, Len, AltsHold;
    if stack != [] {
      var k := |stack| - 1;
      var s := stack[k];
      var q := AltStart(Base(stack[..k]), s.alts);
      StackFrame(code, code', stack[..k], regnum, regnum', n);
      AltsFrame(code, code', Base(stack[..k]), s.alts, n);
      SamePrefix(code, code', n, q, q + Len(s.cur));
      if s.reg <= MAX_REGNUM {
        assert code[..n][q + Len(s.cur)] == code'[..n][q + Len(s.cur)];
        assert code[..n][q + Len(s.cur) + 1] == code'[..n][q + Len(s.cur) + 1];
      }
    }
  }

  // ---- Steps inside the current alternative ----

  // The current alternative is rewritten; all before it stays.
  lemma {:induction false} Rewrite(code: seq<byte>, st: PState, code': seq<byte>, l: Level)
    requires Good(st) && Holds(code, st) && GoodLevel(l) && l.alts == st.level.alts
    requires |code'| >= Begalt(st) && code'[..Begalt(st)] == code[..Begalt(st)]
    requires code'[Begalt(st)..] == Emit(Current(l))
    ensures Good(st.(level := l)) && Holds(code', st.(level := l))
  {
    hide Emit, AltsHold, StackHolds, GoodSaved;
    var n := Begalt(st);
    AltsFrame(code, code', Base(st.stack), st.level.alts, n);
    StackFrame(code, code', st.stack, st.regnum, st.regnum, n);
  }

  // Code of a new expression is written at the end.
  lemma {:induction false} AppendNew(code: seq<byte>, st: PState, x: Re, run: bool)
    requires Good(st) && Holds(code, st) && WellFormed(x) && (run ==> x.Lit?)
    ensures var st' := st.(level := Begin(st.level, x, run)); Good(st') && Holds(code + Emit(x), st')
  {
    hide Emit, StackHolds, AltsHold;
    var l, n := st.level, Begalt(st);
    var l' := Begin(l, x, run);
    CurrentBegin(l, x, run);
    var code' := code + Emit(x);
    assert code'[n..] == code[n..] + Emit(x);
    Rewrite(code, st, code', l');
  }

  lemma {:induction false} CurrentBegin(l: Level, x: Re, run: bool)
    requires GoodLevel(l) && WellFormed(x) && (run ==> x.Lit?)
    ensures GoodLevel(Begin(l, x, run)) && Emit(Current(Begin(l, x, run))) == Emit(Current(l)) + Emit(x)
  {
  }

  // A one-byte command is written at the end, under the reach of later repetitions.
  lemma {:induction false} AppendAttached(code: seq<byte>, st: PState, x: Re)
    requires Good(st) && Holds(code, st) && WellFormed(x)
    ensures var st' := st.(level := Attach(st.level, x)); Good(st') && Holds(code + Emit(x), st')
  {
    hide Emit, StackHolds, AltsHold;
    var n := Begalt(st);
    CurrentAttach(st.level, x);
    var code' := code + Emit(x);
    assert code'[n..] == code[n..] + Emit(x);
    Rewrite(code, st, code', Attach(st.level, x));
  }

  lemma {:induction false} CurrentAttach(l: Level, x: Re)
    requires GoodLevel(l) && WellFormed(x)
    ensures GoodLevel(Attach(l, x)) && Emit(Current(Attach(l, x))) == Emit(Current(l)) + Emit(x)
  {
    if l.last.Some? {
      var y := l.last.value;
      assert Emit(Cat(y, x)) == Emit(y) + Emit(x);
      assert Emit(l.before) + (Emit(y) + Emit(x)) == (Emit(l.before) + Emit(y)) + Emit(x);
    }
  }

  // Where the expression a repetition would take hold of starts.
  function LastStart(st: PState): nat {
    Begalt(st) + Len(st.level.before)
  }

  // The last expression is replaced by another one.
  lemma {:induction false} ReplaceLast(code: seq<byte>, st: PState, y: Re, run: bool)
    requires Good(st) && Holds(code, st) && st.level.last.Some? && WellFormed(y) && (run ==> y.Lit?)
    ensures LastStart(st) <= |code| && code[LastStart(st)..] == Emit(st.level.last.value)
    ensures var st' := st.(level := st.level.(last := Some(y), run := run));
      Good(st') && Holds(code[..LastStart(st)] + Emit(y), st')
  {
    hide StackHolds, AltsHold, Holds, Good, Emit, WellFormed, Len;
    var n, m, l := Begalt(st), LastStart(st), st.level;
    Pieces(code, st);
    var l' := l.(last := Some(y), run := run);
    LastLayout(st, y, run);
    assert code[m..] == code[n..][Len(l.before)..] == Emit(l.last.value);
    assert code[n..m] == code[n..][..Len(l.before)] == Emit(l.before);
    var code' := code[..m] + Emit(y);
    assert code'[n..] == code[n..m] + Emit(y);
    Rewrite(code, st, code', l');
  }

  lemma {:induction false} LastLayout(st: PState, y: Re, run: bool)
    requires Good(st) && st.level.last.Some? && WellFormed(y) && (run ==> y.Lit?)
    ensures var l := st.level;
      var l' := l.(last := Some(y), run := run);
      && WellFormed(l.before) && WellFormed(l.last.value) && GoodLevel(l')
      && Emit(Current(l)) == Emit(l.before) + Emit(l.last.value) && Len(Current(l)) == Len(l.before) + Len(l.last.value)
      && Emit(Current(l')) == Emit(l.before) + Emit(y) && |Emit(l.before)| == Len(l.before)
  {
  }

  // ---- Alternatives ----

  // handle_alt: a failure jump goes in before the current alternative, the jump after the previous
  // one is filled in, and room for a jump is left after the current one.
  function WithAlternative(code: seq<byte>, st: PState, hole: seq<byte>): (r: seq<byte>)
    requires Begalt(st) <= |code| && (st.level.alts != [] ==> Begalt(st) >= 3)
  {
    var n, len := Begalt(st), |code| - Begalt(st);
    (if st.level.alts == [] then code[..n] else code[..n - 3] + JumpCode(JUMP_PAST_ALT, len + 3))
    + JumpCode(ON_FAILURE_JUMP, len + 3) + code[n..] + hole
  }

  lemma {:induction false} Alternate(code: seq<byte>, st: PState, hole: seq<byte>)
    requires Good(st) && Holds(code, st) && |hole| == 3
    requires Begalt(st) <= |code| && (st.level.alts != [] ==> Begalt(st) >= 3)
    ensures var st' := st.(level := Level(st.level.alts + [Current(st.level)], Eps, None, false));
      Good(st') && Holds(WithAlternative(code, st, hole), st')
  {
    hide Emit, StackHolds, AltsHold, JumpCode, Good, Holds, Used, AltsLen, Base, Current, WithAlternative;
    var alts, cur := st.level.alts, Current(st.level);
    var code', n, o := WithAlternative(code, st, hole), Begalt(st), Base(st.stack);
    var m := if alts == [] then n else n - 3;
    Pieces(code, st);
    AlternativeSlices(code, st, hole);
    AltsBound(alts);
    StackFrame(code, code', st.stack, st.regnum, st.regnum, m);
    AltsFrame(code, code', o, alts, m);
    AltsHoldAppend(code', o, alts, cur);
    AlternateGood(st);
    var st' := st.(level := Level(alts + [cur], Eps, None, false));
    AltsLenAppend(alts, cur);
    EmptyHolds(code', |code'|);
    Pieces(code', st');
  }

  lemma {:induction false} AlternateGood(st: PState)
    requires Good(st)
    ensures var l := Level(st.level.alts + [Current(st.level)], Eps, None, false);
      Good(st.(level := l)) && Current(l) == Eps
  {
  }

  lemma {:induction false} AltsBound(alts: seq<Re>)
    ensures alts != [] ==> AltsLen(alts) >= 6
  {
  }

  lemma {:induction false} AlternativeSlices(code: seq<byte>, st: PState, hole: seq<byte>)
    requires Good(st) && Holds(code, st) && |hole| == 3
    requires Begalt(st) <= |code| && (st.level.alts != [] ==> Begalt(st) >= 3)
    ensures var code', n, len := WithAlternative(code, st, hole), Begalt(st), |code| - Begalt(st);
      && |code'| == |code| + 6 && len == Len(Current(st.level))
      && code'[n..n + 3] == JumpCode(ON_FAILURE_JUMP, len + 3)
      && code'[n + 3..n + 3 + len] == Emit(Current(st.level))
      && (st.level.alts != [] ==> code'[n - 3..n] == JumpCode(JUMP_PAST_ALT, len + 3))
      && (var m := if st.level.alts == [] then n else n - 3; code'[..m] == code[..m])
  {
    hide Emit, StackHolds, AltsHold, JumpCode;
  }

  lemma {:induction false} AltsHoldAppend(code: seq<byte>, o: nat, alts: seq<Re>, a: Re)
    requires GoodAlts(alts) && WellFormed(a) && AltsHold(code, o, alts)
    requires var q := AltStart(o, alts);
      && q + 6 + Len(a) <= |code|
      && code[q..q + 3] == JumpCode(ON_FAILURE_JUMP, Len(a) + 3)
      && code[q + 3..q + 3 + Len(a)] == Emit(a)
      && (alts != [] ==> q >= 3 && code[q - 3..q] == JumpCode(JUMP_PAST_ALT, 3 + Len(a)))
    ensures GoodAlts(alts + [a]) && AltsHold(code, o, alts + [a])
  {
    hide Emit, JumpCode;
    var s := alts + [a];
    assert s[..|s| - 1] == alts;
  }

  // ---- From alternatives to one tree ----

  lemma {:induction false} TreeBack(alts: seq<Re>, a: Re, cur: Re)
    ensures Tree(alts + [a], cur) == Tree(alts, Alt(a, cur))
  {
    var s := alts + [a];
    if alts == [] {
      assert s[1..] == [];
    } else {
      assert s[1..] == alts[1..] + [a];
      TreeBack(alts[1..], a, cur);
    }
  }

  // With its last jump filled in, a chain of alternatives is the code of one tree.
  lemma {:induction false} ChainCode(code: seq<byte>, o: nat, alts: seq<Re>, rest: Re)
    requires GoodAlts(alts) && WellFormed(rest) && AltsHold(code, o, alts)
    requires var e := AltStart(o, alts);
      && e + Len(rest) <= |code| && code[e..e + Len(rest)] == Emit(rest)
      && (alts != [] ==> e >= 3 && code[e - 3..e] == JumpCode(JUMP_PAST_ALT, PastAltDistance(rest)))
    ensures var t := Tree(alts, rest);
      && WellFormed(t) && Len(t) == AltsLen(alts) + Len(rest)
      && o + Len(t) <= |code| && code[o..o + Len(t)] == Emit(t)
  {
    hide JumpCode, Emit, Len, WellFormed, PastAltDistance;
    if alts != [] {
      var n := |alts| - 1;
      var front, a := alts[..n], alts[n];
      assert front + [a] == alts;
      TreeBack(front, a, rest);
      AltFacts(a, rest);
      ChainJoin(code, AltStart(o, front), a, rest);
      ChainCode(code, o, front, Alt(a, rest));
    }
  }

  lemma {:induction false} AltFacts(a: Re, rest: Re)
    requires WellFormed(a) && WellFormed(rest)
    ensures WellFormed(Alt(a, rest)) && Len(Alt(a, rest)) == 6 + Len(a) + Len(rest)
    ensures PastAltDistance(Alt(a, rest)) == 3 + Len(a)
  {
  }

  lemma {:induction false} ChainJoin(code: seq<byte>, q: nat, a: Re, rest: Re)
    requires WellFormed(a) && WellFormed(rest) && q + 6 + Len(a) + Len(rest) <= |code|
    requires code[q..q + 3] == JumpCode(ON_FAILURE_JUMP, Len(a) + 3) && code[q + 3..q + 3 + Len(a)] == Emit(a)
    requires code[q + 3 + Len(a)..q + 6 + Len(a)] == JumpCode(JUMP_PAST_ALT, PastAltDistance(rest))
    requires code[q + 6 + Len(a)..q + 6 + Len(a) + Len(rest)] == Emit(rest)
    ensures code[q..q + Len(Alt(a, rest))] == Emit(Alt(a, rest))
  {
    hide JumpCode, Emit, Len, WellFormed, PastAltDistance;
    AltCode(a, rest);
    FourSlices(code, q, q + 3, q + 3 + Len(a), q + 6 + Len(a), q + 6 + Len(a) + Len(rest));
  }

  lemma {:induction false} AltCode(a: Re, rest: Re)
    requires WellFormed(a) && WellFormed(rest)
    ensures WellFormed(Alt(a, rest)) && Len(Alt(a, rest)) == 6 + Len(a) + Len(rest)
    ensures Emit(Alt(a, rest)) ==
      JumpCode(ON_FAILURE_JUMP, Len(a) + 3) + Emit(a) + JumpCode(JUMP_PAST_ALT, PastAltDistance(rest)) + Emit(rest)
  {
  }

  lemma {:induction false} FourSlices(code: seq<byte>, q: nat, i: nat, j: nat, k: nat, e: nat)
    requires q <= i <= j <= k <= e <= |code|
    ensures code[q..e] == code[q..i] + code[i..j] + code[j..k] + code[k..e]
  {
    TwoSlices(code, q, i, j);
    TwoSlices(code, q, j, k);
    TwoSlices(code, q, k, e);
  }

  lemma {:induction false} TwoSlices(code: seq<byte>, q: nat, i: nat, e: nat)
    requires q <= i <= e <= |code|
    ensures code[q..e] == code[q..i] + code[i..e]
  {
  }

  // The last jump of the current level filled in.
  function Closed(code: seq<byte>, st: PState): (r: seq<byte>)
    requires Begalt(st) <= |code| && (st.level.alts != [] ==> Begalt(st) >= 3)
    ensures |r| == |code|
  {
    var n := Begalt(st);
    if st.level.alts == [] then code else code[..n - 3] + JumpCode(JUMP_PAST_ALT, |code| - n) + code[n..]
  }

  lemma {:induction false} CloseChain(code: seq<byte>, st: PState)
    requires Good(st) && Holds(code, st)
    ensures Begalt(st) <= |code| && (st.level.alts != [] ==> Begalt(st) >= 3 + Base(st.stack))
    ensures var t := Tree(st.level.alts, Current(st.level));
      && WellFormed(t) && |code| == Base(st.stack) + Len(t)
      && Closed(code, st)[..Base(st.stack)] == code[..Base(st.stack)]
      && Closed(code, st)[Base(st.stack)..] == Emit(t)
  {
    hide Emit, JumpCode, AltsHold, StackHolds;
    var alts, cur, n, o := st.level.alts, Current(st.level), Begalt(st), Base(st.stack);
    AltsBound(alts);
    var code' := Closed(code, st);
    ClosedSlices(code, st);
    AltsFrame(code, code', o, alts, if alts == [] then n else n - 3);
    NotAlt(st.level);
    ChainCode(code', o, alts, cur);
    assert code'[o..] == code'[o..|code'|];
  }

  lemma {:induction false} NotAlt(l: Level)
    requires GoodLevel(l)
    ensures WellFormed(Current(l)) && !Current(l).Alt? && PastAltDistance(Current(l)) == Len(Current(l))
  {
  }

  lemma {:induction false} ClosedSlices(code: seq<byte>, st: PState)
    requires Good(st) && Holds(code, st)
    requires Begalt(st) <= |code| && (st.level.alts != [] ==> Begalt(st) >= 3 + Base(st.stack))
    ensures var n, code' := Begalt(st), Closed(code, st);
      && code'[n..] == code'[n..|code'|] == Emit(Current(st.level))
      && (st.level.alts != [] ==> code'[n - 3..n] == JumpCode(JUMP_PAST_ALT, |code| - n))
      && code'[..if st.level.alts == [] then n else n - 3] == code[..if st.level.alts == [] then n else n - 3]
      && code'[..Base(st.stack)] == code[..Base(st.stack)]
  {
    hide Emit, JumpCode, AltsHold, StackHolds;
    var n, code' := Begalt(st), Closed(code, st);
    var m := if st.level.alts == [] then n else n - 3;
    assert code'[..m] == code[..m];
    SamePrefix(code', code, m, 0, Base(st.stack));
  }

  // ---- Groups ----

  lemma {:induction false} OpenGroup(code: seq<byte>, st: PState, count: byte)
    requires Good(st) && Holds(code, st)
    ensures var reg := st.regnum + 1;
      var st' := PState(st.stack + [Saved(st.level.alts, Current(st.level), reg)], EMPTY, reg);
      Good(st') && Holds(code + (if reg <= MAX_REGNUM then [START_MEMORY, reg, count] else []), st')
  {
    hide Emit, AltsHold, StackHolds, Good, Holds, Used, AltsLen, Base, Current, GoodSaved, GoodStack;
    var reg := st.regnum + 1;
    var s := Saved(st.level.alts, Current(st.level), reg);
    var code' := code + (if reg <= MAX_REGNUM then [START_MEMORY, reg, count] else []);
    assert code'[..|code|] == code[..|code|];
    var q := Begalt(st);
    Pieces(code, st);
    GoodPush(st, s);
    BaseBelow(st);
    StackFrame(code, code', st.stack, st.regnum, reg, |code|);
    AltsFrame(code, code', Base(st.stack), s.alts, |code|);
    assert code'[q..q + Len(s.cur)] == code[q..];
    StackHoldsPush(code', st.stack, s, reg);
    BaseAppend(st.stack, s);
    EmptyHolds(code', |code'|);
    Pieces(code', PState(st.stack + [s], EMPTY, reg));
  }

  lemma {:induction false} BaseBelow(st: PState)
    ensures Base(st.stack) <= Begalt(st)
  {
  }

  lemma {:induction false} StackHoldsPush(code: seq<byte>, stack: seq<Saved>, s: Saved, regnum: nat)
    requires GoodStack(stack, regnum) && GoodSaved(s, regnum) && StackHolds(code, stack, regnum)
    requires var q := AltStart(Base(stack), s.alts);
      && AltsHold(code, Base(stack), s.alts)
      && q + Len(s.cur) + GroupOpen(s.reg) <= |code|
      && code[q..q + Len(s.cur)] == Emit(s.cur)
      && (s.reg <= MAX_REGNUM ==> code[q + Len(s.cur)] == START_MEMORY && code[q + Len(s.cur) + 1] == s.reg)
    ensures GoodStack(stack + [s], regnum) && StackHolds(code, stack + [s], regnum)
  {
    hide Emit, AltsHold, Len, Base;
    var t := stack + [s];
    assert t[..|t| - 1] == stack;
  }

  lemma {:induction false} EmptyHolds(code: seq<byte>, o: nat)
    requires o == |code|
    ensures GoodLevel(EMPTY) && Current(EMPTY) == Eps && AltsHold(code, o, []) && AltsLen([]) == 0
    ensures Len(Eps) == 0 && code[o..] == [] == Emit(Eps)
  {
  }

  lemma {:induction false} GoodPush(st: PState, s: Saved)
    requires Good(st) && s == Saved(st.level.alts, Current(st.level), st.regnum + 1)
    ensures GoodStack(st.stack, st.regnum) && GoodStack(st.stack, s.reg) && GoodStack(st.stack + [s], s.reg)
    ensures GoodSaved(s, s.reg) && Good(PState(st.stack + [s], EMPTY, s.reg))
  {
    forall i | 0 <= i < |st.stack| ensures GoodSaved(st.stack[i], s.reg) {
      assert GoodSaved(st.stack[i], st.regnum);
    }
  }

  function InnerCount(st: PState): byte
    requires st.stack != []
  {
    var reg := st.stack[|st.stack| - 1].reg;
    (if st.regnum >= reg then st.regnum - reg else 0) % 256
  }

  function DummyCode(l: Level): (r: seq<byte>)
    ensures |r| == DummySpace(l)
  {
    if l.alts == [] then [] else [PUSH_DUMMY_FAILURE]
  }

  // handle_close: the last jump and the inner-group count are filled in, and the group is ended.
  function GroupClosed(code: seq<byte>, st: PState): seq<byte>
    requires st.stack != [] && Base(st.stack) <= Begalt(st) <= |code|
    requires GroupOpen(st.stack[|st.stack| - 1].reg) <= Base(st.stack)
    requires st.level.alts != [] ==> Begalt(st) >= 3 + Base(st.stack)
  {
    var reg, o, whole := st.stack[|st.stack| - 1].reg, Base(st.stack), Closed(code, st) + DummyCode(st.level);
    if reg <= MAX_REGNUM then
      whole[..o - 1] + [InnerCount(st)] + whole[o..] + [STOP_MEMORY, reg, InnerCount(st)]
    else whole
  }

  lemma {:induction false} StackTop(code: seq<byte>, st: PState)
    requires Good(st) && Holds(code, st) && st.stack != []
    ensures var n := |st.stack| - 1;
      var s, front := st.stack[n], st.stack[..n];
      var q := AltStart(Base(front), s.alts);
      && GoodStack(front, st.regnum) && GoodSaved(s, st.regnum) && StackHolds(code, front, st.regnum)
      && AltsHold(code, Base(front), s.alts) && Base(front) <= q
      && Base(st.stack) == q + Len(s.cur) + GroupOpen(s.reg) <= |code|
      && code[q..q + Len(s.cur)] == Emit(s.cur)
      && (s.reg <= MAX_REGNUM ==> code[q + Len(s.cur)..Base(st.stack) - 1] == [START_MEMORY, s.reg])
  {
    hide Emit, Len, AltsHold;
    var n := |st.stack| - 1;
    var s := st.stack[n];
    assert GoodSaved(s, st.regnum);
  }

  lemma {:induction false} TreeIsAlt(alts: seq<Re>, cur: Re)
    requires !cur.Alt?
    ensures Tree(alts, cur).Alt? <==> alts != []
  {
  }

  lemma {:induction false} GroupLayout(reg: nat, inner: nat, l: Level)
    requires GoodLevel(l) && reg >= 1
    ensures var t := Tree(l.alts, Current(l));
      && WellFormed(t) && WellFormed(Group(reg, inner, t))
      && Emit(Group(reg, inner, t)) ==
        GroupCode(START_MEMORY, reg, inner) + Emit(t) + DummyCode(l) + GroupCode(STOP_MEMORY, reg, inner)
  {
    hide GroupCode;
    NotAlt(l);
    TreeWellFormed(l.alts, Current(l));
    TreeIsAlt(l.alts, Current(l));
  }

  // The bytes of a closed group, from the end of what precedes it.
  lemma {:induction false} GroupClosedSlices(code: seq<byte>, st: PState, p: nat, t: seq<byte>)
    requires st.stack != [] && Base(st.stack) <= Begalt(st) <= |code|
    requires GroupOpen(st.stack[|st.stack| - 1].reg) <= Base(st.stack)
    requires st.level.alts != [] ==> Begalt(st) >= 3 + Base(st.stack)
    requires var o, reg := Base(st.stack), st.stack[|st.stack| - 1].reg;
      && p + GroupOpen(reg) == o && reg >= 1
      && Closed(code, st)[..o] == code[..o] && Closed(code, st)[o..] == t
      && (reg <= MAX_REGNUM ==> code[p..o - 1] == [START_MEMORY, reg])
    ensures var reg, code' := st.stack[|st.stack| - 1].reg, GroupClosed(code, st);
      && p <= |code'| && code'[..p] == code[..p]
      && code'[p..] == GroupCode(START_MEMORY, reg, InnerCount(st)) + t + DummyCode(st.level)
        + GroupCode(STOP_MEMORY, reg, InnerCount(st))
  {
    hide Closed, DummyCode, InnerCount, Base, Begalt;
    var o, reg, closed, d := Base(st.stack), st.stack[|st.stack| - 1].reg, Closed(code, st), DummyCode(st.level);
    if reg <= MAX_REGNUM {
      Framed(code, closed, o, t, d, reg, InnerCount(st));
    } else {
      assert (closed + d)[..o] == closed[..o] && (closed + d)[o..] == t + d;
    }
  }

  // Filling in the count and ending the group, byte by byte.
  lemma {:induction false} Framed(code: seq<byte>, closed: seq<byte>, o: nat, t: seq<byte>, d: seq<byte>, reg: byte,
        count: byte)
    requires 3 <= o <= |code| && o <= |closed| && closed[..o] == code[..o] && closed[o..] == t
    requires code[o - 3..o - 1] == [START_MEMORY, reg]
    ensures var code' := (closed + d)[..o - 1] + [count] + (closed + d)[o..] + [STOP_MEMORY, reg, count];
      && code'[..o - 3] == code[..o - 3]
      && code'[o - 3..] == [START_MEMORY, reg, count] + t + d + [STOP_MEMORY, reg, count]
  {
    var whole, stop := closed + d, [STOP_MEMORY, reg, count];
    assert whole[o..] == t + d;
    assert whole[..o - 1] == code[..o - 1] by {
      SamePrefix(closed, code, o, 0, o - 1);
      assert whole[..o - 1] == closed[..o - 1];
    }
    TwoSlices(code, 0, o - 3, o - 1);
    var code' := code[..o - 3] + [START_MEMORY, reg] + [count] + (t + d) + stop;
    assert code'[o - 3..] == [START_MEMORY, reg] + [count] + (t + d) + stop;
    assert [START_MEMORY, reg] + [count] + (t + d) + stop == [START_MEMORY, reg, count] + t + d + stop;
  }

  lemma {:induction false} CloseHolds(code: seq<byte>, st: PState)
    requires Good(st) && Holds(code, st) && st.stack != []
    ensures GroupOpen(st.stack[|st.stack| - 1].reg) <= Base(st.stack) <= Begalt(st) <= |code|
    ensures (st.level.alts != [] ==> Begalt(st) >= 3 + Base(st.stack))
    ensures Good(CloseGroup(st)) && Holds(GroupClosed(code, st), CloseGroup(st))
  {
    hide Emit, AltsHold, StackHolds, Holds, Good, Closed, Len, WellFormed, GroupClosed, GroupCode, InnerCount,
      DummyCode;
    CloseGood(st);
    Pieces(code, st);
    StackTop(code, st);
    CloseChain(code, st);
    BaseBelow(st);
    var n := |st.stack| - 1;
    var s, front := st.stack[n], st.stack[..n];
    var q := AltStart(Base(front), s.alts);
    var p, t := q + Len(s.cur), Tree(st.level.alts, Current(st.level));
    var code', st' := GroupClosed(code, st), CloseGroup(st);
    GroupClosedSlices(code, st, p, Emit(t));
    CloseLevel(code', st, p);
    StackFrame(code, code', front, st.regnum, st.regnum, p);
    AltsFrame(code, code', Base(front), s.alts, p);
    Pieces(code', st');
  }

  // The group joins the alternative around it.
  lemma {:induction false} CloseLevel(code: seq<byte>, st: PState, p: nat)
    requires st.stack != [] && Good(st) && Good(CloseGroup(st))
    requires var s := st.stack[|st.stack| - 1];
      && p == AltStart(Base(st.stack[..|st.stack| - 1]), s.alts) + Len(s.cur) <= |code|
      && WellFormed(Tree(st.level.alts, Current(st.level)))
      && code[p - Len(s.cur)..p] == Emit(s.cur)
      && code[p..] == GroupCode(START_MEMORY, s.reg, InnerCount(st)) + Emit(Tree(st.level.alts, Current(st.level)))
           + DummyCode(st.level) + GroupCode(STOP_MEMORY, s.reg, InnerCount(st))
    ensures code[p - Len(st.stack[|st.stack| - 1].cur)..] == Emit(Current(CloseGroup(st).level))
    ensures |code| == Used(CloseGroup(st))
  {
    hide GroupCode, DummyCode, Tree;
    var s := st.stack[|st.stack| - 1];
    var inner := if st.regnum >= s.reg then st.regnum - s.reg else 0;
    GroupLayout(s.reg, inner, st.level);
    SameCount(s.reg, inner);
    var g := Group(s.reg, inner, Tree(st.level.alts, Current(st.level)));
    assert code[p..] == Emit(g);
    TwoSlices(code, p - Len(s.cur), p, |code|);
    assert code[p..] == code[p..|code|];
    assert Emit(Cat(s.cur, g)) == Emit(s.cur) + Emit(g);
  }

  lemma {:induction false} SameCount(reg: nat, inner: nat)
    ensures GroupCode(START_MEMORY, reg, inner) == GroupCode(START_MEMORY, reg, inner % 256)
    ensures GroupCode(STOP_MEMORY, reg, inner) == GroupCode(STOP_MEMORY, reg, inner % 256)
  {
  }
}
