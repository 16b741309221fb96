// regex_compile itself: one pass over the pattern, writing and shifting code in a growing buffer.
// The ghost field `st' is the expression built so far; the buffer always holds its code.
module RegexCompiler {
  import opened Bytes
  import opened RegexTree
  import opened RegexCode
  import opened RegexBracket
  import opened RegexParse
  import opened Wrappers
  import opened RegexAssembly

  const INIT_BUF_SIZE := 32

  // compile_stack_elt_t: offsets into the buffer; fixup is one more than the offset, or 0.
  datatype Elt = Elt(begalt: nat, fixup: nat, inner: nat, laststart: nat, regnum: nat)

  function EltOf(saved: seq<Saved>, i: nat): Elt
    requires i < |saved|
  {
    var s, q := saved[i], AltStart(Base(saved[..i]), saved[i].alts);
    Elt(q, if s.alts == [] then 0 else q - 3 + 1, if s.reg <= MAX_REGNUM then q + Len(s.cur) + 2 else 0,
      q + Len(s.cur), s.reg)
  }

  predicate EltsMatch(elts: seq<Elt>, saved: seq<Saved>) {
    |elts| == |saved| && forall i :: 0 <= i < |elts| ==> elts[i] == EltOf(saved, i)
  }

  // The count byte of the last literal run, and whether that run may still grow.
  predicate PendingOk(code: seq<byte>, pending: Option<nat>, st: PState) {
    && (pending.Some? ==> Begalt(st) <= pending.value < |code| && pending.value + code[pending.value] + 1 <= |code|)
    && (st.level.run <==> pending.Some? && pending.value + code[pending.value] + 1 == |code|)
    && (st.level.run ==> pending.value == LastStart(st) + 1)
  }

  // The pointers of regex_compile, as offsets into the buffer.
  datatype Cursor = Cursor(laststart: Option<nat>, begalt: nat, fixup: Option<nat>, pending: Option<nat>,
    stack: seq<Elt>, regnum: nat)

  ghost predicate Pointers(cur: Cursor, st: PState) {
    && cur.regnum == st.regnum
    && cur.begalt == Begalt(st)
    && (st.level.alts == [] ==> cur.fixup == None)
    && (st.level.alts != [] ==> cur.fixup.Some? && cur.fixup.value + 3 == cur.begalt)
    && cur.laststart == (if st.level.last.None? then None else Some(LastStart(st)))
    && EltsMatch(cur.stack, st.stack)
  }

  // Code and pointers are those of the expression built so far.
  ghost predicate Agrees(code: seq<byte>, cur: Cursor, st: PState) {
    Good(st) && Holds(code, st) && Pointers(cur, st) && PendingOk(code, cur.pending, st)
  }

  function ErrorOf<T>(r: Result<T>): Option<Error> {
    match r
    case Ok(_) => None
    case Err(e) => Some(e)
  }

  class Compiler {
    var buffer: array<byte>
    var b: nat
    var laststart: Option<nat>
    var begalt: nat
    var fixup: Option<nat>
    var pending: Option<nat>
    var stack: seq<Elt>
    var regnum: nat
    ghost var st: PState

    predicate Sized()
      reads this
    {
      INIT_BUF_SIZE <= buffer.Length <= MAX_BUF_SIZE && b <= buffer.Length
    }

    ghost function Here(): Cursor
      reads this
    {
      Cursor(laststart, begalt, fixup, pending, stack, regnum)
    }

    ghost predicate Valid()
      reads this, buffer
    {
      Sized() && Agrees(buffer[..b], Here(), st)
    }

    constructor ()
      ensures Valid() && fresh(buffer) && AtStart(st)
    {
      hide Agrees;
      buffer := new byte[INIT_BUF_SIZE];
      b, laststart, begalt, fixup, pending, stack, regnum := 0, None, 0, None, None, [], 0;
      st := START;
      new;
      StartAgrees();
      assert buffer[..b] == [];
    }

    // ---- The buffer ----

    // EXTEND_BUFFER: twice the size, but no more than the maximum.
    method Extend()
      requires Sized() && buffer.Length < MAX_BUF_SIZE
      modifies this`buffer
      ensures Sized() && fresh(buffer) && buffer[..b] == old(buffer[..b])
      ensures buffer.Length > old(buffer.Length)
    {
      var size := if 2 * buffer.Length > MAX_BUF_SIZE then MAX_BUF_SIZE else 2 * buffer.Length;
      var bigger := new byte[size];
      var i := 0;
      while i < buffer.Length
        invariant buffer == old(buffer) && i <= buffer.Length && bigger[..i] == buffer[..i]
      {
        bigger[i] := buffer[i];
        i := i + 1;
      }
      assert bigger[..b] == bigger[..i][..b];
      buffer := bigger;
    }

    // GET_BUFFER_SPACE
    method Reserve(n: nat) returns (ok: bool)
      requires Sized()
      modifies this`buffer
      ensures Sized() && (buffer == old(buffer) || fresh(buffer)) && buffer[..b] == old(buffer[..b])
      ensures ok == (b + n <= MAX_BUF_SIZE)
      ensures ok ==> b + n <= buffer.Length
    {
      while b + n > buffer.Length
        invariant Sized() && (buffer == old(buffer) || fresh(buffer)) && buffer[..b] == old(buffer[..b])
        decreases MAX_BUF_SIZE - buffer.Length
      {
        if buffer.Length == MAX_BUF_SIZE { return false; }
        Extend();
      }
      return true;
    }

    method Put(c: byte)
      requires Sized() && b < buffer.Length
      modifies this`b, buffer
      ensures Sized() && b == old(b) + 1 && buffer[..b] == old(buffer[..b]) + [c]
    {
      buffer[b] := c;
      b := b + 1;
    }

    method PutPair(c1: byte, c2: byte)
      requires Sized() && b + 2 <= buffer.Length
      modifies this`b, buffer
      ensures Sized() && b == old(b) + 2 && buffer[..b] == old(buffer[..b]) + [c1, c2]
    {
      Put(c1);
      Put(c2);
    }

    // store_op1: overwrite three bytes.
    method StoreOp1(op: byte, loc: nat, arg: int)
      requires loc + 3 <= buffer.Length
      modifies buffer
      ensures buffer[loc..loc + 3] == JumpCode(op, arg)
      ensures forall i :: 0 <= i < buffer.Length && !(loc <= i < loc + 3) ==> buffer[i] == old(buffer[i])
    {
      var number := StoreNumber(arg);
      buffer[loc], buffer[loc + 1], buffer[loc + 2] := op, number[0], number[1];
    }

    // insert_op1: open up three bytes at loc, copying backwards over the end, and store a jump there.
    method InsertOp1(op: byte, loc: nat, arg: int)
      requires Sized() && loc <= b && b + 3 <= buffer.Length
      modifies buffer
      ensures buffer[..b + 3] == old(buffer[..loc]) + JumpCode(op, arg) + old(buffer[loc..b])
    {
      ghost var was := buffer[..];
      ShiftUp(loc);
      StoreOp1(op, loc, arg);
      assert buffer[..loc] == was[..loc] && buffer[loc + 3..b + 3] == was[loc..b];
      TwoSlices(buffer[..], 0, loc, b + 3);
      TwoSlices(buffer[..], loc, loc + 3, b + 3);
    }

    // The copy runs backwards, so that no byte is overwritten before it has been moved.
    method ShiftUp(loc: nat)
      requires Sized() && loc <= b && b + 3 <= buffer.Length
      modifies buffer
      ensures forall i :: 0 <= i < loc ==> buffer[i] == old(buffer[i])
      ensures forall i :: loc <= i < b ==> buffer[i + 3] == old(buffer[i])
    {
      var from, to := b, b + 3;
      while from != loc
        invariant loc <= from <= b && to == from + 3
        invariant forall i :: 0 <= i < to ==> buffer[i] == old(buffer[i])
        invariant forall i :: from <= i < b ==> buffer[i + 3] == old(buffer[i])
        decreases from
      {
        to, from := to - 1, from - 1;
        buffer[to] := buffer[from];
      }
    }

    // ---- One construct at a time ----

    // A one-byte command: `.', which repetitions can take hold of, or an anchor, which they cannot.
    method AddOne(op: byte, ghost x: Re, anchor: bool) returns (err: Option<Error>)
      requires Valid() && WellFormed(x) && Emit(x) == [op]
      modifies this, buffer
      ensures buffer == old(buffer) || fresh(buffer)
      ensures err == (if Used(old(st)) + 1 <= MAX_BUF_SIZE then None else Some(ESize))
      ensures err.None? ==>
        Valid() && st == old(st).(level := if anchor then Attach(old(st).level, x) else Begin(old(st).level, x, false))
    {
      hide Agrees, Emit, WellFormed, Used;
      OneAgrees(buffer[..b], Here(), st, x, anchor);
      var ok := Reserve(1);
      if !ok { return Some(ESize); }
      if !anchor { laststart := Some(b); }
      Put(op);
      st := st.(level := if anchor then Attach(st.level, x) else Begin(st.level, x, false));
      return None;
    }

    // A literal: one more character for the last run, or a new run.
    method AddExact(c: byte, alone: bool) returns (err: Option<Error>)
      requires Valid()
      modifies this, buffer
      ensures buffer == old(buffer) || fresh(buffer)
      ensures err == (if Used(old(st)) + CharSpace(old(st).level, alone) <= MAX_BUF_SIZE then None else Some(ESize))
      ensures err.None? ==> Valid() && st == old(st).(level := AddChar(old(st).level, c, alone))
    {
      hide Agrees, Used;
      RunLength(buffer[..b], Here(), st);
      if pending.None? || pending.value + buffer[pending.value] + 1 != b || buffer[pending.value] == 255 || alone {
        err := NewExact(c);
      } else {
        err := GrowExact(c);
      }
    }

    method NewExact(c: byte) returns (err: Option<Error>)
      requires Valid()
      modifies this, buffer
      ensures buffer == old(buffer) || fresh(buffer)
      ensures err == (if Used(old(st)) + 3 <= MAX_BUF_SIZE then None else Some(ESize))
      ensures err.None? ==> Valid() && st == old(st).(level := Begin(old(st).level, Lit([c]), true))
    {
      hide Agrees, Used;
      ghost var code := buffer[..b];
      NewRun(code, Here(), st, c);
      var ok := Reserve(3);
      if !ok { return Some(ESize); }
      laststart := Some(b);
      PutPair(EXACTN, 0);
      pending := Some(b - 1);
      Put(c);
      buffer[pending.value] := buffer[pending.value] + 1;
      assert buffer[..b] == (code + [EXACTN, 0] + [c])[|code| + 1 := 1] == code + [EXACTN, 1, c];
      st := st.(level := Begin(st.level, Lit([c]), true));
      return None;
    }

    method GrowExact(c: byte) returns (err: Option<Error>)
      requires Valid() && pending.Some? && Extends(st.level, false)
      modifies this, buffer
      ensures buffer == old(buffer) || fresh(buffer)
      ensures err == (if Used(old(st)) + 1 <= MAX_BUF_SIZE then None else Some(ESize))
      ensures err.None? ==> Valid() && st == old(st).(level := AddChar(old(st).level, c, false))
    {
      hide Agrees, Used;
      ghost var code := buffer[..b];
      LongerRun(code, Here(), st, c);
      var ok := Reserve(1);
      if !ok { return Some(ESize); }
      Put(c);
      assert buffer[pending.value] == buffer[..b][pending.value] == code[pending.value];
      buffer[pending.value] := buffer[pending.value] + 1;
      assert buffer[..b] == (code + [c])[pending.value := code[pending.value] + 1];
      st := st.(level := AddChar(st.level, c, false));
      return None;
    }

    // A repetition of the last expression: shifted up to make room for the jumps around it.
    method AddRepeat(zero: bool, many: bool) returns (err: Option<Error>)
      requires Valid() && (zero || many)
      modifies this, buffer
      ensures buffer == old(buffer) || fresh(buffer)
      ensures err == ErrorOf(Shift(old(st), Repeat(zero, many)))
      ensures err.None? ==> Valid() && Shift(old(st), Repeat(zero, many)) == Ok(st)
    {
      hide Agrees, Used, JumpCode, Looped;
      LaststartSet(buffer[..b], Here(), st);
      if laststart.None? { return None; }
      ghost var code := buffer[..b];
      var loc := laststart.value;
      Repeated(code, Here(), st, zero, many);
      var ok := true;
      if many { ok := AppendJump(MAYBE_POP_JUMP, loc as int - 3); }
      if !ok { return Some(ESize); }
      ghost var looped := buffer[..b];
      assert looped == WithBackJump(code, loc, many);
      ok := InsertJump(ON_FAILURE_JUMP, loc, b + 3);
      if !ok { return Some(ESize); }
      ghost var guarded := buffer[..b];
      assert guarded == WithGuard(looped, loc);
      pending := None;
      if !zero { ok := InsertJump(DUMMY_FAILURE_JUMP, loc, loc + 6); }
      if !ok { return Some(ESize); }
      assert buffer[..b] == WithSkip(guarded, loc, zero);
      st := st.(level := st.level.(last := Some(Looped(st.level.last.value, zero, many)), run := false));
      return None;
    }

    // handle_open: the pointers are set aside and a start_memory is written, its count still open.
    method OpenGroup() returns (err: Option<Error>)
      requires Valid()
      modifies this, buffer
      ensures buffer == old(buffer) || fresh(buffer)
      ensures err == ErrorOf(Shift(old(st), Open))
      ensures err.None? ==> Valid() && Shift(old(st), Open) == Ok(st)
    {
      hide Agrees, Used;
      ghost var code := buffer[..b];
      OpenAgrees(code, Here(), st);
      regnum := regnum + 1;
      var place := match fixup case None => 0 case Some(f) => f + 1;
      stack := stack + [Elt(begalt, place, if regnum <= MAX_REGNUM then b + 2 else 0, b, regnum)];
      if regnum <= MAX_REGNUM {
        var ok := Reserve(3);
        if !ok { return Some(ESize); }
        PutPair(START_MEMORY, regnum);
        Put(0);
      }
      assert buffer[..b] == code + Opening(regnum);
      fixup, laststart, begalt, pending := None, None, b, None;
      st := PState(st.stack + [Saved(st.level.alts, Current(st.level), regnum)], EMPTY, regnum);
      return None;
    }

    // handle_alt: a failure jump goes in before the current alternative, the jump waiting after the
    // previous one is filled in, and room is left for one after this.
    method Alternative() returns (err: Option<Error>)
      requires Valid()
      modifies this, buffer
      ensures buffer == old(buffer) || fresh(buffer)
      ensures err == ErrorOf(Shift(old(st), Token.Bar))
      ensures err.None? ==> Valid() && Shift(old(st), Token.Bar) == Ok(st)
    {
      hide Agrees, Used, Filled, WithAlternative, Begalt, Current;
      ghost var code := buffer[..b];
      AlternativePlaces(code, Here(), st);
      var ok := InsertAlternative();
      if !ok { return Some(ESize); }
      AlternativeCode(code, st, fixup, buffer[b - 3..b]);
      AlternativeAgrees(code, Here(), st, buffer[b - 3..b]);
      pending, fixup, laststart, begalt := None, Some(b - 3), None, b;
      st := st.(level := Level(st.level.alts + [Current(st.level)], Eps, None, false));
      return None;
    }

    method InsertAlternative() returns (ok: bool)
      requires Sized() && begalt <= b && (fixup.Some? ==> fixup.value + 3 <= b)
      modifies this`b, this`buffer, buffer
      ensures Sized() && (buffer == old(buffer) || fresh(buffer))
      ensures ok == (old(b) + 6 <= MAX_BUF_SIZE)
      ensures ok ==> b == old(b) + 6
      ensures ok ==>
        var code := old(buffer[..b]);
        buffer[..b] == Filled(code[..begalt] + JumpCode(ON_FAILURE_JUMP, |code| + 6 - begalt - 3) + code[begalt..],
          fixup, |code| + 3)
          + buffer[b - 3..b]
    {
      hide JumpCode, Filled;
      ok := InsertJump(ON_FAILURE_JUMP, begalt, b + 6);
      if !ok { return; }
      FillJump(b);
      ok := Reserve(3);
      if !ok { return; }
      b := b + 3;
      assert buffer[..b] == buffer[..b - 3] + buffer[b - 3..b];
    }

    // The jump waiting after the previous alternative, if any, is made to lead to `to'.
    method FillJump(to: nat)
      requires Sized() && (fixup.Some? ==> fixup.value + 3 <= b)
      modifies buffer
      ensures buffer[..b] == Filled(old(buffer[..b]), fixup, to)
    {
      if fixup.Some? {
        hide JumpCode;
        ghost var code := buffer[..b];
        var k := fixup.value;
        StoreOp1(JUMP_PAST_ALT, k, to - k - 3);
        assert buffer[..k] == code[..k] && buffer[k + 3..b] == code[k + 3..];
        TwoSlices(buffer[..], 0, k, b);
        TwoSlices(buffer[..], k, k + 3, b);
      }
    }

    // The end of a group of alternatives: a failure point for a pop_failure_jump to take.
    method CloseAlternatives() returns (ok: bool)
      requires Valid()
      modifies this`b, this`buffer, buffer
      ensures Sized() && (buffer == old(buffer) || fresh(buffer))
      ensures ok == (Used(st) + DummySpace(st.level) <= MAX_BUF_SIZE)
      ensures ok ==> old(b) == Used(st) && b == old(b) + DummySpace(st.level)
      ensures ok ==> Begalt(st) <= old(b) && (st.level.alts != [] ==> Begalt(st) >= 3)
      ensures ok ==> buffer[..b] == Closed(old(buffer[..b]), st) + DummyCode(st.level)
    {
      hide Agrees, Used, JumpCode, Filled, Closed, Begalt;
      ghost var code := buffer[..b];
      AlternativePlaces(code, Here(), st);
      ClosedIsFilled(code, st, fixup);
      if fixup.None? { return true; }
      ok := Reserve(1);
      if !ok { return; }
      Put(PUSH_DUMMY_FAILURE);
      FillJump(b - 1);
    }

    // handle_close for a group: the pointers come back, and the count of inner groups is known now.
    method CloseParen() returns (err: Option<Error>)
      requires Valid() && stack != []
      modifies this, buffer
      ensures buffer == old(buffer) || fresh(buffer)
      ensures st == old(st) || err.None?
      ensures old(st).stack != []
      ensures var reg := old(st).stack[|old(st).stack| - 1].reg;
        err == if Used(old(st)) + DummySpace(old(st).level) + GroupOpen(reg) <= MAX_BUF_SIZE then None else Some(ESize)
      ensures err.None? ==> Valid() && st == CloseGroup(old(st))
    {
      hide Agrees, Used, CloseGroup, GroupClosed, Closed, DummyCode, Base, Begalt, InnerCount;
      ghost var code := buffer[..b];
      var top := stack[|stack| - 1];
      CloseAgrees(code, Here(), st);
      var ok := CloseAlternatives();
      if !ok { return Some(ESize); }
      ok := EndGroup(top);
      if !ok { return Some(ESize); }
      assert buffer[..b] == GroupClosed(code, st);
      stack := stack[..|stack| - 1];
      begalt, laststart, pending := top.begalt, Some(top.laststart), None;
      fixup := if top.fixup == 0 then None else Some(top.fixup - 1);
      st := CloseGroup(st);
      return None;
    }

    method EndGroup(top: Elt) returns (ok: bool)
      requires Sized() && 1 <= top.regnum <= regnum && (top.regnum <= MAX_REGNUM ==> top.inner < b)
      modifies this`b, this`buffer, buffer
      ensures Sized() && (buffer == old(buffer) || fresh(buffer))
      ensures ok == (old(b) + GroupOpen(top.regnum) <= MAX_BUF_SIZE)
      ensures ok ==> buffer[..b] == Ended(old(buffer[..b]), top, regnum)
    {
      if top.regnum > MAX_REGNUM { return true; }
      ghost var code := buffer[..b];
      var count := (regnum - top.regnum) % 256;
      ok := Reserve(3);
      if !ok { return; }
      buffer[top.inner] := count;
      assert buffer[..b] == code[..top.inner] + [count] + code[top.inner + 1..];
      PutPair(STOP_MEMORY, top.regnum);
      Put(count);
    }

    // A `)' that closes nothing.
    method LoneParen(alone: bool) returns (err: Option<Error>)
      requires Valid() && stack == []
      modifies this, buffer
      ensures buffer == old(buffer) || fresh(buffer)
      ensures err == ErrorOf(Shift(old(st), Close(alone)))
      ensures err.None? ==> Valid() && Shift(old(st), Close(alone)) == Ok(st)
    {
      hide Agrees, Used, Closed, Begalt, AddChar, Attach;
      ghost var code := buffer[..b];
      LoneAgrees(code, Here(), st);
      var ok := CloseAlternatives();
      if !ok { return Some(ESize); }
      st := st.(level := Unmatched(st.level));
      err := AddExact(RIGHT_PAREN, alone);
    }

    // SET_LIST_BIT: the map lies just past the end of the code.
    method SetListBit(c: byte)
      requires Sized() && b + MAP_BYTES <= buffer.Length
      modifies buffer
      ensures buffer[b..b + MAP_BYTES] == Marked(old(buffer[b..b + MAP_BYTES]), c)
      ensures buffer[..b] == old(buffer[..b])
    {
      buffer[b + c / 8] := WithBit(buffer[b + c / 8], c);
    }

    method ClearMap()
      requires Sized() && b + MAP_BYTES <= buffer.Length
      modifies buffer
      ensures buffer[b..b + MAP_BYTES] == Blank() && buffer[..b] == old(buffer[..b])
    {
      var i := 0;
      while i < MAP_BYTES
        invariant 0 <= i <= MAP_BYTES && buffer[..b] == old(buffer[..b])
        invariant forall k :: b <= k < b + i ==> buffer[k] == 0
      {
        buffer[b + i] := 0;
        i := i + 1;
      }
    }

    // compile_range: every character from the one before the hyphen to the one at p.
    method CompileRange(pat: seq<byte>, p: nat) returns (err: Option<Error>)
      requires Sized() && b + MAP_BYTES <= buffer.Length
      modifies buffer
      ensures buffer[..b] == old(buffer[..b])
      ensures match RangeAt(pat, p)
        case Err(e) => err == Some(e)
        case Ok(r) => err == None && buffer[b..b + MAP_BYTES] == MarkedRange(old(buffer[b..b + MAP_BYTES]), r.lo, r.hi)
    {
      if p >= |pat| { return Some(ERange); }
      var rangeStart, rangeEnd := At(pat, p - 2), pat[p];
      if rangeStart > rangeEnd { return Some(ERange); }
      ghost var bits := buffer[b..b + MAP_BYTES];
      var thisChar: nat := rangeStart;
      while thisChar <= rangeEnd
        invariant rangeStart <= thisChar <= rangeEnd + 1 && buffer[..b] == old(buffer[..b])
        invariant MarkedRange(buffer[b..b + MAP_BYTES], thisChar, rangeEnd) == MarkedRange(bits, rangeStart, rangeEnd)
      {
        SetListBit(thisChar);
        thisChar := thisChar + 1;
      }
      return None;
    }

    // The members of a bracket expression, each setting its bits.
    method ReadMembers(pat: seq<byte>, first: nat) returns (err: Option<Error>, p: nat)
      requires Sized() && b + MAP_BYTES <= buffer.Length && buffer[b..b + MAP_BYTES] == Blank()
      modifies buffer
      ensures buffer[..b] == old(buffer[..b])
      ensures match Members(pat, first, first, [])
        case Err(e) => err == Some(e)
        case Ok(r) => err == None && p == r.1 && buffer[b..b + MAP_BYTES] == MapOf(r.0)
    {
      hide MapOf, MarkedRange, RangeOperator, RangeAt, Blank, Marked;
      p := first;
      ghost var ranges: seq<Range> := [];
      EmptyMap();
      while true
        invariant buffer[..b] == old(buffer[..b]) && buffer[b..b + MAP_BYTES] == MapOf(ranges)
        invariant Members(pat, p, first, ranges) == Members(pat, first, first, [])
        decreases |pat| - p
      {
        if p >= |pat| { return Some(EBracket), p; }
        if pat[p] == RIGHT_BRACKET && p != first { return None, p + 1; }
        if RangeOperator(pat, p) {
          MapMore(ranges, RangeAt(pat, p + 1));
          err := CompileRange(pat, p + 1);
          if err.Some? { return; }
          ranges := ranges + [RangeAt(pat, p + 1).value];
          p := p + 2;
        } else if At(pat, p + 1) == HYPHEN && At(pat, p + 2) != RIGHT_BRACKET {
          MapMore(ranges, RangeAt(pat, p + 2));
          err := CompileRange(pat, p + 2);
          if err.Some? { return; }
          ranges := ranges + [RangeAt(pat, p + 2).value];
          p := p + 3;
        } else if pat[p] == LEFT_BRACKET && At(pat, p + 1) == COLON {
          return Some(Unsupported), p;
        } else {
          MapMore(ranges, Ok(Range(pat[p], pat[p])));
          OneMarked(MapOf(ranges), pat[p]);
          SetListBit(pat[p]);
          ranges := ranges + [Range(pat[p], pat[p])];
          p := p + 1;
        }
      }
    }

    // Zero bytes at the end of the map are dropped: the length byte before it counts down.
    method TrimMap()
      requires Sized() && 0 < b && b + MAP_BYTES <= buffer.Length && buffer[b - 1] == MAP_BYTES
      modifies buffer
      ensures buffer[..b - 1] == old(buffer[..b - 1]) && buffer[b - 1] <= MAP_BYTES
      ensures buffer[b..b + buffer[b - 1]] == Trimmed(old(buffer[b..b + MAP_BYTES]))
    {
      ghost var bits := buffer[b..b + MAP_BYTES];
      assert bits[..MAP_BYTES] == bits;
      while buffer[b - 1] > 0 && buffer[b + buffer[b - 1] - 1] == 0
        invariant buffer[..b - 1] == old(buffer[..b - 1]) && buffer[b - 1] <= MAP_BYTES
        invariant buffer[b..b + MAP_BYTES] == bits && Trimmed(bits[..buffer[b - 1]]) == Trimmed(bits)
        decreases buffer[b - 1]
      {
        assert bits[..buffer[b - 1]][..buffer[b - 1] - 1] == bits[..buffer[b - 1] - 1];
        buffer[b - 1] := buffer[b - 1] - 1;
      }
      InnerSlice(buffer[..], b, b + MAP_BYTES, buffer[b - 1]);
    }

    // The command, the map, and the pattern read up to the closing bracket.
    method WriteSet(pat: seq<byte>, op: byte, first: nat) returns (err: Option<Error>, p: nat)
      requires Sized() && b + 34 <= buffer.Length
      modifies this`b, buffer
      ensures Sized()
      ensures match Members(pat, first, first, [])
        case Err(e) => err == Some(e)
        case Ok(r) =>
          var bits := Trimmed(MapOf(r.0));
          err == None && p == r.1 && buffer[..b] == old(buffer[..b]) + [op, |bits|] + bits
    {
      hide MapOf, Trimmed, Members, Blank;
      ghost var code := buffer[..b];
      PutPair(op, MAP_BYTES);
      ClearMap();
      err, p := ReadMembers(pat, first);
      if err.Some? { return; }
      ghost var bits := Trimmed(MapOf(Members(pat, first, first, []).value.0));
      assert buffer[..b - 1] == buffer[..b][..b - 1] == code + [op];
      TrimMap();
      WholeSet(code, op, bits, buffer[..], b);
      b := b + buffer[b - 1];
    }

    // A bracket expression whose `[' is just before p.
    method AddBracket(pat: seq<byte>, p: nat) returns (err: Option<Error>, p': nat)
      requires Valid()
      modifies this, buffer
      ensures buffer == old(buffer) || fresh(buffer)
      ensures var (tok, q) := BracketAt(pat, p);
        && err == ErrorOf(Shift(old(st), tok))
        && (err.None? ==> Valid() && Shift(old(st), tok) == Ok(st) && p' == q)
    {
      hide Agrees, Used, MapOf, Trimmed, Members;
      if p >= |pat| { return Some(EBracket), p; }
      ghost var code := buffer[..b];
      var neg := pat[p] == HAT;
      var first := if neg then p + 1 else p;
      CodeLength(code, Here(), st);
      var ok := Reserve(34);
      if !ok { return Some(ESize), p; }
      laststart := Some(b);
      err, p' := WriteSet(pat, if neg then CHARSET_NOT else CHARSET, first);
      if err.Some? { return; }
      ghost var bits := Trimmed(MapOf(Members(pat, first, first, []).value.0));
      SetAgrees(code, old(Here()), st, neg, bits);
      st := st.(level := Begin(st.level, Set(neg, bits), false));
    }

    // ---- The whole pattern ----

    // A run of repetition characters collapses to one repetition.
    method ReadRepeats(pat: seq<byte>, p: nat, c: byte) returns (zero: bool, many: bool, p': nat)
      requires IsRepeat(c)
      ensures (Repeat(zero, many), p') == RepeatsFrom(pat, p, c != PLUS, c != QUESTION)
      ensures zero || many
    {
      zero, many, p' := c != PLUS, c != QUESTION, p;
      while p' < |pat| && IsRepeat(pat[p'])
        invariant zero || many
        invariant RepeatsFrom(pat, p', zero, many) == RepeatsFrom(pat, p, c != PLUS, c != QUESTION)
      {
        zero, many := zero || pat[p'] != PLUS, many || pat[p'] != QUESTION;
        p' := p' + 1;
      }
    }

    // The construct at p.
    method Construct(pat: seq<byte>, p: nat) returns (err: Option<Error>, p': nat)
      requires Valid() && p < |pat|
      modifies this, buffer
      ensures buffer == old(buffer) || fresh(buffer)
      ensures var (tok, q) := Lex(pat, p);
        && err == ErrorOf(Shift(old(st), tok))
        && (err.None? ==> Valid() && Shift(old(st), tok) == Ok(st) && p' == q)
    {
      hide Agrees, Used, AddChar, Attach, Begin, CharSpace, CloseGroup, BracketAt, RepeatsFrom;
      OneByteCodes();
      p' := p + 1;
      var c := pat[p];
      if c == HAT { err := AddOne(BEGLINE, Bol, true); }
      else if c == DOLLAR { err := AddOne(ENDLINE, Eol, true); }
      else if IsRepeat(c) {
        var zero, many;
        zero, many, p' := ReadRepeats(pat, p + 1, c);
        err := AddRepeat(zero, many);
      }
      else if c == DOT { err := AddOne(ANYCHAR, Any, false); }
      else if c == LEFT_BRACKET { err, p' := AddBracket(pat, p + 1); }
      else if c == LEFT_PAREN { err := OpenGroup(); }
      else if c == RIGHT_PAREN { err := RightParen(AloneAt(pat, p + 1)); }
      else if c == BAR { err := Alternative(); }
      else if c == LEFT_BRACE { err := Some(Unsupported); }
      else if c == BACKSLASH { err, p' := Escape(pat, p + 1); }
      else { err := AddExact(c, AloneAt(pat, p + 1)); }
    }

    method RightParen(alone: bool) returns (err: Option<Error>)
      requires Valid()
      modifies this, buffer
      ensures buffer == old(buffer) || fresh(buffer)
      ensures err == ErrorOf(Shift(old(st), Close(alone)))
      ensures err.None? ==> Valid() && Shift(old(st), Close(alone)) == Ok(st)
    {
      hide Agrees, Used, AddChar, Attach, CharSpace, CloseGroup;
      StackEmpty(buffer[..b], Here(), st);
      if stack == [] { err := LoneParen(alone); } else { err := CloseParen(); }
    }

    method Escape(pat: seq<byte>, p: nat) returns (err: Option<Error>, p': nat)
      requires Valid()
      modifies this, buffer
      ensures buffer == old(buffer) || fresh(buffer)
      ensures var (tok, q) := EscapeAt(pat, p);
        && err == ErrorOf(Shift(old(st), tok))
        && (err.None? ==> Valid() && Shift(old(st), tok) == Ok(st) && p' == q)
    {
      hide Agrees, Used, AddChar, CharSpace;
      p' := p + 1;
      if p >= |pat| { return Some(EEscape), p; }
      if SpecialEscape(pat[p]) { return Some(Unsupported), p; }
      err := AddExact(pat[p], AloneAt(pat, p + 1));
    }

    method Advance(pat: seq<byte>, p: nat) returns (err: Option<Error>, p': nat)
      requires Valid() && p < |pat|
      modifies this, buffer
      ensures buffer == old(buffer) || fresh(buffer)
      ensures err == ErrorOf(StepAt(pat, p, old(st)))
      ensures err.None? ==> Valid() && StepAt(pat, p, old(st)) == Ok((st, p'))
    {
      hide Agrees, Shift, Lex;
      err, p' := Construct(pat, p);
    }

    method ReadAll(pat: seq<byte>) returns (err: Option<Error>)
      requires Valid()
      modifies this, buffer
      ensures buffer == old(buffer) || fresh(buffer)
      ensures err.Some? ==> ParseFrom(pat, 0, old(st)) == Err(err.value)
      ensures err.None? ==> Valid() && ParseFrom(pat, 0, old(st)) == Finish(st)
    {
      hide Agrees, StepAt, Finish, ParseFrom;
      err := None;
      var p := 0;
      while p < |pat|
        invariant Valid() && (buffer == old(buffer) || fresh(buffer)) && err.None?
        invariant ParseFrom(pat, p, st) == ParseFrom(pat, 0, old(st))
        decreases |pat| - p
      {
        ParseSteps(pat, p, st);
        err, p := Advance(pat, p);
        if err.Some? { return; }
      }
      ParseEnds(pat, p, st);
    }

    // The last jump filled in, unless a group is still open.
    method Conclude() returns (err: Option<Error>)
      requires Valid()
      modifies buffer
      ensures match Finish(st)
        case Err(e) => err == Some(e)
        case Ok(c) => err == None && Sized() && WellFormed(c.tree) && buffer[..b] == Emit(c.tree) && regnum == c.groups
    {
      hide Agrees, Closed, Tree, Current, Emit, WellFormed, Used, Begalt, DummyCode, Filled;
      FinishAgrees(buffer[..b], Here(), st);
      ClosedIsFilled(buffer[..b], st, fixup);
      FillJump(b);
      if stack != [] { return Some(EParen); }
      return None;
    }

    // STORE_JUMP at the end.
    method AppendJump(op: byte, to: int) returns (ok: bool)
      requires Sized()
      modifies this`b, this`buffer, buffer
      ensures Sized() && (buffer == old(buffer) || fresh(buffer))
      ensures ok == (old(b) + 3 <= MAX_BUF_SIZE)
      ensures ok ==> b == old(b) + 3 && buffer[..b] == old(buffer[..b]) + JumpCode(op, to - old(b) - 3)
    {
      hide JumpCode;
      ghost var code := buffer[..b];
      ok := Reserve(3);
      if !ok { return; }
      StoreOp1(op, b, to - b - 3);
      b := b + 3;
      assert buffer[..b - 3] == code;
      TwoSlices(buffer[..], 0, b - 3, b);
    }

    // INSERT_JUMP, with the end of the buffer moved on.
    method InsertJump(op: byte, loc: nat, to: int) returns (ok: bool)
      requires Sized() && loc <= b
      modifies this`b, this`buffer, buffer
      ensures Sized() && (buffer == old(buffer) || fresh(buffer))
      ensures ok == (old(b) + 3 <= MAX_BUF_SIZE)
      ensures ok ==>
        b == old(b) + 3 && buffer[..b] == old(buffer[..b])[..loc] + JumpCode(op, to - loc - 3) + old(buffer[..b])[loc..]
    {
      hide JumpCode;
      ghost var code := buffer[..b];
      ok := Reserve(3);
      if !ok { return; }
      assert buffer[..loc] == code[..loc] && buffer[loc..b] == code[loc..];
      InsertOp1(op, loc, to - loc - 3);
      b := b + 3;
    }
  }

  // ---- What each construct needs to know ----

  lemma {:induction false} StartAgrees()
    ensures Agrees([], Cursor(None, 0, None, None, [], 0), START)
  {
    hide Holds, AltsHold, Emit, Base, AltsLen, Used, Begalt, LastStart;
    StartGood();
    EmptyHolds([], 0);
    StartPlaces();
    Pieces([], START);
  }

  lemma {:induction false} StartPlaces()
    ensures Base([]) == 0 && Begalt(START) == 0 && Used(START) == 0
  {
  }

  lemma {:induction false} HeldLength(code: seq<byte>, st: PState)
    requires Good(st) && Holds(code, st)
    ensures |code| == Used(st) && Begalt(st) + Len(Current(st.level)) == |code|
    ensures st.level.last.Some? ==> LastStart(st) + Len(st.level.last.value) == |code|
    ensures st.level.last.None? ==> LastStart(st) == |code|
  {
    hide StackHolds, AltsHold, Emit, Base, AltsLen;
  }

  lemma {:induction false} LaststartSet(code: seq<byte>, cur: Cursor, st: PState)
    requires Agrees(code, cur, st)
    ensures cur.laststart.Some? <==> st.level.last.Some?
  {
    hide Holds, Good, PendingOk, EltsMatch;
  }

  // Only the current alternative moves on; the pointers of everything around it stay.
  lemma {:induction false} SamePlaces(cur: Cursor, st: PState, cur': Cursor, l: Level)
    requires Pointers(cur, st) && l.alts == st.level.alts
    requires cur' == cur.(laststart := cur'.laststart, pending := cur'.pending)
    requires cur'.laststart == (if l.last.None? then None else Some(LastStart(st.(level := l))))
    ensures Pointers(cur', st.(level := l))
  {
    hide EltsMatch, LastStart;
  }

  lemma {:induction false} OneAgrees(code: seq<byte>, cur: Cursor, st: PState, x: Re, anchor: bool)
    requires Agrees(code, cur, st) && WellFormed(x) && |Emit(x)| == 1
    ensures |code| == Used(st)
    ensures Agrees(code + Emit(x), if anchor then cur else cur.(laststart := Some(|code|)),
                   st.(level := if anchor then Attach(st.level, x) else Begin(st.level, x, false)))
  {
    hide Holds, Good, Emit, Pointers, PendingOk, Begalt, LastStart;
    var l := if anchor then Attach(st.level, x) else Begin(st.level, x, false);
    HeldLength(code, st);
    if anchor { AppendAttached(code, st, x); } else { AppendNew(code, st, x, false); }
    Appended(code, st, x, cur.pending);
    KeptStart(cur, st, x);
    SamePlaces(cur, st, if anchor then cur else cur.(laststart := Some(|code|)), l);
  }

  lemma {:induction false} KeptStart(cur: Cursor, st: PState, x: Re)
    requires Pointers(cur, st)
    ensures var l := Attach(st.level, x);
      cur.laststart == if l.last.None? then None else Some(LastStart(st.(level := l)))
  {
    hide EltsMatch;
  }

  // After code has been added, the last run is over.
  lemma {:induction false} Appended(code: seq<byte>, st: PState, x: Re, pending: Option<nat>)
    requires Good(st) && Holds(code, st) && PendingOk(code, pending, st) && WellFormed(x) && |Emit(x)| > 0
    ensures PendingOk(code + Emit(x), pending, st.(level := Attach(st.level, x)))
    ensures PendingOk(code + Emit(x), pending, st.(level := Begin(st.level, x, false)))
    ensures LastStart(st.(level := Begin(st.level, x, false))) == |code|
  {
    hide Holds, Good, Emit;
    HeldLength(code, st);
  }

  lemma {:induction false} RunLength(code: seq<byte>, cur: Cursor, st: PState)
    requires Agrees(code, cur, st)
    ensures cur.pending.Some? ==> cur.pending.value < |code|
    ensures st.level.run <==> cur.pending.Some? && cur.pending.value + code[cur.pending.value] + 1 == |code|
    ensures st.level.run ==>
      st.level.last.Some? && st.level.last.value.Lit? && code[cur.pending.value] == |st.level.last.value.chars|
  {
    hide StackHolds, AltsHold, Base, AltsLen, Used, Pointers;
    if st.level.run {
      var x := st.level.last.value;
      ReplaceLast(code, st, x, true);
      assert Emit(x)[1] == |x.chars|;
    }
  }

  lemma {:induction false} NewRun(code: seq<byte>, cur: Cursor, st: PState, c: byte)
    requires Agrees(code, cur, st)
    ensures |code| == Used(st)
    ensures Agrees(code + [EXACTN, 1, c], cur.(laststart := Some(|code|), pending := Some(|code| + 1)),
                   st.(level := Begin(st.level, Lit([c]), true)))
  {
    hide Holds, Good, Base, AltsLen, EltsMatch;
    AppendNew(code, st, Lit([c]), true);
    assert Emit(Lit([c])) == [EXACTN, 1, c];
    HeldLength(code, st);
  }

  lemma {:induction false} LongerRun(code: seq<byte>, cur: Cursor, st: PState, c: byte)
    requires Agrees(code, cur, st) && cur.pending.Some? && Extends(st.level, false)
    ensures |code| == Used(st) && cur.pending.value < |code| && code[cur.pending.value] < 255
    ensures Agrees((code + [c])[cur.pending.value := code[cur.pending.value] + 1], cur,
      st.(level := AddChar(st.level, c, false)))
  {
    hide Holds, Good, Base, AltsLen, Pointers;
    var x, m, p := st.level.last.value, LastStart(st), cur.pending.value;
    var y := Lit(x.chars + [c]);
    HeldLength(code, st);
    LitCode(st);
    ReplaceLast(code, st, y, true);
    assert code[m..][1] == |x.chars|;
    assert code == code[..m] + [EXACTN, |x.chars|] + x.chars;
    assert (code + [c])[p := code[p] + 1] == code[..m] + Emit(y);
    SameStart(cur, st, y, true);
    SamePlaces(cur, st, cur, AddChar(st.level, c, false));
  }

  lemma {:induction false} SameStart(cur: Cursor, st: PState, y: Re, run: bool)
    requires Pointers(cur, st) && st.level.last.Some?
    ensures cur.laststart == Some(LastStart(st.(level := st.level.(last := Some(y), run := run))))
  {
    hide EltsMatch;
  }

  lemma {:induction false} LitCode(st: PState)
    requires Good(st) && st.level.last.Some? && st.level.last.value.Lit?
    ensures WellFormed(st.level.last.value)
    ensures Emit(st.level.last.value) == [EXACTN, |st.level.last.value.chars|] + st.level.last.value.chars
  {
  }

  // The three steps that wrap the expression at loc in a loop.
  function WithBackJump(code: seq<byte>, loc: nat, many: bool): seq<byte> {
    code + if many then JumpCode(MAYBE_POP_JUMP, loc - 3 - |code| - 3) else []
  }

  function WithGuard(code: seq<byte>, loc: nat): seq<byte>
    requires loc <= |code|
  {
    code[..loc] + JumpCode(ON_FAILURE_JUMP, |code| - loc) + code[loc..]
  }

  function WithSkip(code: seq<byte>, loc: nat, zero: bool): seq<byte>
    requires loc <= |code|
  {
    if zero then code else code[..loc] + JumpCode(DUMMY_FAILURE_JUMP, 3) + code[loc..]
  }

  lemma {:induction false} Repeated(code: seq<byte>, cur: Cursor, st: PState, zero: bool, many: bool)
    requires Agrees(code, cur, st) && st.level.last.Some? && (zero || many)
    ensures |code| == Used(st) && cur.laststart.Some? && cur.laststart.value <= |code|
    ensures var loc := cur.laststart.value;
      Agrees(WithSkip(WithGuard(WithBackJump(code, loc, many), loc), loc, zero), cur.(pending := None),
             st.(level := st.level.(last := Some(Looped(st.level.last.value, zero, many)), run := false)))
  {
    hide Holds, Good, Emit, Len, Looped, EltsMatch, WithBackJump, WithGuard, WithSkip;
    var loc, x := LastStart(st), st.level.last.value;
    var y := Looped(x, zero, many);
    HeldLength(code, st);
    LoopLayout(st, zero, many);
    ReplaceLast(code, st, y, false);
    LoopCode(code, loc, x, zero, many);
  }

  lemma {:induction false} LoopLayout(st: PState, zero: bool, many: bool)
    requires Good(st) && st.level.last.Some?
    ensures WellFormed(st.level.last.value) && WellFormed(Looped(st.level.last.value, zero, many))
  {
  }

  lemma {:induction false} LoopCode(code: seq<byte>, loc: nat, x: Re, zero: bool, many: bool)
    requires WellFormed(x) && loc + Len(x) == |code| && code[loc..] == Emit(x) && (zero || many)
    ensures WellFormed(Looped(x, zero, many))
    ensures WithSkip(WithGuard(WithBackJump(code, loc, many), loc), loc, zero) ==
      code[..loc] + Emit(Looped(x, zero, many))
  {
    hide JumpCode, Len, Emit, Looped;
    LoopedCode(x, zero, many);
    var tail := if many then JumpCode(MAYBE_POP_JUMP, -(Len(x) + 6)) else [];
    var looped := code + tail;
    assert looped[..loc] == code[..loc];
    assert looped[loc..] == Emit(x) + tail;
    var guard, skip := JumpCode(ON_FAILURE_JUMP, |looped| - loc), JumpCode(DUMMY_FAILURE_JUMP, 3);
    Splice(looped, loc, guard);
    if zero {
      Regroup(code[..loc], [], guard, Emit(x), tail);
    } else {
      Regroup(code[..loc], skip, guard, Emit(x), tail);
    }
  }

  lemma {:induction false} Regroup(u: seq<byte>, v: seq<byte>, w: seq<byte>, x: seq<byte>, y: seq<byte>)
    ensures u + v + (w + (x + y)) == u + (v + w + x + y)
    ensures v == [] ==> u + w + (x + y) == u + (w + x + y)
  {
  }

  lemma {:induction false} LoopedCode(x: Re, zero: bool, many: bool)
    requires WellFormed(x) && (zero || many)
    ensures var tail := if many then JumpCode(MAYBE_POP_JUMP, -(Len(x) + 6)) else [];
      var guard := JumpCode(ON_FAILURE_JUMP, Len(x) + |tail|);
      WellFormed(Looped(x, zero, many))
      && Emit(Looped(x, zero, many)) ==
           if zero then guard + Emit(x) + tail else JumpCode(DUMMY_FAILURE_JUMP, 3) + guard + Emit(x) + tail
  {
    hide JumpCode, Len, Emit;
    StarEmits(x);
    PlusEmits(x);
    OptEmits(x);
    if zero && !many {
      var guard := JumpCode(ON_FAILURE_JUMP, Len(x));
      assert guard + Emit(x) + [] == guard + Emit(x);
    }
  }

  lemma {:induction false} Splice(code: seq<byte>, loc: nat, w: seq<byte>)
    requires loc <= |code|
    ensures (code[..loc] + w + code[loc..])[..loc] == code[..loc]
    ensures (code[..loc] + w + code[loc..])[loc..] == w + code[loc..]
  {
  }

  // ---- Groups and alternatives ----

  function Opening(reg: nat): seq<byte> {
    if reg <= MAX_REGNUM then [START_MEMORY, reg, 0] else []
  }

  function Filled(code: seq<byte>, fixup: Option<nat>, to: nat): seq<byte> {
    if fixup.Some? && fixup.value + 3 <= |code| then
      code[..fixup.value] + JumpCode(JUMP_PAST_ALT, to - fixup.value - 3) + code[fixup.value + 3..]
    else code
  }

  lemma {:induction false} ClosedIsFilled(code: seq<byte>, st: PState, fixup: Option<nat>)
    requires var n := Begalt(st);
      && n <= |code| && (st.level.alts == [] ==> fixup == None)
      && (st.level.alts != [] ==> fixup.Some? && fixup.value + 3 == n)
    ensures Filled(code, fixup, |code|) == Closed(code, st)
    ensures fixup.None? ==> Closed(code, st) + DummyCode(st.level) == code
    ensures st.level.alts != [] ==>
      Filled(code + [PUSH_DUMMY_FAILURE], fixup, |code|) == Closed(code, st) + [PUSH_DUMMY_FAILURE]
  {
    hide JumpCode, Begalt;
    if fixup.Some? {
      var whole, k := code + [PUSH_DUMMY_FAILURE], fixup.value;
      assert whole[..k] == code[..k] && whole[k + 3..] == code[k + 3..] + [PUSH_DUMMY_FAILURE];
    }
  }

  lemma {:induction false} OpenAgrees(code: seq<byte>, cur: Cursor, st: PState)
    requires Agrees(code, cur, st)
    ensures |code| == Used(st) && cur.regnum == st.regnum
    ensures var reg := cur.regnum + 1;
      var elt := Elt(cur.begalt, match cur.fixup case None => 0 case Some(f) => f + 1,
                     if reg <= MAX_REGNUM then |code| + 2 else 0, |code|, reg);
      var code' := code + Opening(reg);
      Agrees(code', Cursor(None, |code'|, None, None, cur.stack + [elt], reg),
             PState(st.stack + [Saved(st.level.alts, Current(st.level), reg)], EMPTY, reg))
  {
    hide Holds, Good, Base, AltsLen, EltsMatch, Emit, Len, Current;
    var reg := cur.regnum + 1;
    var s := Saved(st.level.alts, Current(st.level), reg);
    HeldLength(code, st);
    RegAssemblyOpen(code, st);
    EltsPush(cur, st, s);
    BaseAppend(st.stack, s);
    EmptyHolds(code, |code|);
  }

  lemma {:induction false} RegAssemblyOpen(code: seq<byte>, st: PState)
    requires Good(st) && Holds(code, st)
    ensures var reg := st.regnum + 1;
      var st' := PState(st.stack + [Saved(st.level.alts, Current(st.level), reg)], EMPTY, reg);
      Good(st') && Holds(code + Opening(reg), st')
  {
    hide Holds, Good;
    RegexAssembly.OpenGroup(code, st, 0);
  }

  lemma {:induction false} EltsPush(cur: Cursor, st: PState, s: Saved)
    requires Pointers(cur, st) && s.alts == st.level.alts && s.cur == Current(st.level)
    ensures var q := cur.begalt + Len(s.cur);
      var elt := Elt(cur.begalt, match cur.fixup case None => 0 case Some(f) => f + 1,
                     if s.reg <= MAX_REGNUM then q + 2 else 0, q, s.reg);
      EltsMatch(cur.stack + [elt], st.stack + [s])
  {
    hide Base, AltsLen, Len, Current;
    var saved := st.stack + [s];
    assert saved[..|st.stack|] == st.stack;
    forall i | 0 <= i < |st.stack| ensures EltOf(saved, i) == EltOf(st.stack, i) {
      assert saved[..i] == st.stack[..i];
    }
  }

  lemma {:induction false} AlternativePlaces(code: seq<byte>, cur: Cursor, st: PState)
    requires Agrees(code, cur, st)
    ensures |code| == Used(st) && cur.begalt == Begalt(st) <= |code|
    ensures (st.level.alts == [] ==> cur.fixup == None)
    ensures (st.level.alts != [] ==> cur.fixup.Some? && cur.fixup.value + 3 == cur.begalt)
  {
    hide Holds, Good, Base, AltsLen, EltsMatch, Emit, Len, Current;
    HeldLength(code, st);
  }

  lemma {:induction false} AlternativeCode(code: seq<byte>, st: PState, fixup: Option<nat>, hole: seq<byte>)
    requires var n := Begalt(st);
      && n <= |code| && (st.level.alts == [] ==> fixup == None)
      && (st.level.alts != [] ==> fixup.Some? && fixup.value + 3 == n)
    ensures var n := Begalt(st);
      Filled(code[..n] + JumpCode(ON_FAILURE_JUMP, |code| + 6 - n - 3) + code[n..], fixup, |code| + 3) + hole
      == WithAlternative(code, st, hole)
  {
    hide JumpCode;
    var n := Begalt(st);
    var inserted := code[..n] + JumpCode(ON_FAILURE_JUMP, |code| + 6 - n - 3) + code[n..];
    if fixup.Some? {
      assert inserted[..n - 3] == code[..n - 3];
      assert inserted[n..] == JumpCode(ON_FAILURE_JUMP, |code| + 6 - n - 3) + code[n..];
    }
  }

  lemma {:induction false} AlternativeAgrees(code: seq<byte>, cur: Cursor, st: PState, hole: seq<byte>)
    requires Agrees(code, cur, st) && |hole| == 3
    ensures Begalt(st) <= |code| && (st.level.alts != [] ==> Begalt(st) >= 3)
    ensures var code' := WithAlternative(code, st, hole);
      Agrees(code', Cursor(None, |code'|, Some(|code'| - 3), None, cur.stack, cur.regnum),
             st.(level := Level(st.level.alts + [Current(st.level)], Eps, None, false)))
  {
    hide Holds, Good, Base, AltsLen, EltsMatch, Emit, Len, Current, JumpCode;
    AlternativePlaces(code, cur, st);
    Alternate(code, st, hole);
    AltsLenAppend(st.level.alts, Current(st.level));
    HeldLength(code, st);
  }

  // The end of a group: its inner-group count, and stop_memory.
  function Ended(code: seq<byte>, top: Elt, regnum: nat): seq<byte>
    requires 1 <= top.regnum <= regnum && (top.regnum <= MAX_REGNUM ==> top.inner < |code|)
  {
    if top.regnum > MAX_REGNUM then code
    else
      var count := (regnum - top.regnum) % 256;
      code[..top.inner] + [count] + code[top.inner + 1..] + [STOP_MEMORY, top.regnum, count]
  }

  lemma {:induction false} CloseAgrees(code: seq<byte>, cur: Cursor, st: PState)
    requires Agrees(code, cur, st) && cur.stack != []
    ensures |code| == Used(st) && st.stack != []
    ensures GroupOpen(st.stack[|st.stack| - 1].reg) <= Base(st.stack) <= Begalt(st) <= |code|
    ensures st.level.alts != [] ==> Begalt(st) >= 3 + Base(st.stack)
    ensures var top := cur.stack[|cur.stack| - 1];
      && top.regnum == st.stack[|st.stack| - 1].reg && 1 <= top.regnum <= cur.regnum
      && (top.regnum <= MAX_REGNUM ==> top.inner + 1 == Base(st.stack))
      && Ended(Closed(code, st) + DummyCode(st.level), top, cur.regnum) == GroupClosed(code, st)
      && Agrees(GroupClosed(code, st),
                Cursor(Some(top.laststart), top.begalt, if top.fixup == 0 then None else Some(top.fixup - 1), None,
                       cur.stack[..|cur.stack| - 1], cur.regnum),
                CloseGroup(st))
  {
    hide Holds, Good, Base, AltsLen, Emit, Len, Current, Closed, GroupClosed, Tree;
    HeldLength(code, st);
    CloseHolds(code, st);
    TopElt(code, cur, st);
    ClosePointers(cur, st);
    EndedIsClosed(code, cur, st);
  }

  lemma {:induction false} TopElt(code: seq<byte>, cur: Cursor, st: PState)
    requires Agrees(code, cur, st) && cur.stack != []
    ensures st.stack != []
    ensures var n := |st.stack| - 1;
      var s, top := st.stack[n], cur.stack[|cur.stack| - 1];
      && top == EltOf(st.stack, n) && 1 <= s.reg <= st.regnum
      && Base(st.stack) == AltStart(Base(st.stack[..n]), s.alts) + Len(s.cur) + GroupOpen(s.reg)
      && (top.regnum <= MAX_REGNUM ==> top.inner + 1 == Base(st.stack))
  {
    hide Emit, Len, AltsHold, StackHolds, AltsLen;
    var n := |st.stack| - 1;
    assert GoodSaved(st.stack[n], st.regnum);
  }

  lemma {:induction false} ClosePointers(cur: Cursor, st: PState)
    requires Pointers(cur, st) && cur.stack != [] && st.stack != []
    ensures var top := cur.stack[|cur.stack| - 1];
      Pointers(Cursor(Some(top.laststart), top.begalt, if top.fixup == 0 then None else Some(top.fixup - 1), None,
                      cur.stack[..|cur.stack| - 1], cur.regnum), CloseGroup(st))
  {
    hide Len, Base, Tree, Current;
    var n := |st.stack| - 1;
    var saved, elts := st.stack[..n], cur.stack[..n];
    assert cur.stack[n] == EltOf(st.stack, n);
    AltsBound(st.stack[n].alts);
    forall i | 0 <= i < n ensures elts[i] == EltOf(saved, i) {
      assert cur.stack[i] == EltOf(st.stack, i);
      assert saved[..i] == st.stack[..i];
    }
  }

  lemma {:induction false} EndedIsClosed(code: seq<byte>, cur: Cursor, st: PState)
    requires st.stack != [] && Base(st.stack) <= Begalt(st) <= |code|
    requires (st.level.alts != [] ==> Begalt(st) >= 3 + Base(st.stack))
    requires GroupOpen(st.stack[|st.stack| - 1].reg) <= Base(st.stack) && cur.stack != [] && cur.regnum == st.regnum
    requires var top := cur.stack[|cur.stack| - 1];
      1 <= top.regnum == st.stack[|st.stack| - 1].reg <= st.regnum
        && (top.regnum <= MAX_REGNUM ==> top.inner + 1 == Base(st.stack))
    ensures Ended(Closed(code, st) + DummyCode(st.level), cur.stack[|cur.stack| - 1], cur.regnum) ==
      GroupClosed(code, st)
  {
    hide Closed, Base, Begalt;
  }

  lemma {:induction false} LoneAgrees(code: seq<byte>, cur: Cursor, st: PState)
    requires Agrees(code, cur, st) && cur.stack == []
    ensures |code| == Used(st) && st.stack == []
    ensures Begalt(st) <= |code| && (st.level.alts != [] ==> Begalt(st) >= 3)
    ensures var st' := st.(level := Unmatched(st.level));
      Agrees(Closed(code, st) + DummyCode(st.level), cur, st') && Used(st') == Used(st) + DummySpace(st.level)
  {
    hide Holds, Good, Base, AltsLen, Emit, Len, Current, Begalt, LastStart, Attach, PendingOk;
    HeldLength(code, st);
    AlternativePlaces(code, cur, st);
    if st.level.alts == [] {
      assert code + [] == code;
    } else {
      var code' := Closed(code, st);
      HoleHolds(code, st);
      HoleKeepsPending(code, cur, st);
      DummyIsOne();
      OneAgrees(code', cur, st, Dummy, true);
      AttachedLength(st);
    }
  }

  lemma {:induction false} DummyIsOne()
    ensures WellFormed(Dummy) && Emit(Dummy) == [PUSH_DUMMY_FAILURE]
  {
  }

  lemma {:induction false} AttachedLength(st: PState)
    ensures Used(st.(level := Attach(st.level, Dummy))) == Used(st) + 1
  {
    hide Base, AltsLen, Current, Attach;
    CurrentLength(st.level);
  }

  lemma {:induction false} CurrentLength(l: Level)
    ensures Len(Current(Attach(l, Dummy))) == Len(Current(l)) + 1 && Attach(l, Dummy).alts == l.alts
  {
    match l.last
    case None => assert Len(Cat(l.before, Dummy)) == Len(l.before) + 1;
    case Some(y) =>
      assert Len(Cat(y, Dummy)) == Len(y) + 1;
      assert Len(Cat(l.before, Cat(y, Dummy))) == Len(l.before) + Len(Cat(y, Dummy));
  }

  // Filling in the last jump changes nothing the expression depends on.
  lemma {:induction false} HoleHolds(code: seq<byte>, st: PState)
    requires Good(st) && Holds(code, st)
    ensures Begalt(st) <= |code| && (st.level.alts != [] ==> Begalt(st) >= 3)
    ensures Holds(Closed(code, st), st)
  {
    hide Emit, JumpCode, AltsHold, StackHolds, Good, Holds, Used, Closed, Base, AltsLen, Begalt;
    var n, o, alts := Begalt(st), Base(st.stack), st.level.alts;
    Pieces(code, st);
    CloseChain(code, st);
    ClosedSlices(code, st);
    BaseBelow(st);
    var m := if alts == [] then n else n - 3;
    BegaltIs(st);
    StackFrame(code, Closed(code, st), st.stack, st.regnum, st.regnum, m);
    AltsFrame(code, Closed(code, st), o, alts, m);
    Pieces(Closed(code, st), st);
  }

  lemma {:induction false} BegaltIs(st: PState)
    ensures Begalt(st) == Base(st.stack) + AltsLen(st.level.alts)
  {
  }

  lemma {:induction false} HoleKeepsPending(code: seq<byte>, cur: Cursor, st: PState)
    requires Agrees(code, cur, st) && Begalt(st) <= |code| && (st.level.alts != [] ==> Begalt(st) >= 3)
    requires Holds(Closed(code, st), st)
    ensures Agrees(Closed(code, st), cur, st)
  {
    hide Good, Holds, Begalt, Pointers, JumpCode;
    var n, code' := Begalt(st), Closed(code, st);
    assert code'[n..] == code[n..];
    if cur.pending.Some? {
      var k := cur.pending.value - n;
      assert code'[cur.pending.value] == code'[n..][k] == code[n..][k];
    }
  }

  // ---- Brackets ----

  lemma {:induction false} CodeLength(code: seq<byte>, cur: Cursor, st: PState)
    requires Agrees(code, cur, st)
    ensures |code| == Used(st)
  {
    hide Pointers, PendingOk;
    HeldLength(code, st);
  }

  lemma {:induction false} WholeSet(code: seq<byte>, op: byte, bits: seq<byte>, all: seq<byte>, b: nat)
    requires b == |code| + 2 && b + |bits| <= |all| && |bits| < 256
    requires all[..b - 1] == code + [op] && all[b - 1] == |bits| && all[b..b + |bits|] == bits
    ensures all[..b + |bits|] == code + [op, |bits|] + bits
  {
    TwoSlices(all, 0, b - 1, b + |bits|);
    TwoSlices(all, b - 1, b, b + |bits|);
  }

  lemma {:induction false} InnerSlice(all: seq<byte>, b: nat, e: nat, n: nat)
    requires b + n <= e <= |all|
    ensures all[b..e][..n] == all[b..b + n]
  {
  }

  lemma {:induction false} EmptyMap()
    ensures MapOf([]) == Blank()
  {
  }

  lemma {:induction false} MapMore(ranges: seq<Range>, r: Result<Range>)
    ensures r.Ok? ==> MapOf(ranges + [r.value]) == MarkedRange(MapOf(ranges), r.value.lo, r.value.hi)
  {
    if r.Ok? {
      var s := ranges + [r.value];
      assert s[..|s| - 1] == ranges;
    }
  }

  lemma {:induction false} OneMarked(bits: seq<byte>, c: byte)
    requires |bits| == MAP_BYTES
    ensures MarkedRange(bits, c, c) == Marked(bits, c)
  {
    assert MarkedRange(Marked(bits, c), c + 1, c) == Marked(bits, c);
  }

  lemma {:induction false} SetAgrees(code: seq<byte>, cur: Cursor, st: PState, neg: bool, bits: seq<byte>)
    requires Agrees(code, cur, st) && |bits| <= 32
    ensures |code| == Used(st)
    ensures Agrees(code + [if neg then CHARSET_NOT else CHARSET, |bits|] + bits, cur.(laststart := Some(|code|)),
                   st.(level := Begin(st.level, Set(neg, bits), false)))
  {
    hide Holds, Good, Pointers, PendingOk, Begalt, LastStart;
    var x := Set(neg, bits);
    var w := [if neg then CHARSET_NOT else CHARSET, |bits|] + bits;
    assert Emit(x) == w && code + [if neg then CHARSET_NOT else CHARSET, |bits|] + bits == code + w;
    HeldLength(code, st);
    AppendNew(code, st, x, false);
    Appended(code, st, x, cur.pending);
    SamePlaces(cur, st, cur.(laststart := Some(|code|)), Begin(st.level, x, false));
  }

  // ---- The whole pattern ----

  lemma {:induction false} OneByteCodes()
    ensures WellFormed(Bol) && WellFormed(Eol) && WellFormed(Any)
    ensures Emit(Bol) == [BEGLINE] && Emit(Eol) == [ENDLINE] && Emit(Any) == [ANYCHAR]
  {
  }

  lemma {:induction false} StackEmpty(code: seq<byte>, cur: Cursor, st: PState)
    requires Agrees(code, cur, st)
    ensures cur.stack == [] <==> st.stack == []
  {
    hide Holds, Good, PendingOk;
  }

  ghost predicate AtStart(st: PState) {
    st == START
  }

  lemma {:induction false} ParseStarts(pat: seq<byte>, st: PState)
    requires AtStart(st)
    ensures Parse(pat) == ParseFrom(pat, 0, st)
  {
    hide ParseFrom;
  }

  // regex_compile: what a pattern parses to, as byte code in the first `used' bytes of a buffer.
  method RegexCompile(pat: seq<byte>) returns (err: Option<Error>, buffer: array<byte>, used: nat, groups: nat)
    ensures fresh(buffer) && used <= buffer.Length
    ensures match Parse(pat)
      case Err(e) => err == Some(e)
      case Ok(c) =>
        && err == None && buffer.Length <= 65536 && WellFormed(c.tree)
        && buffer[..used] == Emit(c.tree) && groups == c.groups
  {
    hide Agrees, Emit, WellFormed, Parse, ParseFrom, Finish, AtStart;
    var c := new Compiler();
    ParseStarts(pat, c.st);
    err := c.ReadAll(pat);
    if err.None? { err := c.Conclude(); }
    buffer, used, groups := c.buffer, 0, c.regnum;
    if err.None? { used := c.b; }
  }

  lemma {:induction false} FinishAgrees(code: seq<byte>, cur: Cursor, st: PState)
    requires Agrees(code, cur, st)
    ensures |code| == Used(st) && cur.regnum == st.regnum && (cur.stack == [] <==> st.stack == [])
    ensures Begalt(st) <= |code| && (st.level.alts == [] ==> cur.fixup == None)
    ensures st.level.alts != [] ==> cur.fixup.Some? && cur.fixup.value + 3 == Begalt(st)
    ensures st.stack == [] ==>
      var t := Tree(st.level.alts, Current(st.level)); WellFormed(t) && Closed(code, st) == Emit(t)
  {
    hide Holds, Good, Closed, Tree, Current, Emit, WellFormed, Begalt, LastStart, PendingOk, Len;
    AlternativePlaces(code, cur, st);
    CloseChain(code, st);
    if st.stack == [] { assert Closed(code, st)[0..] == Closed(code, st); }
  }
}
