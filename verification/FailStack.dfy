// The failure stack of re_match_2, item by item: an array that doubles on demand and always holds
// a sequence of whole failure points, each laid out as the saved registers followed by the lowest
// and highest active register, the pattern place and the string place.
module FailStack {
  import opened Wrappers
  import Machine = RegexMachine

  // Where a register starts and ends, and its register_info_type as a word.
  datatype Reg = Reg(start: int, end: int, info: int)

  datatype Point = Point(pat: int, str: nat, low: nat, high: nat, regs: seq<Reg>)

  // How a push ends: all stored, refused for want of room, or stopped before an item that would have
  // been written past the end of the array.
  datatype Pushed = Stored | Refused | Past

  // ---- Words ----

  // The bits of register_info_type that the matcher reads.
  function Packed(i: Machine.RegInfo): int {
    (if i.active then 1 else 0) + (if i.matched then 2 else 0)
  }

  function Unpacked(word: int): (i: Machine.RegInfo)
  {
    Machine.RegInfo(word % 2 == 1, word / 2 % 2 == 1)
  }

  // A place in the pattern, where 0 stands for the null pointer.
  function Word(place: Machine.Place): int {
    match place
    case Null => 0
    case At(p) => if p >= 0 then p + 1 else p
  }

  function PlaceOf(word: int): Machine.Place {
    if word == 0 then Machine.Null else if word > 0 then Machine.At(word - 1) else Machine.At(word)
  }

  lemma {:induction false} WordsRoundTrip(place: Machine.Place, i: Machine.RegInfo)
    ensures PlaceOf(Word(place)) == place && Unpacked(Packed(i)) == i
  {
  }

  function Infos(regs: seq<Reg>): (s: seq<Machine.RegInfo>)
    ensures |s| == |regs|
  {
    seq(|regs|, i requires 0 <= i < |regs| => Unpacked(regs[i].info))
  }

  // A point as the matcher's steps speak of it.
  function FrameOf(p: Point): Machine.Frame {
    Machine.Frame(PlaceOf(p.pat), p.str, p.low, p.high, Infos(p.regs))
  }

  function Frames(points: seq<Point>): (s: seq<Machine.Frame>)
    ensures |s| == |points|
  {
    seq(|points|, i requires 0 <= i < |points| => FrameOf(points[i]))
  }

  // ---- Layout ----

  function RegItems(regs: seq<Reg>): (s: seq<int>)
    ensures |s| == Machine.NUM_REG_ITEMS * |regs|
  {
    if regs == [] then []
    else
      var r := regs[|regs| - 1];
      RegItems(regs[..|regs| - 1]) + [r.start, r.end, r.info]
  }

  function PointItems(p: Point): (s: seq<int>)
    ensures |s| == Machine.NUM_REG_ITEMS * |p.regs| + Machine.NUM_NONREG_ITEMS
  {
    RegItems(p.regs) + [p.low, p.high, p.pat, p.str]
  }

  function Flat(points: seq<Point>): seq<int> {
    if points == [] then [] else Flat(points[..|points| - 1]) + PointItems(points[|points| - 1])
  }

  // The registers low..high; none when low is past high.
  function Active(regs: seq<Reg>, low: nat, high: nat): (s: seq<Reg>)
    requires low <= high ==> high < |regs|
    ensures |s| == Machine.RegCount(low, high)
  {
    if low <= high then regs[low..high + 1] else []
  }

  // A point saves exactly the registers low..high, and those exist.
  predicate Whole(p: Point, numRegs: nat) {
    |p.regs| == Machine.RegCount(p.low, p.high) && (p.low <= p.high ==> p.high < numRegs)
  }

  lemma {:induction false} RegItemsAppend(regs: seq<Reg>, r: Reg)
    ensures RegItems(regs + [r]) == RegItems(regs) + [r.start, r.end, r.info]
  {
    var s := regs + [r];
    assert s[..|s| - 1] == regs;
  }

  lemma {:induction false} NoItems()
    ensures RegItems([]) == []
  {
  }

  lemma {:induction false} FlatAppend(points: seq<Point>, p: Point)
    ensures Flat(points + [p]) == Flat(points) + PointItems(p)
  {
    var s := points + [p];
    assert s[..|s| - 1] == points;
  }

  lemma {:induction false} RegItemsDetermined(a: seq<Reg>, b: seq<Reg>)
    requires RegItems(a) == RegItems(b)
    ensures a == b
  {
    assert |RegItems(a)| == 3 * |a| && |RegItems(b)| == 3 * |b|;
    if a != [] {
      var n := |a| - 1;
      var x, y := RegItems(a[..n]), RegItems(b[..n]);
      assert (x + [a[n].start, a[n].end, a[n].info])[..3 * n] == x;
      assert (y + [b[n].start, b[n].end, b[n].info])[..3 * n] == y;
      assert RegItems(a)[3 * n] == RegItems(b)[3 * n];
      assert RegItems(a)[3 * n + 1] == RegItems(b)[3 * n + 1];
      assert RegItems(a)[3 * n + 2] == RegItems(b)[3 * n + 2];
      RegItemsDetermined(a[..n], b[..n]);
      assert a == a[..n] + [a[n]] && b == b[..n] + [b[n]];
    }
  }

  // What lies on top of a stack: the last point, under which the rest is untouched.
  lemma {:induction false} TopOfStack(points: seq<Point>)
    requires points != []
    ensures var s, p, rest := Flat(points), points[|points| - 1], Flat(points[..|points| - 1]);
      && |s| == |rest| + 3 * |p.regs| + 4
      && s[|s| - 1] == p.str && s[|s| - 2] == p.pat && s[|s| - 3] == p.high && s[|s| - 4] == p.low
      && s[..|rest|] == rest && s[|rest|..|s| - 4] == RegItems(p.regs)
  {
    var s, p, rest := Flat(points), points[|points| - 1], Flat(points[..|points| - 1]);
    assert s == rest + RegItems(p.regs) + [p.low, p.high, p.pat, p.str];
    assert s[..|rest|] == rest;
    assert s[|rest|..|s| - 4] == RegItems(p.regs);
  }

  lemma {:induction false} SameTop(a: seq<Point>, b: seq<Point>, numRegs: nat)
    requires a != [] && b != [] && Flat(a) == Flat(b)
    requires Whole(a[|a| - 1], numRegs) && Whole(b[|b| - 1], numRegs)
    ensures a[|a| - 1] == b[|b| - 1] && Flat(a[..|a| - 1]) == Flat(b[..|b| - 1])
  {
    hide Flat, RegItems;
    TopOfStack(a);
    TopOfStack(b);
    RegItemsDetermined(a[|a| - 1].regs, b[|b| - 1].regs);
  }

  // The items on a stack determine its failure points: there is only one way to read them back.
  lemma {:induction false} PointsDetermined(a: seq<Point>, b: seq<Point>, numRegs: nat)
    requires forall p <- a :: Whole(p, numRegs)
    requires forall p <- b :: Whole(p, numRegs)
    requires Flat(a) == Flat(b)
    ensures a == b
  {
    if a != [] && b != [] {
      var p, q := a[|a| - 1], b[|b| - 1];
      assert Whole(p, numRegs) && Whole(q, numRegs);
      SameTop(a, b, numRegs);
      PointsDetermined(a[..|a| - 1], b[..|b| - 1], numRegs);
      assert a == a[..|a| - 1] + [p] && b == b[..|b| - 1] + [q];
    }
  }

  // The matcher counts a frame's room in the same items, so both stacks grow and overflow alike.
  lemma {:induction false} SameRoom(points: seq<Point>)
    ensures |Flat(points)| == Machine.Avail(Frames(points))
  {
    if points != [] {
      var n := |points| - 1;
      SameRoom(points[..n]);
      assert Frames(points)[..n] == Frames(points[..n]);
    }
  }

  // ---- Pushing and popping, as the matcher's steps have it ----

  // The points after a push with room for `room' items.
  function AfterPush(points: seq<Point>, pat: int, str: nat, low: nat, high: nat, regs: seq<Reg>): seq<Point>
    requires low <= high ==> high < |regs|
  {
    points + [Point(pat, str, low, high, Active(regs, low, high))]
  }

  // Room for a push, or none once doubling is refused.
  function RoomFor(size: nat, points: seq<Point>, low: nat, high: nat, numRegs: nat): Option<nat>
    requires numRegs > 0
  {
    Machine.Grown(size, |Flat(points)| + Machine.Asked(low, high), Machine.NUM_REG_ITEMS * (numRegs - 1)
      + Machine.NUM_NONREG_ITEMS)
  }

  function PushResult(size: nat, points: seq<Point>, low: nat, high: nat, numRegs: nat): Pushed
    requires numRegs > 0
  {
    match RoomFor(size, points, low, high, numRegs)
    case None => Refused
    case Some(room) =>
      if |Flat(points)| + Machine.NUM_REG_ITEMS * Machine.RegCount(low, high) + Machine.NUM_NONREG_ITEMS <= room then
        Stored
      else Past
  }

  lemma {:induction false} SavedInfos(regs: seq<Reg>, low: nat, high: nat)
    requires low <= high ==> high < |regs|
    ensures Infos(Active(regs, low, high)) == Machine.Saved(Infos(regs), low, high)
  {
    var a, s := Infos(Active(regs, low, high)), Machine.Saved(Infos(regs), low, high);
    forall i | 0 <= i < |a| ensures a[i] == s[i] {
      assert s[i] == Machine.InfoOf(Infos(regs), low + i);
    }
  }

  // What a push does to the array is what the matcher's step does to its failure points.
  lemma {:induction false} PushAgrees(cfg: Machine.Config, st: Machine.State, points: seq<Point>, regs: seq<Reg>,
        place: Machine.Place, str: nat)
    requires st.stack == Frames(points) && st.info == Infos(regs) && |regs| == cfg.nsub + 1
    requires st.low <= st.high ==> st.high < |regs|
    ensures var r, after := PushResult(st.size, points, st.low, st.high, |regs|), Machine.Push(cfg, st, place, str);
      && (r.Stored? <==> after.Some?)
      && (r.Stored? ==>
            && RoomFor(st.size, points, st.low, st.high, |regs|).Some?
            && after.value == st.(stack := Frames(AfterPush(points, Word(place), str, st.low, st.high, regs)),
                                  size := RoomFor(st.size, points, st.low, st.high, |regs|).value))
      && (r.Refused? ==> Machine.NoRoom(cfg, st) == Machine.Done(-2))
      && (r.Past? ==> Machine.NoRoom(cfg, st) == Machine.Overrun)
  {
    hide Flat, Machine.Avail, Machine.Grown, Machine.Asked, Word, PlaceOf, Infos, Active;
    SameRoom(points);
    SavedInfos(regs, st.low, st.high);
    WordsRoundTrip(place, Machine.IDLE);
    var p := Point(Word(place), str, st.low, st.high, Active(regs, st.low, st.high));
    assert Frames(points + [p]) == Frames(points) + [FrameOf(p)];
  }

  // What a pop leaves in the registers is what the matcher's step restores.
  lemma {:induction false} PopAgrees(points: seq<Point>, before: seq<Reg>, after: seq<Reg>)
    requires points != [] && |before| == |after|
    requires var p := points[|points| - 1];
      && Whole(p, |after|) && Active(after, p.low, p.high) == p.regs
      && forall r :: 0 <= r < |after| && !(p.low <= r <= p.high) ==> after[r] == before[r]
    ensures var n := |points| - 1; var f := Frames(points)[n];
      && Frames(points)[..n] == Frames(points[..n]) && f == FrameOf(points[n])
      && Infos(after) == Machine.Restored(Infos(before), f.low, f.saved)
  {
    var p := points[|points| - 1];
    var restored := Machine.Restored(Infos(before), p.low, Infos(p.regs));
    forall r | 0 <= r < |after| ensures Infos(after)[r] == restored[r] {
      if p.low <= r < p.low + |p.regs| { assert after[r] == p.regs[r - p.low]; }
    }
  }

  // ---- The stack ----

  class Stack {
    var items: array<int>
    var avail: nat
    const regs: array<Reg>
    ghost var points: seq<Point>

    ghost predicate Valid()
      reads this, items
    {
      avail <= items.Length && items.Length >= Machine.INIT_FAILURE_ALLOC
      && items[..avail] == Flat(points)
      && forall p <- points :: Whole(p, regs.Length)
    }

    constructor (regs: array<Reg>)
      ensures Valid() && fresh(items) && this.regs == regs && points == [] && items.Length == 5
    {
      this.regs := regs;
      items, avail, points := new int[Machine.INIT_FAILURE_ALLOC], 0, [];
    }

    // DOUBLE_FAIL_STACK: refused once the size has passed the limit.
    method Double(limit: nat) returns (ok: bool)
      requires Valid()
      modifies this`items
      ensures Valid()
      ensures ok == (old(items.Length) <= limit)
      ensures ok ==> fresh(items) && items.Length == 2 * old(items.Length)
      ensures !ok ==> items == old(items)
    {
      if items.Length > limit { return false; }
      var bigger := new int[2 * items.Length];
      var i := 0;
      while i < avail
        invariant items == old(items) && i <= avail <= items.Length && bigger[..i] == items[..i]
      {
        bigger[i] := items[i];
        i := i + 1;
      }
      assert bigger[..avail] == items[..avail];
      items := bigger;
      return true;
    }

    // Double until `need' items fit.
    method Reserve(need: nat, limit: nat) returns (ok: bool)
      requires Valid()
      modifies this`items
      ensures Valid() && (items == old(items) || fresh(items))
      ensures var g := Machine.Grown(old(items.Length), need, limit);
        ok == g.Some? && (ok ==> items.Length == g.value >= need)
    {
      var max := Machine.RE_MAX_FAILURES * limit;
      while items.Length < need
        invariant Valid() && (items == old(items) || fresh(items))
        invariant Machine.Grown(items.Length, need, limit) == Machine.Grown(old(items.Length), need, limit)
        decreases need - items.Length
      {
        var doubled := Double(max);
        if !doubled { return false; }
      }
      return true;
    }

    method PushItem(x: int)
      requires avail < items.Length
      modifies this`avail, items
      ensures avail == old(avail) + 1 && items[..avail] == old(items[..avail]) + [x]
    {
      items[avail] := x;
      avail := avail + 1;
    }

    method PushRegister(r: nat)
      requires r < regs.Length && avail + 3 <= items.Length
      modifies this`avail, items
      ensures avail == old(avail) + 3
      ensures items[..avail] == old(items[..avail]) + [regs[r].start, regs[r].end, regs[r].info]
    {
      PushItem(regs[r].start);
      PushItem(regs[r].end);
      PushItem(regs[r].info);
    }

    method PushRegisters(low: nat, high: nat)
      requires low <= high ==> high < regs.Length
      requires avail + 3 * Machine.RegCount(low, high) <= items.Length
      modifies this`avail, items
      ensures avail == old(avail) + 3 * Machine.RegCount(low, high)
      ensures items[..avail] == old(items[..avail]) + RegItems(Active(regs[..], low, high))
    {
      hide RegItems;
      NoItems();
      if low > high { return; }
      ghost var all, base := regs[..], items[..avail];
      var r := low;
      while r <= high
        invariant low <= r <= high + 1 && avail == old(avail) + 3 * (r - low)
        invariant items[..avail] == base + RegItems(all[low..r])
      {
        PushRegister(r);
        RegItemsAppend(all[low..r], all[r]);
        assert all[low..r + 1] == all[low..r] + [all[r]];
        r := r + 1;
      }
    }

    method PushPlaces(low: int, high: int, pat: int, str: int)
      requires avail + 4 <= items.Length
      modifies this`avail, items
      ensures avail == old(avail) + 4 && items[..avail] == old(items[..avail]) + [low, high, pat, str]
    {
      PushItem(low);
      PushItem(high);
      PushItem(pat);
      PushItem(str);
    }

    // PUSH_FAILURE_POINT: room is made for the items asked for, and the registers from low to high are
    // stored, however many that is.
    method Push(pat: int, str: nat, low: nat, high: nat) returns (r: Pushed)
      requires Valid() && regs.Length > 0 && (low <= high ==> high < regs.Length)
      modifies this, items
      ensures Valid() && (items == old(items) || fresh(items))
      ensures r == PushResult(old(items.Length), old(points), low, high, regs.Length)
      ensures r.Stored? ==> Some(items.Length) == RoomFor(old(items.Length), old(points), low, high, regs.Length)
      ensures points == if r.Stored? then AfterPush(old(points), pat, str, low, high, regs[..]) else old(points)
    {
      hide Flat, RegItems, Machine.Grown, Active, Machine.Asked;
      ghost var before := points;
      var limit := Machine.NUM_REG_ITEMS * (regs.Length - 1) + Machine.NUM_NONREG_ITEMS;
      var ok := Reserve(avail + Machine.Asked(low, high), limit);
      if !ok { return Refused; }
      if avail + Machine.NUM_REG_ITEMS * Machine.RegCount(low, high) + Machine.NUM_NONREG_ITEMS > items.Length {
        return Past;
      }
      ghost var p := Point(pat, str, low, high, Active(regs[..], low, high));
      PushRegisters(low, high);
      PushPlaces(low, high, pat, str);
      FlatAppend(before, p);
      assert items[..avail] == Flat(before) + PointItems(p);
      points := before + [p];
      return Stored;
    }

    // FAIL_STACK_EMPTY
    method IsEmpty() returns (empty: bool)
      requires Valid()
      ensures empty == (points == [])
    {
      if points != [] { TopOfStack(points); }
      return avail == 0;
    }

    method PopItem() returns (x: int)
      requires 0 < avail <= items.Length
      modifies this`avail
      ensures avail == old(avail) - 1 && x == items[avail]
    {
      avail := avail - 1;
      return items[avail];
    }

    // POP_FAILURE_POINT: everything the last push saved comes back, and nothing else changes.
    method Pop() returns (str: nat, pat: int, low: nat, high: nat)
      requires Valid() && points != []
      modifies this`avail, this`points, regs
      ensures Valid() && points == old(points[..|points| - 1])
      ensures var p := old(points[|points| - 1]);
        && str == p.str && pat == p.pat && low == p.low && high == p.high
        && Whole(p, regs.Length) && Active(regs[..], low, high) == p.regs
      ensures forall r :: 0 <= r < regs.Length && !(low <= r <= high) ==> regs[r] == old(regs[r])
    {
      hide Flat, RegItems, PointItems;
      ghost var p, rest := points[|points| - 1], points[..|points| - 1];
      TopOfStack(points);
      assert Whole(p, regs.Length);
      ghost var all := items[..avail];
      var s, h, l;
      s, pat, h, l := PopPlaces();
      assert all[..|all| - 4] == Flat(rest) + RegItems(p.regs);
      PopRegisters(l, h, Flat(rest), p.regs);
      points := rest;
      str, low, high := s, l, h;
    }

    // The same into dummies: the last point goes, and no register changes.
    method Drop()
      requires Valid() && points != []
      modifies this`avail, this`points
      ensures Valid() && points == old(points[..|points| - 1])
    {
      hide Flat, RegItems, PointItems;
      ghost var p, rest := points[|points| - 1], points[..|points| - 1];
      TopOfStack(points);
      assert Whole(p, regs.Length);
      ghost var all := items[..avail];
      var s, pat, high, low := PopPlaces();
      assert all[..|all| - 4] == Flat(rest) + RegItems(p.regs);
      var left: nat := Machine.RegCount(low, high);
      while left > 0
        invariant avail == |Flat(rest)| + 3 * left <= items.Length
        invariant items[..avail] == all[..avail] && avail <= |all|
      {
        var info := PopItem();
        var end := PopItem();
        var start := PopItem();
        left := left - 1;
      }
      assert items[..avail] == Flat(rest);
      points := rest;
    }

    method PopPlaces() returns (str: int, pat: int, high: int, low: int)
      requires 4 <= avail <= items.Length
      modifies this`avail
      ensures avail == old(avail) - 4
      ensures old(items[..avail]) == items[..avail] + [low, high, pat, str]
    {
      str := PopItem();
      pat := PopItem();
      high := PopItem();
      low := PopItem();
    }

    method PopRegisters(low: nat, high: nat, ghost rest: seq<int>, ghost saved: seq<Reg>)
      requires (low <= high ==> high < regs.Length) && |saved| == Machine.RegCount(low, high)
      requires avail <= items.Length && items[..avail] == rest + RegItems(saved)
      modifies this`avail, regs
      ensures avail == |rest| && items[..avail] == rest
      ensures Active(regs[..], low, high) == saved
      ensures forall r :: 0 <= r < regs.Length && !(low <= r <= high) ==> regs[r] == old(regs[r])
    {
      hide RegItems;
      NoItems();
      if low > high { return; }
      var r: int := high;
      assert saved[..r + 1 - low] == saved;
      while r >= low
        invariant low - 1 <= r <= high && avail <= items.Length
        invariant items[..avail] == rest + RegItems(saved[..r + 1 - low])
        invariant forall k :: r < k <= high ==> regs[k] == saved[k - low]
        invariant forall k :: 0 <= k < regs.Length && !(low <= k <= high) ==> regs[k] == old(regs[k])
      {
        RestoreOne(r, rest, saved[..r + 1 - low]);
        assert saved[..r + 1 - low][..r - low] == saved[..r - low];
        r := r - 1;
      }
    }

    // One register comes off the stack.
    method RestoreOne(r: nat, ghost rest: seq<int>, ghost saved: seq<Reg>)
      requires r < regs.Length && saved != []
      requires avail <= items.Length && items[..avail] == rest + RegItems(saved)
      modifies this`avail, regs
      ensures avail <= items.Length && items[..avail] == rest + RegItems(saved[..|saved| - 1])
      ensures regs[..] == old(regs[..])[r := saved[|saved| - 1]]
    {
      ghost var all, below, last := items[..avail], RegItems(saved[..|saved| - 1]), saved[|saved| - 1];
      assert all == rest + below + [last.start, last.end, last.info];
      var info := PopItem();
      var end := PopItem();
      var start := PopItem();
      assert info == all[|all| - 1] && end == all[|all| - 2] && start == all[|all| - 3];
      regs[r] := Reg(start, end, info);
      assert items[..avail] == all[..|all| - 3] == rest + below;
    }
  }
}
