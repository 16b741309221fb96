// tr_counter: sums over consecutive windows of a fixed length, kept with two numbers and a time.
module Counter {

  datatype Call = Call(time: int, size: int)

  datatype State = State(lastTime: int, frameTime: int, value: int, tmpValue: int)

  function Start(frameTime: int): State {
    State(0, frameTime, 0, 0)
  }

  // tr_counter::add.  A zero time means that nothing has been counted yet.
  function Add(s: State, time: int, size: int): State
    requires s.frameTime > 0
  {
    var last := if s.lastTime == 0 then time else s.lastTime;
    if time - last < s.frameTime then s.(lastTime := last, tmpValue := s.tmpValue + size)
    else s.(lastTime := time - (time - last) % s.frameTime, value := s.tmpValue, tmpValue := size)
  }

  class TrCounter {
    var lastTime: int
    const frameTime: int
    var value: int
    var tmpValue: int

    ghost function Now(): State
      reads this
    {
      State(lastTime, frameTime, value, tmpValue)
    }

    constructor (frameTime: int)
      ensures Now() == Start(frameTime)
    {
      this.frameTime := frameTime;
      lastTime, value, tmpValue := 0, 0, 0;
    }

    method AddSize(time: int, size: int)
      requires frameTime > 0
      modifies this
      ensures Now() == Add(old(Now()), time, size)
    {
      if lastTime == 0 { lastTime := time; }
      if time - lastTime < frameTime {
        tmpValue := tmpValue + size;
      } else {
        lastTime := time - (time - lastTime) % frameTime;
        value := tmpValue;
        tmpValue := size;
      }
    }
  }

  // ---- Runs ----

  function After(frameTime: int, calls: seq<Call>): State
    requires frameTime > 0
    ensures After(frameTime, calls).frameTime == frameTime
  {
    if calls == [] then Start(frameTime)
    else
      var c := calls[|calls| - 1];
      Add(After(frameTime, calls[..|calls| - 1]), c.time, c.size)
  }

  // Positive times that do not go back.
  predicate Timely(calls: seq<Call>) {
    (forall i :: 0 <= i < |calls| ==> calls[i].time > 0)
    && (forall i, j :: 0 <= i <= j < |calls| ==> calls[i].time <= calls[j].time)
  }

  // Windows are counted from the first call.
  function Window(calls: seq<Call>, frameTime: int, time: int): int
    requires calls != [] && frameTime > 0
  {
    (time - calls[0].time) / frameTime
  }

  // The sum of the sizes counted in window w.
  function WindowSum(calls: seq<Call>, origin: int, frameTime: int, w: int): int
    requires frameTime > 0
  {
    if calls == [] then 0
    else
      var c := calls[|calls| - 1];
      WindowSum(calls[..|calls| - 1], origin, frameTime, w) + (if (c.time - origin) / frameTime == w then c.size else 0)
  }

  function WindowOf(c: Call, origin: int, frameTime: int): int
    requires frameTime > 0
  {
    (c.time - origin) / frameTime
  }

  predicate InWindow(c: Call, origin: int, frameTime: int, w: int)
    requires frameTime > 0
  {
    WindowOf(c, origin, frameTime) == w
  }

  // The latest window before w in which there was a call; none at all if w is the first.
  predicate LatestBefore(calls: seq<Call>, origin: int, frameTime: int, w: int, v: int)
    requires frameTime > 0
  {
    v < w
    && (exists i :: 0 <= i < |calls| && InWindow(calls[i], origin, frameTime, v))
    && forall i :: 0 <= i < |calls| ==> var u := WindowOf(calls[i], origin, frameTime); u <= v || u >= w
  }

  // What the counter shows: the sum of the latest earlier window with a call, or nothing yet.
  ghost predicate Shows(calls: seq<Call>, origin: int, frameTime: int, w: int, value: int)
    requires frameTime > 0
  {
    (value == 0 && forall i :: 0 <= i < |calls| ==> WindowOf(calls[i], origin, frameTime) >= w)
    || exists v :: LatestBefore(calls, origin, frameTime, w, v) && value == WindowSum(calls, origin, frameTime, v)
  }

  // ---- Arithmetic of windows ----

  lemma {:induction false} Multiples(f: int, n: int)
    requires f > 0
    ensures n >= 1 ==> f * n >= f
    ensures n <= -1 ==> f * n <= -f
  {
  }

  lemma {:induction false} Quotient(f: int, x: int, q: int, r: int)
    requires f > 0 && 0 <= r < f && x == f * q + r
    ensures x / f == q && x % f == r
  {
    var p := x / f;
    assert f * (p - q) == r - x % f;
    Multiples(f, p - q);
  }

  lemma {:induction false} LaterWindow(f: int, x: int, y: int)
    requires f > 0 && x <= y
    ensures x / f <= y / f
  {
    var p, q := x / f, y / f;
    assert f * (q - p) == (y - y % f) - (x - x % f);
    Multiples(f, q - p);
  }

  // ---- The counter over a whole run ----

  ghost predicate Counts(s: State, calls: seq<Call>)
    requires calls != [] && s.frameTime > 0
  {
    var origin, f := calls[0].time, s.frameTime;
    var w := Window(calls, f, calls[|calls| - 1].time);
    && s.lastTime == origin + f * w
    && origin <= s.lastTime <= calls[|calls| - 1].time < s.lastTime + f
    && s.tmpValue == WindowSum(calls, origin, f, w)
    && Shows(calls, origin, f, w, s.value)
  }

  // The time stays aligned to the first call and within a frame of the last one, the running sum is
  // that of the current window, and the value that of the latest earlier window with a call.
  lemma {:induction false} CounterCounts(frameTime: int, calls: seq<Call>)
    requires frameTime > 0 && calls != [] && Timely(calls)
    ensures Counts(After(frameTime, calls), calls)
  {
    hide Shows, WindowSum;
    var n := |calls| - 1;
    var front := calls[..n];
    if n == 0 {
      FirstCall(frameTime, calls);
    } else {
      FrontTimely(calls);
      CounterCounts(frameTime, front);
      NextCall(frameTime, calls);
    }
  }

  lemma {:induction false} FrontTimely(calls: seq<Call>)
    requires |calls| > 1 && Timely(calls)
    ensures Timely(calls[..|calls| - 1])
  {
  }

  lemma {:induction false} FirstCall(frameTime: int, calls: seq<Call>)
    requires frameTime > 0 && |calls| == 1 && Timely(calls)
    ensures Counts(After(frameTime, calls), calls)
  {
    assert calls[..0] == [];
    Quotient(frameTime, 0, 0, 0);
  }

  lemma {:induction false} NextCall(frameTime: int, calls: seq<Call>)
    requires frameTime > 0 && |calls| > 1 && Timely(calls)
    requires Counts(After(frameTime, calls[..|calls| - 1]), calls[..|calls| - 1])
    ensures Counts(After(frameTime, calls), calls)
  {
    hide Shows, WindowSum, Timely;
    var n, f := |calls| - 1, frameTime;
    var front, c, s := calls[..n], calls[n], After(frameTime, calls[..n]);
    InOrder(calls);
    if c.time - s.lastTime < f { StaysInWindow(f, calls, s); } else { OpensWindow(f, calls, s); }
  }

  lemma {:induction false} StaysInWindow(f: int, calls: seq<Call>, s: State)
    requires f > 0 && |calls| > 1 && s.frameTime == f && calls[0].time > 0
    requires var n := |calls| - 1;
      Counts(s, calls[..n]) && calls[n - 1].time <= calls[n].time && calls[n].time - s.lastTime < f
        && s.lastTime >= calls[0].time
    ensures var c := calls[|calls| - 1]; Counts(Add(s, c.time, c.size), calls)
  {
    hide Shows, WindowSum;
    var n, origin := |calls| - 1, calls[0].time;
    var w := Window(calls[..n], f, calls[n - 1].time);
    assert calls[n].time - origin == f * w + (calls[n].time - s.lastTime);
    Quotient(f, calls[n].time - origin, w, calls[n].time - s.lastTime);
    SameWindow(calls, f, w, s.value);
  }

  lemma {:induction false} OpensWindow(f: int, calls: seq<Call>, s: State)
    requires f > 0 && |calls| > 1 && s.frameTime == f && Timely(calls) && calls[0].time > 0
    requires s.lastTime >= calls[0].time
    requires var n := |calls| - 1; Counts(s, calls[..n]) && calls[n].time - s.lastTime >= f
    ensures var c := calls[|calls| - 1]; Counts(Add(s, c.time, c.size), calls)
  {
    hide Shows, WindowSum, Timely;
    var n, origin := |calls| - 1, calls[0].time;
    var w, d := Window(calls[..n], f, calls[n - 1].time), calls[n].time - s.lastTime;
    var q := d / f;
    assert d == f * q + d % f;
    Regroup(f, w, q);
    assert calls[n].time - origin == f * (w + q) + d % f;
    Quotient(f, calls[n].time - origin, w + q, d % f);
    Forward(f, d, q);
    NewWindow(calls, f, w, w + q);
  }

  lemma {:induction false} Regroup(f: int, w: int, q: int)
    ensures f * w + f * q == f * (w + q)
  {
  }

  lemma {:induction false} InOrder(calls: seq<Call>)
    requires |calls| > 1 && Timely(calls)
    ensures var n := |calls| - 1;
      calls[n - 1].time <= calls[n].time && calls[0].time > 0 && calls[0].time <= calls[n - 1].time
  {
  }

  lemma {:induction false} Forward(f: int, d: int, q: int)
    requires f > 0 && d >= f && q == d / f
    ensures q >= 1
  {
    LaterWindow(f, f, d);
    Quotient(f, f, 1, 0);
  }

  // The last call falls in the window of the one before.
  lemma {:induction false} SameWindow(calls: seq<Call>, f: int, w: int, value: int)
    requires f > 0 && |calls| > 1
    requires var n := |calls| - 1;
      (calls[n].time - calls[0].time) / f == w && Shows(calls[..n], calls[0].time, f, w, value)
    ensures Shows(calls, calls[0].time, f, w, value)
    ensures var n := |calls| - 1;
      WindowSum(calls, calls[0].time, f, w) == WindowSum(calls[..n], calls[0].time, f, w) + calls[n].size
  {
    hide WindowSum;
    var n, origin := |calls| - 1, calls[0].time;
    var front := calls[..n];
    OneMoreCall(calls, origin, f, w);
    if v :| LatestBefore(front, origin, f, w, v) && value == WindowSum(front, origin, f, v) {
      StillLatest(calls, origin, f, w, v);
      OneMoreCall(calls, origin, f, v);
    }
  }

  lemma {:induction false} StillLatest(calls: seq<Call>, origin: int, f: int, w: int, v: int)
    requires f > 0 && calls != [] && LatestBefore(calls[..|calls| - 1], origin, f, w, v)
    requires WindowOf(calls[|calls| - 1], origin, f) >= w
    ensures LatestBefore(calls, origin, f, w, v)
  {
    hide WindowOf;
    var front := calls[..|calls| - 1];
    var i :| 0 <= i < |front| && InWindow(front[i], origin, f, v);
    assert InWindow(calls[i], origin, f, v);
  }

  // The last call opens a new window: the one before becomes the latest with a call.
  lemma {:induction false} NewWindow(calls: seq<Call>, f: int, w: int, w': int)
    requires f > 0 && |calls| > 1 && Timely(calls) && w < w'
    requires var n := |calls| - 1;
      (calls[n].time - calls[0].time) / f == w' && (calls[n - 1].time - calls[0].time) / f == w
    ensures var n := |calls| - 1;
      Shows(calls, calls[0].time, f, w', WindowSum(calls[..n], calls[0].time, f, w))
    ensures WindowSum(calls, calls[0].time, f, w') == calls[|calls| - 1].size
  {
    hide Shows, WindowSum;
    var n, origin := |calls| - 1, calls[0].time;
    var front := calls[..n];
    forall i | 0 <= i < n ensures (calls[i].time - origin) / f <= w {
      LaterWindow(f, calls[i].time - origin, calls[n - 1].time - origin);
    }
    assert InWindow(calls[n - 1], origin, f, w);
    assert LatestBefore(calls, origin, f, w', w);
    EmptyWindow(front, origin, f, w');
    OneMoreCall(calls, origin, f, w);
    OneMoreCall(calls, origin, f, w');
    ShowsLatest(calls, origin, f, w', w);
  }

  lemma {:induction false} OneMoreCall(calls: seq<Call>, origin: int, f: int, w: int)
    requires f > 0 && calls != []
    ensures var n := |calls| - 1;
      WindowSum(calls, origin, f, w)
      == WindowSum(calls[..n], origin, f, w) + (if (calls[n].time - origin) / f == w then calls[n].size else 0)
  {
  }

  lemma {:induction false} ShowsLatest(calls: seq<Call>, origin: int, f: int, w: int, v: int)
    requires f > 0 && LatestBefore(calls, origin, f, w, v)
    ensures Shows(calls, origin, f, w, WindowSum(calls, origin, f, v))
  {
    hide WindowSum;
  }

  lemma {:induction false} EmptyWindow(calls: seq<Call>, origin: int, f: int, w: int)
    requires f > 0 && forall i :: 0 <= i < |calls| ==> (calls[i].time - origin) / f < w
    ensures WindowSum(calls, origin, f, w) == 0
  {
    if calls != [] { EmptyWindow(calls[..|calls| - 1], origin, f, w); }
  }

  // ---- Nothing is lost ----

  function Total(calls: seq<Call>): int {
    if calls == [] then 0 else Total(calls[..|calls| - 1]) + calls[|calls| - 1].size
  }

  function Sum(s: seq<int>): int {
    if s == [] then 0 else Sum(s[..|s| - 1]) + s[|s| - 1]
  }

  // A call at this time ends the current window.
  predicate Rolls(s: State, time: int) {
    s.lastTime != 0 && time - s.lastTime >= s.frameTime
  }

  // The running sums that a run of calls has moved out, oldest first.
  function Moved(frameTime: int, calls: seq<Call>): seq<int>
    requires frameTime > 0
  {
    if calls == [] then []
    else
      var front, c := calls[..|calls| - 1], calls[|calls| - 1];
      var s := After(frameTime, front);
      Moved(frameTime, front) + if Rolls(s, c.time) then [s.tmpValue] else []
  }

  lemma {:induction false} SumAppend(s: seq<int>, x: int)
    ensures Sum(s + [x]) == Sum(s) + x
  {
    assert (s + [x])[..|s|] == s;
  }

  // Whatever the times: the sums moved out and the running one account for every size added, and the value
  // shown is the last one moved out.
  lemma {:induction false} NothingLost(frameTime: int, calls: seq<Call>)
    requires frameTime > 0
    ensures var s, moved := After(frameTime, calls), Moved(frameTime, calls);
      && Sum(moved) + s.tmpValue == Total(calls)
      && s.value == if moved == [] then 0 else moved[|moved| - 1]
  {
    if calls != [] {
      var front, c := calls[..|calls| - 1], calls[|calls| - 1];
      NothingLost(frameTime, front);
      SumAppend(Moved(frameTime, front), After(frameTime, front).tmpValue);
      assert Moved(frameTime, front) + [] == Moved(frameTime, front);
    }
  }

  // The windows in which there was a call, oldest first.
  function Visited(calls: seq<Call>, f: int): seq<int>
    requires f > 0
  {
    if calls == [] then []
    else
      var v, w := Visited(calls[..|calls| - 1], f), WindowOf(calls[|calls| - 1], calls[0].time, f);
      if v != [] && v[|v| - 1] == w then v else v + [w]
  }

  predicate Ascending(s: seq<int>) {
    forall i, j :: 0 <= i < j < |s| ==> s[i] < s[j]
  }

  // The sums moved out are those of the windows visited before the current one, and the running sum is
  // that of the current one.
  ghost predicate MovedSums(frameTime: int, calls: seq<Call>)
    requires frameTime > 0 && calls != []
  {
    var moved, v, origin := Moved(frameTime, calls), Visited(calls, frameTime), calls[0].time;
    && |v| == |moved| + 1 && Ascending(v)
    && v[|moved|] == Window(calls, frameTime, calls[|calls| - 1].time)
    && (forall i :: 0 <= i < |moved| ==> moved[i] == WindowSum(calls, origin, frameTime, v[i]))
    && After(frameTime, calls).tmpValue == WindowSum(calls, origin, frameTime, v[|moved|])
    && forall c <- calls :: WindowOf(c, origin, frameTime) in v
  }

  // Over every run at times that do not go back: window by window, each sum is shown once it is complete,
  // and no size is left out or counted twice.
  lemma {:induction false} WindowByWindow(frameTime: int, calls: seq<Call>)
    requires frameTime > 0 && calls != [] && Timely(calls)
    ensures MovedSums(frameTime, calls)
    ensures Sum(Moved(frameTime, calls)) + After(frameTime, calls).tmpValue == Total(calls)
  {
    hide Shows, WindowSum, Moved, Total, After, MovedSums;
    NothingLost(frameTime, calls);
    CounterCounts(frameTime, calls);
    if |calls| == 1 {
      OneCallMoved(frameTime, calls);
    } else {
      FrontTimely(calls);
      InOrder(calls);
      WindowByWindow(frameTime, calls[..|calls| - 1]);
      CounterCounts(frameTime, calls[..|calls| - 1]);
      MoreMoved(frameTime, calls);
    }
  }

  lemma {:induction false} OneCallMoved(f: int, calls: seq<Call>)
    requires f > 0 && |calls| == 1 && Counts(After(f, calls), calls)
    ensures MovedSums(f, calls)
  {
    hide Shows, WindowSum;
    assert calls[..0] == [];
    Quotient(f, 0, 0, 0);
    assert Moved(f, calls) == [] && Visited(calls, f) == [0];
  }

  // The next call ends the window just when it falls in a later one.
  lemma {:induction false} RollsLater(f: int, calls: seq<Call>)
    requires f > 0 && |calls| > 1 && calls[0].time > 0 && calls[|calls| - 2].time <= calls[|calls| - 1].time
    requires Counts(After(f, calls[..|calls| - 1]), calls[..|calls| - 1]) && Counts(After(f, calls), calls)
    ensures var n := |calls| - 1;
      var w, w' := Window(calls, f, calls[n - 1].time), Window(calls, f, calls[n].time);
      if Rolls(After(f, calls[..n]), calls[n].time) then w < w' else w == w'
  {
    hide Shows, WindowSum;
    var n, s := |calls| - 1, After(f, calls[..|calls| - 1]);
    var w, w', d := Window(calls, f, calls[n - 1].time), Window(calls, f, calls[n].time), calls[n].time - s.lastTime;
    if Rolls(s, calls[n].time) {
      assert d % f < f <= d;
      SmallerTimes(f, w, w');
    } else {
      SameTimes(f, w, w');
    }
  }

  lemma {:induction false} SmallerTimes(f: int, a: int, b: int)
    requires f > 0 && f * a < f * b
    ensures a < b
  {
    assert f * (b - a) == f * b - f * a;
    Multiples(f, b - a);
  }

  lemma {:induction false} SameTimes(f: int, a: int, b: int)
    requires f > 0 && f * a == f * b
    ensures a == b
  {
    assert f * (a - b) == 0;
    Multiples(f, a - b);
  }

  lemma {:induction false} MoreMoved(f: int, calls: seq<Call>)
    requires f > 0 && |calls| > 1 && calls[0].time > 0 && calls[|calls| - 2].time <= calls[|calls| - 1].time
    requires MovedSums(f, calls[..|calls| - 1])
    requires Counts(After(f, calls[..|calls| - 1]), calls[..|calls| - 1]) && Counts(After(f, calls), calls)
    ensures MovedSums(f, calls)
  {
    hide Shows, WindowSum, After;
    var n, origin := |calls| - 1, calls[0].time;
    var front := calls[..n];
    RollsLater(f, calls);
    var v, moved := Visited(front, f), Moved(f, front);
    var v', moved', w' := Visited(calls, f), Moved(f, calls), Window(calls, f, calls[n].time);
    OneMoreCall(calls, origin, f, v[|moved|]);
    forall i | 0 <= i < |moved| ensures moved[i] == WindowSum(calls, origin, f, v[i]) {
      OneMoreCall(calls, origin, f, v[i]);
      assert v[i] < v[|moved|];
    }
    forall c | c in calls ensures WindowOf(c, origin, f) in v' {
      if c in front { assert WindowOf(c, origin, f) in v; } else { assert c == calls[n] && v'[|v'| - 1] == w'; }
    }
  }
}
