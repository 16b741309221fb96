// re_search_2 forwards over one string: skipping start positions by the fastmap finds the same match
// as trying every position in turn.
module RegexSearch {
  import opened Bytes
  import opened RegexTree
  import opened RegexCode
  import opened RegexParse
  import opened RegexFirst
  import opened RegexFastmap
  import opened RegexRoles
  import Machine = RegexMachine
  import Sound = RegexSound
  import Complete = RegexComplete
  import Terminate = RegexTerminate
  import Registers = RegexRegisters
  import opened RegexOpen
  import Rewrite = RegexRewrite
  import Matcher = RegexMatcher

  // ---- Compiled trees have their alternatives where the analysis expects them ----

  predicate TidyAlts(alts: seq<Re>) {
    forall i :: 0 <= i < |alts| ==> AltFree(alts[i])
  }

  predicate TidyLevel(l: Level) {
    TidyAlts(l.alts) && AltFree(l.before) && (l.last.Some? ==> AltFree(l.last.value))
  }

  predicate TidySaved(s: Saved) {
    TidyAlts(s.alts) && AltFree(s.cur)
  }

  predicate Tidy(st: PState) {
    TidyLevel(st.level) && forall i :: 0 <= i < |st.stack| ==> TidySaved(st.stack[i])
  }

  lemma {:induction false} TreeTidy(alts: seq<Re>, cur: Re)
    requires TidyAlts(alts) && AltFree(cur)
    ensures Chain(Tree(alts, cur))
  {
    if alts != [] { TreeTidy(alts[1..], cur); }
  }

  lemma {:induction false} CloseTidy(st: PState)
    requires Tidy(st) && st.stack != []
    ensures Tidy(CloseGroup(st))
  {
    hide Tree;
    var n := |st.stack| - 1;
    assert TidySaved(st.stack[n]);
    TreeTidy(st.level.alts, Current(st.level));
  }

  lemma {:induction false} AttachTidy(l: Level, x: Re)
    requires TidyLevel(l) && AltFree(x)
    ensures TidyLevel(Attach(l, x))
  {
  }

  lemma {:induction false} AddCharTidy(l: Level, c: byte, alone: bool)
    requires TidyLevel(l)
    ensures TidyLevel(AddChar(l, c, alone))
  {
  }

  lemma {:induction false} ShiftTidy(st: PState, tok: Token)
    requires Tidy(st) && Shift(st, tok).Ok?
    ensures Tidy(Shift(st, tok).value)
  {
    hide Used, RegexBracket.MapOf, RegexBracket.Trimmed, Tree, Attach, AddChar;
    match tok
    case Close(alone) =>
      if st.stack != [] {
        CloseTidy(st);
      } else {
        AttachTidy(st.level, Dummy);
        AddCharTidy(Unmatched(st.level), RIGHT_PAREN, alone);
      }
    case Char(c, alone) => AddCharTidy(st.level, c, alone);
    case Hat => AttachTidy(st.level, Bol);
    case Dollar => AttachTidy(st.level, Eol);
    case _ =>
  }

  lemma {:induction false} ParseFromTidy(pat: seq<byte>, p: nat, st: PState)
    requires Tidy(st) && ParseFrom(pat, p, st).Ok?
    ensures Chain(ParseFrom(pat, p, st).value.tree)
    decreases |pat| - p
  {
    hide Shift, Lex, Tidy;
    if p >= |pat| {
      FinishTidy(st);
    } else {
      var (tok, q) := Lex(pat, p);
      ShiftTidy(st, tok);
      ParseFromTidy(pat, q, Shift(st, tok).value);
    }
  }

  lemma {:induction false} FinishTidy(st: PState)
    requires Tidy(st) && Finish(st).Ok?
    ensures Chain(Finish(st).value.tree)
  {
    TreeTidy(st.level.alts, Current(st.level));
  }

  lemma {:induction false} ParseTidy(pat: seq<byte>)
    requires Parse(pat).Ok?
    ensures Chain(Parse(pat).value.tree)
  {
    hide ParseFrom;
    ParseFromTidy(pat, 0, START);
  }

  // ---- Searching ----

  // Stands for the result of a match whose push goes past the end of the failure stack.
  const OVERRAN := -3

  // Trying every position from pos to pos + range in turn, where results[i] is what re_match_2
  // returns at position i.
  function Naive(results: seq<int>, pos: nat, range: nat): int
    requires pos + range < |results|
    decreases range
  {
    if results[pos] >= 0 then pos
    else if results[pos] < -1 then results[pos]
    else if range == 0 then -1
    else Naive(results, pos + 1, range - 1)
  }

  // The first position with a match; or what stops the search before: a failure stack that overflows or is overrun.
  lemma {:induction false} NaiveFinds(results: seq<int>, pos: nat, range: nat)
    requires pos + range < |results|
    ensures var r := Naive(results, pos, range);
      && (r < -1 ==>
            exists i :: pos <= i <= pos + range && results[i] == r && forall k :: pos <= k < i ==> results[k] == -1)
      && (r == -1 ==> forall i :: pos <= i <= pos + range ==> results[i] == -1)
      && (r >= 0 ==> pos <= r <= pos + range && results[r] >= 0 && forall i :: pos <= i < r ==> results[i] == -1)
    decreases range
  {
    if results[pos] == -1 && range > 0 { NaiveFinds(results, pos + 1, range - 1); }
  }

  predicate Yields(o: Machine.Outcome, r: int) {
    if r == OVERRAN then o == Machine.Overrun else o == Machine.Done(r)
  }

  // re_match_2 takes at most `steps' commands at any start position, and comes to these results.
  ghost predicate Gives(t: Re, env: Env, groups: nat, steps: nat, results: seq<int>)
    requires WellFormed(t)
  {
    && |results| == |env.text| + 1
    && forall i :: 0 <= i < |results| ==>
      Yields(Machine.Match(Emit(t), Machine.Config(env, i, groups), steps), results[i])
  }

  lemma {:induction false} GivenAt(t: Re, env: Env, groups: nat, steps: nat, results: seq<int>, i: nat)
    requires WellFormed(t) && Len(t) <= MAX_REACH && Gives(t, env, groups, steps, results) && i < |results|
    ensures Yields(Machine.Match(Emit(t), Machine.Config(env, i, groups), steps), results[i])
    ensures results[i] >= OVERRAN && (results[i] >= 0 ==> Spans(t, env, i, i + results[i]))
  {
    hide Spans, Emit, Len, Machine.Match;
    Sound.MatcherSound(t, Machine.Config(env, i, groups), steps);
  }

  // Positions the fastmap passes over.
  predicate Skipped(t: Re, env: Env, i: nat) {
    !Null(t) && (i >= |env.text| || !Starts(t, env.text[i]))
  }

  // No match starts at a position passed over.
  lemma {:induction false} SkippedFails(t: Re, env: Env, groups: nat, steps: nat, results: seq<int>, i: nat)
    requires WellFormed(t) && Len(t) <= MAX_REACH && Gives(t, env, groups, steps, results) && i < |results|
    requires Skipped(t, env, i)
    ensures results[i] < 0
  {
    hide Gives, Len, Null, Starts, Spans, WellFormed, Emit, Machine.Match;
    GivenAt(t, env, groups, steps, results, i);
    if results[i] >= 0 { FirstSound(t, env, i, i + results[i]); }
  }

  // Nothing is found at i: re_match_2 says so, or would run out of stack where no match can start.
  predicate Missed(t: Re, env: Env, results: seq<int>, i: nat)
    requires i < |results|
  {
    results[i] == -1 || (Skipped(t, env, i) && results[i] < -1)
  }

  predicate MissedTo(t: Re, env: Env, results: seq<int>, pos: nat, end: nat)
    requires end <= |results|
  {
    forall i :: pos <= i < end ==> Missed(t, env, results, i)
  }

  // What a search from pos over range gives: the first position with a match, -1 for none; or what stops it
  // before a match is found, a failure stack that overflows or is overrun.
  ghost predicate Found(t: Re, env: Env, results: seq<int>, pos: nat, range: nat, r: int)
    requires pos + range < |results|
  {
    && r >= OVERRAN
    && (r >= 0 ==> pos <= r <= pos + range && results[r] >= 0 && MissedTo(t, env, results, pos, r))
    && (r == -1 ==> MissedTo(t, env, results, pos, pos + range + 1))
    && (r < -1 ==> exists i: nat :: pos <= i <= pos + range && results[i] == r && MissedTo(t, env, results, pos, i))
  }

  // That is what trying every position in turn gives, if the failure stack has room where no match can start.
  lemma {:induction false} FoundIsNaive(t: Re, env: Env, results: seq<int>, pos: nat, range: nat, r: int)
    requires pos + range < |results| && Found(t, env, results, pos, range, r)
    requires forall i :: pos <= i <= pos + range && Skipped(t, env, i) ==> results[i] >= -1
    ensures r == Naive(results, pos, range)
    decreases range
  {
    hide Skipped;
    assert pos < r || (r < -1 && results[pos] != r) || r == -1 ==> Missed(t, env, results, pos);
    if results[pos] == -1 && range > 0 {
      if r < -1 {
        var i: nat :| pos <= i <= pos + range && results[i] == r && MissedTo(t, env, results, pos, i);
        assert MissedTo(t, env, results, pos + 1, i);
      }
      FoundIsNaive(t, env, results, pos + 1, range - 1, r);
    }
  }

  // The positions without a mark, and the end of the text, are missed.
  ghost predicate Passes(t: Re, marks: seq<bool>, env: Env, results: seq<int>)
    requires |marks| == 256 && |results| == |env.text| + 1
  {
    Missed(t, env, results, |env.text|)
    && forall i :: 0 <= i < |env.text| && !marks[env.text[i]] ==> Missed(t, env, results, i)
  }

  // re_match_2 at one position, on the program as earlier matches left it.
  method MatchAt(program: array<byte>, env: Env, groups: nat, pos: nat, steps: nat, ghost t: Re,
        ghost results: seq<int>) returns (val: int)
    requires WellFormed(t) && Len(t) <= MAX_REACH && RegsWithin(t, groups) && Rewrite.Variant(Emit(t), t, program[..])
    requires Gives(t, env, groups, steps, results) && pos <= |env.text|
    modifies program
    ensures Rewrite.Variant(Emit(t), t, program[..])
    ensures pos < |results| && val == results[pos] && val >= OVERRAN
  {
    hide Emit, Len, Rewrite.Variant, WellFormed, Machine.Match, Spans, Simple, Terminate.Enough, Complete.Final,
      RegsWithin, Registers.InStep;
    GivenAt(t, env, groups, steps, results, pos);
    var a := Matcher.ReMatch2(program, Machine.Config(env, pos, groups), t, steps);
    val := if a.Overran? then OVERRAN else a.value;
  }

  // The position where skipping stops: the next one marked, or the last of the range.
  method SkipUnmarked(fastmap: array<bool>, env: Env, pos: nat, range: nat, ghost t: Re, ghost results: seq<int>)
    returns (pos': nat, range': nat)
    requires fastmap.Length == 256 && |results| == |env.text| + 1 && pos + range <= |env.text| && pos < |env.text|
    requires Passes(t, fastmap[..], env, results)
    ensures pos' + range' == pos + range && pos <= pos' && MissedTo(t, env, results, pos, pos')
    ensures range' == 0 || fastmap[env.text[pos']]
  {
    hide Missed;
    pos', range' := pos, range;
    while range' > 0 && !fastmap[env.text[pos']]
      invariant pos' + range' == pos + range && pos <= pos'
      invariant MissedTo(t, env, results, pos, pos')
      decreases range'
    {
      assert !fastmap[..][env.text[pos']];
      pos', range' := pos' + 1, range' - 1;
    }
  }

  // re_search_2 over one string with a range that is not negative, without a fastmap or with an
  // accurate one.
  method ReSearch2(program: array<byte>, fastmap: array?<bool>, canBeNull: bool, env: Env, groups: nat, startpos: int,
        range: nat,
                   steps: nat, ghost t: Re, ghost results: seq<int>)
    returns (r: int)
    requires WellFormed(t) && Len(t) <= MAX_REACH && RegsWithin(t, groups) && Rewrite.Variant(Emit(t), t, program[..])
    requires Gives(t, env, groups, steps, results)
    requires fastmap != null ==>
      fastmap.Length == 256 && (!canBeNull ==> |results| == |env.text| + 1 && Passes(t, fastmap[..], env, results))
    modifies program
    ensures Rewrite.Variant(Emit(t), t, program[..])
    ensures startpos < 0 || startpos > |env.text| ==> r == -1
    ensures 0 <= startpos <= |env.text| ==>
      |results| == |env.text| + 1 &&
      Found(t, env, results, startpos, if startpos + range > |env.text| then |env.text| - startpos else range, r)
  {
    hide Emit, Len, Rewrite.Variant, WellFormed, Passes, RegsWithin, Missed, MissedTo, Found, Null, Starts;
    if startpos < 0 || startpos > |env.text| { return -1; }
    var total := |env.text|;
    var pos: nat := startpos;
    var left: nat := if pos + range > total then total - pos else range;
    ghost var end := pos + left;
    hide Gives;
    GivesLength(t, env, groups, steps, results);
    MissedNone(t, env, results, pos);
    while true
      invariant Rewrite.Variant(Emit(t), t, program[..])
      invariant startpos <= pos && pos + left == end <= total && MissedTo(t, env, results, startpos, pos)
      decreases left
    {
      if fastmap != null && pos < total && !canBeNull {
        if left > 0 {
          ghost var from := pos;
          pos, left := SkipUnmarked(fastmap, env, pos, left, t, results);
          MissedJoin(t, env, results, startpos, from, pos);
        } else if !fastmap[env.text[pos]] {
          UnmarkedPasses(t, fastmap[..], env, results, pos);
          MissedMore(t, env, results, startpos, pos);
          return -1;
        }
      }
      if pos == total && fastmap != null && !canBeNull {
        LastPasses(t, fastmap[..], env, results);
        MissedMore(t, env, results, startpos, pos);
        return -1;
      }
      var val := MatchAt(program, env, groups, pos, steps, t, results);
      FoundHere(t, env, results, startpos, end - startpos, pos);
      if val >= 0 { return pos; }
      if val == -2 || val == OVERRAN { return val; }
      MissedHere(t, env, results, pos);
      MissedMore(t, env, results, startpos, pos);
      if left == 0 { break; }
      pos, left := pos + 1, left - 1;
    }
    return -1;
  }

  lemma {:induction false} MissedNone(t: Re, env: Env, results: seq<int>, pos: nat)
    requires pos <= |results|
    ensures MissedTo(t, env, results, pos, pos)
  {
  }

  lemma {:induction false} MissedJoin(t: Re, env: Env, results: seq<int>, a: nat, b: nat, c: nat)
    requires a <= b <= c <= |results| && MissedTo(t, env, results, a, b) && MissedTo(t, env, results, b, c)
    ensures MissedTo(t, env, results, a, c)
  {
    hide Missed;
  }

  lemma {:induction false} MissedMore(t: Re, env: Env, results: seq<int>, a: nat, b: nat)
    requires a <= b < |results| && MissedTo(t, env, results, a, b) && Missed(t, env, results, b)
    ensures MissedTo(t, env, results, a, b + 1)
    ensures Found(t, env, results, a, b - a, -1)
  {
    hide Missed;
  }

  // The search ends at a position with a match, or where the stack has no room.
  lemma {:induction false} FoundHere(t: Re, env: Env, results: seq<int>, pos: nat, range: nat, i: nat)
    requires pos <= i <= pos + range < |results| && MissedTo(t, env, results, pos, i)
    ensures results[i] >= 0 ==> Found(t, env, results, pos, range, i)
    ensures OVERRAN <= results[i] < -1 ==> Found(t, env, results, pos, range, results[i])
  {
    hide Missed;
  }

  lemma {:induction false} MissedHere(t: Re, env: Env, results: seq<int>, pos: nat)
    requires pos < |results| && results[pos] == -1
    ensures Missed(t, env, results, pos)
  {
  }

  lemma {:induction false} UnmarkedPasses(t: Re, marks: seq<bool>, env: Env, results: seq<int>, pos: nat)
    requires |marks| == 256 && |results| == |env.text| + 1 && Passes(t, marks, env, results)
    requires pos < |env.text| && !marks[env.text[pos]]
    ensures Missed(t, env, results, pos)
  {
    hide Missed;
  }

  lemma {:induction false} LastPasses(t: Re, marks: seq<bool>, env: Env, results: seq<int>)
    requires |marks| == 256 && |results| == |env.text| + 1 && Passes(t, marks, env, results)
    ensures Missed(t, env, results, |env.text|)
  {
    hide Missed;
  }

  // re_search_2 when the fastmap is yet to be computed, on a freshly compiled program.
  method FirstSearch(program: array<byte>, beyond: byte, env: Env, groups: nat, startpos: int, range: nat,
                     steps: nat, ghost t: Re, ghost results: seq<int>)
    returns (r: int)
    requires WellFormed(t) && Len(t) <= MAX_REACH && RegsWithin(t, groups) && Chain(t) && program[..] == Emit(t)
    requires LastEmpty(t) ==> !HeadLike(beyond)
    requires Gives(t, env, groups, steps, results)
    modifies program
    ensures Rewrite.Variant(Emit(t), t, program[..])
    // -2 without a match being tried: the analysis ran out of stack
    ensures 0 <= startpos <= |env.text| ==>
      |results| == |env.text| + 1 &&
      (Found(t, env, results, startpos, if startpos + range > |env.text| then |env.text| - startpos else range, r)
       || (r == -2 && Len(t) > 6000))
  {
    hide Emit, Len, Rewrite.Variant, WellFormed, Passes, Gives, Found, Analysed, Starts, Null, LastEmpty, Chain,
      RegsWithin;
    Rewrite.FreshIsVariant(Emit(t), t);
    if startpos < 0 || startpos > |env.text| { return -1; }
    var fastmap := new bool[256];
    FreshAnalysed(t);
    var ok, canBeNull := CompileFastmap(program[..], beyond, fastmap, t);
    GivesLength(t, env, groups, steps, results);
    if ok == -2 { return -2; }
    if !canBeNull { MarksPass(t, fastmap[..], env, groups, steps, results); }
    r := ReSearch2(program, fastmap, canBeNull, env, groups, startpos, range, steps, t, results);
  }

  lemma {:induction false} GivesLength(t: Re, env: Env, groups: nat, steps: nat, results: seq<int>)
    requires WellFormed(t) && Gives(t, env, groups, steps, results)
    ensures |results| == |env.text| + 1
  {
    hide Emit, Machine.Match;
  }

  lemma {:induction false} FreshAnalysed(t: Re)
    requires WellFormed(t) && Len(t) <= MAX_REACH && Chain(t)
    ensures Analysed(Emit(t), t)
  {
    hide Emit, Len, Chain;
    assert Emit(t)[0..0 + Len(t)] == Emit(t);
  }

  lemma {:induction false} MarksPass(t: Re, marks: seq<bool>, env: Env, groups: nat, steps: nat, results: seq<int>)
    requires WellFormed(t) && Len(t) <= MAX_REACH && Gives(t, env, groups, steps, results)
    requires |marks| == 256 && !Null(t) && forall c: byte :: marks[c] <==> Starts(t, c)
    ensures |results| == |env.text| + 1 && Passes(t, marks, env, results)
  {
    hide Emit, Len, WellFormed, Null, Starts;
    var n := |env.text|;
    SkippedFails(t, env, groups, steps, results, n);
    forall i | 0 <= i < n && !marks[env.text[i]] ensures Missed(t, env, results, i) {
      SkippedFails(t, env, groups, steps, results, i);
    }
  }
}
