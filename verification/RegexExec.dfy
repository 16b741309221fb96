// regcomp and regexec for a pattern as it is spelled: the leftmost position where what it stands for
// matches, with a fastmap and without.
module RegexExec {
  import opened Bytes
  import opened RegexTree
  import opened RegexCode
  import opened RegexParse
  import opened RegexRoles
  import opened RegexSearch
  import First = RegexFirst
  import Fastmap = RegexFastmap
  import Machine = RegexMachine
  import Complete = RegexComplete
  import Terminate = RegexTerminate
  import Overflow = RegexOverflow
  import Open = RegexOpen
  import Registers = RegexRegisters
  import InTame = RegexTame
  import Compiler = RegexCompiler
  import Matcher = RegexMatcher
  import Engine = RegexEngine
  import Rewrite = RegexRewrite
  import G = RegexGrammar

  // t matches something from i on.
  ghost predicate MatchesFrom(t: Re, env: Env, i: nat) {
    exists j: nat :: Spans(t, env, i, j)
  }

  // The first position from which t matches, or -1 when there is none.
  ghost predicate Leftmost(t: Re, env: Env, at: int) {
    if at == -1 then forall i: nat :: !MatchesFrom(t, env, i)
    else at >= 0 && MatchesFrom(t, env, at) && forall i: nat :: i < at ==> !MatchesFrom(t, env, i)
  }

  // Room on the failure stack from every start position.
  predicate RoomyText(c: Compiled, env: Env)
    requires WellFormed(c.tree)
  {
    (|env.text| + 1) * Overflow.Forks(Emit(c.tree), c.tree, 0) <= 2000
  }

  // What a compiled simple pattern satisfies.
  ghost predicate Sound(c: Compiled) {
    && WellFormed(c.tree) && Len(c.tree) <= MAX_REACH && Simple(c.tree)
    && First.Chain(c.tree) && Open.RegsWithin(c.tree, c.groups)
    && (Open.Tame(c.tree) ==> Registers.InStep(c.tree, c.groups))
  }

  // The pattern compiles, all of its code is in reach, and its registers stay in step.
  predicate Tamed(pat: seq<byte>) {
    Engine.Reachable(pat) && Open.Tame(Parse(pat).value.tree)
  }

  // Patterns of up to 963 characters are such patterns, if none of their groups lies in a choice, or at most two
  // come from the first one that does on.
  lemma {:induction false} ShortIsTamed(r: G.Alts)
    requires G.Spellable(r) && Engine.MOST_PER_CHAR * |G.ShowAlts(r)| <= MAX_REACH
    ensures var c := Parse(G.ShowAlts(r));
      && c.Ok? && Engine.Reachable(G.ShowAlts(r))
      && (c.value.groups <= MAX_REGNUM ==>
            InTame.Unchosen(c.value.tree) || c.value.groups <= Open.Firm(c.value.tree) + 2 ==> Tamed(G.ShowAlts(r)))
  {
    hide Parse, Open.Tame, Open.Firm, InTame.Unchosen, Len;
    Engine.SpelledReachable(r, Env([], false, false));
    InTame.CompiledInStep(G.ShowAlts(r));
  }

  lemma {:induction false} PatternSound(r: G.Alts, env: Env) returns (c: Compiled)
    requires G.Spellable(r) && G.SimplePattern(r) && Engine.Reachable(G.ShowAlts(r))
    ensures Parse(G.ShowAlts(r)) == Ok(c) && Sound(c) && Alike(c.tree, G.Meaning(r), env)
  {
    hide Parse, Alike, WellFormed, Simple, Len, First.Chain, Open.RegsWithin, Open.Tame, Registers.InStep;
    c := Engine.PatternTree(r, env);
    ParseTidy(G.ShowAlts(r));
  }

  // ---- Results at every position ----

  ghost function ResultAt(c: Compiled, env: Env, i: nat): int
    requires WellFormed(c.tree)
  {
    var o := Machine.Match(Emit(c.tree), Machine.Config(env, i, c.groups), Terminate.Enough(c.tree, env));
    if o.Done? then o.result else OVERRAN
  }

  ghost function Results(c: Compiled, env: Env): (s: seq<int>)
    requires WellFormed(c.tree)
    ensures |s| == |env.text| + 1 && forall i :: 0 <= i < |s| ==> s[i] == ResultAt(c, env, i)
  {
    seq(|env.text| + 1, i requires 0 <= i => ResultAt(c, env, i))
  }

  // Somewhere in the text a match gives r.
  ghost predicate Arises(c: Compiled, env: Env, r: int)
    requires WellFormed(c.tree)
  {
    exists i :: 0 <= i <= |env.text| && Results(c, env)[i] == r
  }

  // In the match from i a push strays.
  ghost predicate StraysFrom(c: Compiled, env: Env, i: nat)
    requires WellFormed(c.tree)
  {
    Registers.Strayed(Emit(c.tree), Machine.Config(env, i, c.groups), Terminate.Enough(c.tree, env))
  }

  ghost predicate Astray(c: Compiled, env: Env)
    requires WellFormed(c.tree)
  {
    exists i: nat :: i <= |env.text| && StraysFrom(c, env, i)
  }

  // The failure stack is overrun only where a push strays, and overflows only there or beyond the bound on text
  // and forks; and where the registers stay in step, none does.
  lemma {:induction false} RoomAt(c: Compiled, env: Env, i: nat)
    requires Sound(c) && i <= |env.text|
    ensures ResultAt(c, env, i) == OVERRAN ==> StraysFrom(c, env, i)
    ensures ResultAt(c, env, i) == -2 && RoomyText(c, env) ==> StraysFrom(c, env, i)
    ensures Open.Tame(c.tree) ==> !StraysFrom(c, env, i)
  {
    hide Spans, Simple, Emit, Len, Terminate.Enough, Machine.Match, WellFormed, First.Chain, Registers.InStep,
      Open.RegsWithin, Overflow.Forks, Open.Tame, Complete.Final, Registers.Strayed;
    var cfg, n := Machine.Config(env, i, c.groups), Terminate.Enough(c.tree, env);
    ResultFinal(c, env, i, n);
    Registers.OverrunStrays(Emit(c.tree), cfg, n);
    if RoomyText(c, env) {
      FewerLeft(|env.text| - i + 1, |env.text| + 1, Overflow.Forks(Emit(c.tree), c.tree, 0));
      Overflow.NoOverflow(c.tree, cfg, n);
    }
    if Open.Tame(c.tree) { Registers.NoneStrays(c.tree, cfg, n); }
  }

  // So over the whole text.
  lemma {:induction false} RoomAnywhere(c: Compiled, env: Env)
    requires Sound(c)
    ensures WellFormed(c.tree)
    ensures Arises(c, env, OVERRAN) ==> Astray(c, env)
    ensures Arises(c, env, -2) && RoomyText(c, env) ==> Astray(c, env)
    ensures Open.Tame(c.tree) ==> !Astray(c, env)
  {
    hide ResultAt, StraysFrom, Sound, RoomyText, Open.Tame, WellFormed;
    SoundIsWellFormed(c);
    forall i: nat | i <= |env.text|
      ensures Results(c, env)[i] == OVERRAN ==> StraysFrom(c, env, i)
      ensures Results(c, env)[i] == -2 && RoomyText(c, env) ==> StraysFrom(c, env, i)
      ensures Open.Tame(c.tree) ==> !StraysFrom(c, env, i)
    {
      RoomAt(c, env, i);
    }
  }

  lemma {:induction false} FewerLeft(a: nat, b: nat, f: nat)
    requires a <= b
    ensures a * f <= b * f
  {
  }

  // Enough steps come to an end at every position: without room on the stack, or with an answer that decides
  // matching there.
  lemma {:induction false} ResultFinal(c: Compiled, env: Env, i: nat, steps: nat)
    requires Sound(c) && i <= |env.text| && steps >= Terminate.Enough(c.tree, env)
    ensures var cfg := Machine.Config(env, i, c.groups);
      && Yields(Machine.Match(Emit(c.tree), cfg, steps), ResultAt(c, env, i))
      && (ResultAt(c, env, i) == OVERRAN || Complete.Final(c.tree, cfg, ResultAt(c, env, i)))
  {
    hide Spans, Simple, Emit, Len, Terminate.Enough, Complete.Final, Machine.Run, Machine.Start, WellFormed,
      First.Chain, Registers.InStep, Open.RegsWithin;
    var cfg := Machine.Config(env, i, c.groups);
    Terminate.MatcherComplete(c.tree, cfg);
    FinalValue(c.tree, cfg, ResultAt(c, env, i));
    Matcher.MoreSteps(Emit(c.tree), cfg, Machine.Start(cfg), Terminate.Enough(c.tree, env), steps);
  }

  lemma {:induction false} FinalValue(t: Re, cfg: Machine.Config, r: int)
    ensures Complete.Final(t, cfg, r) ==> r > OVERRAN
  {
    hide Spans;
  }

  lemma {:induction false} ResultsGiven(c: Compiled, env: Env, steps: nat)
    requires Sound(c) && steps >= Terminate.Enough(c.tree, env)
    ensures Gives(c.tree, env, c.groups, steps, Results(c, env))
  {
    hide Spans, Terminate.Enough, Machine.Match, Sound, WellFormed, ResultAt, Complete.Final;
    assert WellFormed(c.tree) by { SoundIsWellFormed(c); }
    var results := Results(c, env);
    forall i | 0 <= i < |results|
      ensures Yields(Machine.Match(Emit(c.tree), Machine.Config(env, i, c.groups), steps), results[i])
    {
      ResultFinal(c, env, i, steps);
    }
  }

  lemma {:induction false} SoundIsWellFormed(c: Compiled)
    requires Sound(c)
    ensures WellFormed(c.tree) && Len(c.tree) <= MAX_REACH && Open.RegsWithin(c.tree, c.groups)
  {
  }

  lemma {:induction false} InText(t: Re, env: Env, i: nat)
    ensures MatchesFrom(t, env, i) ==> i <= |env.text|
  {
    hide Spans;
    if j: nat :| Spans(t, env, i, j) { G.InText(t, env, i, j); }
  }

  // Matching at one position: unless there is no room on the failure stack, whether anything matches there, and
  // whether the whole rest does.  Without room means a push that strays, or a text too long for every fork to
  // be stacked; and where the registers stay in step no push strays.
  lemma {:induction false} PatternDecides(r: G.Alts, env: Env, pos: nat)
    requires G.Spellable(r) && G.SimplePattern(r) && Engine.Reachable(G.ShowAlts(r)) && pos <= |env.text|
    ensures var c := Parse(G.ShowAlts(r)).value;
      && WellFormed(c.tree)
      && (var cfg := Machine.Config(env, pos, c.groups);
          var o := Machine.Match(Emit(c.tree), cfg, Terminate.Enough(c.tree, env));
          && (o.Overrun? || (o.Done? && (o.result == -2 || Complete.Decides(G.Meaning(r), cfg, o.result))))
          && (o.Overrun? || (o == Machine.Done(-2) && RoomyText(c, env)) ==> StraysFrom(c, env, pos)))
      && (Open.Tame(c.tree) ==> !StraysFrom(c, env, pos))
  {
    hide *;
    var c := PatternSound(r, env);
    CompiledTree(G.ShowAlts(r), c);
    ResultFinal(c, env, pos, Terminate.Enough(c.tree, env));
    RoomAt(c, env, pos);
    AtOne(c, env, pos);
    var cfg := Machine.Config(env, pos, c.groups);
    if ResultAt(c, env, pos) != OVERRAN { FinalAlike(c.tree, G.Meaning(r), cfg, ResultAt(c, env, pos)); }
  }

  lemma {:induction false} AtOne(c: Compiled, env: Env, i: nat)
    requires Sound(c)
    requires var o := Machine.Match(Emit(c.tree), Machine.Config(env, i, c.groups), Terminate.Enough(c.tree, env));
      Yields(o, ResultAt(c, env, i))
    ensures var o := Machine.Match(Emit(c.tree), Machine.Config(env, i, c.groups), Terminate.Enough(c.tree, env));
      if ResultAt(c, env, i) == OVERRAN then o.Overrun? else o == Machine.Done(ResultAt(c, env, i))
  {
    hide Emit, Machine.Match, Terminate.Enough, Simple, First.Chain, Registers.InStep, Open.RegsWithin;
  }

  lemma {:induction false} FinalAlike(s: Re, t: Re, cfg: Machine.Config, r: int)
    requires Alike(s, t, cfg.env) && Complete.Final(s, cfg, r)
    ensures r == -2 || Complete.Decides(t, cfg, r)
  {
    hide Spans, Complete.Decides, Alike;
    if r != -2 { Engine.DecidesAlike(s, t, cfg, r); }
  }

  // ---- What a search finds ----

  // No match starts at a position that is missed.
  lemma {:induction false} MissedHasNone(c: Compiled, env: Env, i: nat)
    requires Sound(c) && i <= |env.text| && WellFormed(c.tree) && Missed(c.tree, env, Results(c, env), i)
    ensures !MatchesFrom(c.tree, env, i)
  {
    hide Spans, Sound, ResultAt, Skipped, Terminate.Enough, Emit;
    if Results(c, env)[i] == -1 {
      ResultFinal(c, env, i, Terminate.Enough(c.tree, env));
    } else {
      SkippedHasNone(c.tree, env, i);
    }
  }

  lemma {:induction false} SkippedHasNone(t: Re, env: Env, i: nat)
    requires WellFormed(t) && Skipped(t, env, i)
    ensures !MatchesFrom(t, env, i)
  {
    hide Spans, First.Null, First.Starts, WellFormed;
    if j: nat :| Spans(t, env, i, j) {
      G.InText(t, env, i, j);
      First.FirstSound(t, env, i, j);
    }
  }

  lemma {:induction false} FoundMatches(c: Compiled, env: Env, i: nat)
    requires Sound(c) && i <= |env.text| && WellFormed(c.tree) && Results(c, env)[i] >= 0
    ensures MatchesFrom(c.tree, env, i)
  {
    hide Spans, Sound, ResultAt, Terminate.Enough, Emit;
    ResultFinal(c, env, i, Terminate.Enough(c.tree, env));
  }

  // What a search over the whole text finds is the leftmost match, unless a match has no room on the failure stack.
  lemma {:induction false} SearchIsLeftmost(c: Compiled, env: Env, at: int)
    requires Sound(c) && WellFormed(c.tree) && Found(c.tree, env, Results(c, env), 0, |env.text|, at)
    ensures if at >= -1 then Leftmost(c.tree, env, at) else (at == -2 || at == OVERRAN) && Arises(c, env, at)
  {
    hide Spans, Sound, WellFormed, MatchesFrom, Missed, ResultAt;
    if at >= -1 {
      var end: nat := if at == -1 then |env.text| + 1 else at;
      assert MissedTo(c.tree, env, Results(c, env), 0, end);
      forall i: nat | i < end ensures !MatchesFrom(c.tree, env, i) { MissedHasNone(c, env, i); }
      if at >= 0 { FoundMatches(c, env, at); }
      forall i: nat | i > |env.text| ensures !MatchesFrom(c.tree, env, i) { InText(c.tree, env, i); }
    }
  }

  lemma {:induction false} LeftmostAlike(s: Re, t: Re, env: Env, at: int)
    requires Alike(s, t, env) && Leftmost(s, env, at)
    ensures Leftmost(t, env, at)
  {
    hide Spans, Alike;
    forall i: nat ensures MatchesFrom(s, env, i) <==> MatchesFrom(t, env, i) { MatchesAlike(s, t, env, i); }
  }

  lemma {:induction false} MatchesAlike(s: Re, t: Re, env: Env, i: nat)
    requires Alike(s, t, env)
    ensures MatchesFrom(s, env, i) <==> MatchesFrom(t, env, i)
  {
    hide Spans;
    if j: nat :| Spans(s, env, i, j) { assert Spans(t, env, i, j); }
    if j: nat :| Spans(t, env, i, j) { assert Spans(s, env, i, j); }
  }

  // ---- The two ways to search ----

  // What a search for a pattern gives: the leftmost match of what the pattern stands for; or -2 where the
  // failure stack overflows, or nothing where it is overrun.  It is overrun only if a push strays, and overflows
  // only then or on a text without room for every fork; and where the registers stay in step no push strays.
  ghost predicate Searched(r: G.Alts, c: Compiled, env: Env, at: int)
    requires WellFormed(c.tree)
  {
    && (at == OVERRAN || at == -2 || Leftmost(G.Meaning(r), env, at))
    && (at == OVERRAN ==> Astray(c, env))
    && (at == -2 ==> Arises(c, env, -2) && (RoomyText(c, env) ==> Astray(c, env)))
    && (Open.Tame(c.tree) ==> !Astray(c, env))
  }

  lemma {:induction false} SearchedPattern(r: G.Alts, c: Compiled, env: Env, at: int)
    requires Sound(c) && WellFormed(c.tree) && Alike(c.tree, G.Meaning(r), env)
    requires Found(c.tree, env, Results(c, env), 0, |env.text|, at)
    ensures Searched(r, c, env, at)
  {
    hide Sound, WellFormed, Alike, Found, Leftmost, Arises, Astray, RoomyText, Open.Tame;
    SearchIsLeftmost(c, env, at);
    RoomAnywhere(c, env);
    if at >= -1 { LeftmostAlike(c.tree, G.Meaning(r), env, at); }
  }

  // regcomp, then regexec, which uses no fastmap.
  method RegExec(ghost r: G.Alts, pat: seq<byte>, env: Env, steps: nat) returns (at: int)
    requires G.Spellable(r) && G.SimplePattern(r) && pat == G.ShowAlts(r) && Engine.Reachable(pat)
    requires steps >= Terminate.Enough(Parse(pat).value.tree, env)
    ensures WellFormed(Parse(pat).value.tree) && Searched(r, Parse(pat).value, env, at)
  {
    hide *;
    ghost var c := PatternSound(r, env);
    CompiledTree(pat, c);
    var program, groups := Compile(pat, c);
    SoundIsWellFormed(c);
    ResultsGiven(c, env, steps);
    Rewrite.FreshIsVariant(Emit(c.tree), c.tree);
    at := ReSearch2(program, null, false, env, groups, 0, |env.text|, steps, c.tree, Results(c, env));
    SearchedPattern(r, c, env, at);
  }

  // The same with a fastmap; its analysis may give up, with -2 as well, on code of more than 6000 bytes.
  // The byte beyond the program counts only where the last alternative is empty.
  method FastExec(ghost r: G.Alts, pat: seq<byte>, env: Env, steps: nat, beyond: byte) returns (at: int)
    requires G.Spellable(r) && G.SimplePattern(r) && pat == G.ShowAlts(r) && Engine.Reachable(pat)
    requires steps >= Terminate.Enough(Parse(pat).value.tree, env)
    requires First.LastEmpty(Parse(pat).value.tree) ==> !Fastmap.HeadLike(beyond)
    ensures WellFormed(Parse(pat).value.tree)
    ensures Searched(r, Parse(pat).value, env, at)
      || (at == -2 && Len(Parse(pat).value.tree) > 6000)
  {
    hide *;
    ghost var c := PatternSound(r, env);
    CompiledTree(pat, c);
    var program, groups := Compile(pat, c);
    SoundIsWellFormed(c);
    ResultsGiven(c, env, steps);
    at := FirstSearch(program, beyond, env, groups, 0, |env.text|, steps, c.tree, Results(c, env));
    if Found(c.tree, env, Results(c, env), 0, |env.text|, at) { SearchedPattern(r, c, env, at); }
  }

  lemma {:induction false} CompiledTree(pat: seq<byte>, c: Compiled)
    requires Parse(pat) == Ok(c) && Sound(c)
    ensures Parse(pat).Ok? && Parse(pat).value == c && WellFormed(c.tree) && Len(c.tree) <= MAX_REACH
    ensures First.Chain(c.tree)
  {
    hide Parse;
  }

  // regcomp
  method Compile(pat: seq<byte>, ghost c: Compiled) returns (program: array<byte>, groups: nat)
    requires Parse(pat) == Ok(c) && WellFormed(c.tree)
    ensures fresh(program) && program[..] == Emit(c.tree) && groups == c.groups
  {
    hide Parse, Emit, WellFormed;
    var err, buffer, used, g := Compiler.RegexCompile(pat);
    groups := g;
    program := new byte[used](i requires 0 <= i < used <= buffer.Length reads buffer => buffer[i]);
    assert program[..] == buffer[..used];
  }
}
