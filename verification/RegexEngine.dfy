// The engine as a whole: from the pattern a user writes to the answer of a match.
module RegexEngine {
  import opened Bytes
  import opened RegexTree
  import opened RegexCode
  import opened RegexBracket
  import opened RegexParse
  import opened Wrappers
  import Assembly = RegexAssembly
  import opened RegexCompiler
  import opened RegexReading
  import Paths = RegexPaths
  import opened RegexRoles
  import Machine = RegexMachine
  import Sound = RegexSound
  import Complete = RegexComplete
  import Terminate = RegexTerminate
  import Rewrite = RegexRewrite
  import Matcher = RegexMatcher
  import G = RegexGrammar
  import Open = RegexOpen
  import Registers = RegexRegisters
  import InTame = RegexTame

  // ---- How long the code can get ----

  // No construct, however short, takes more room than a bracket expression: 34 bytes.
  const MOST_PER_CHAR := 34

  lemma {:induction false} TreeLen(alts: seq<Re>, cur: Re)
    ensures Len(Tree(alts, cur)) == AltsLen(alts) + Len(cur)
    decreases |alts|
  {
    if alts != [] {
      var n := |alts| - 1;
      assert alts[..n] + [alts[n]] == alts;
      Assembly.TreeBack(alts[..n], alts[n], cur);
      TreeLen(alts[..n], Alt(alts[n], cur));
    }
  }

  lemma {:induction false} CloseUsed(st: PState)
    requires st.stack != []
    ensures Used(CloseGroup(st)) <= Used(st) + 4
  {
    hide Tree;
    var n := |st.stack| - 1;
    var s, t := st.stack[n], Tree(st.level.alts, Current(st.level));
    TreeLen(st.level.alts, Current(st.level));
    var inner := if st.regnum >= s.reg then st.regnum - s.reg else 0;
    assert Len(Group(s.reg, inner, t)) == 2 * GroupOpen(s.reg) + Len(t) + GroupDummy(t);
    assert Base(st.stack) == Base(st.stack[..n]) + AltsLen(s.alts) + Len(s.cur) + GroupOpen(s.reg);
  }

  lemma {:induction false} AttachLen(l: Level, x: Re)
    ensures Len(Current(Attach(l, x))) == Len(Current(l)) + Len(x) && Attach(l, x).alts == l.alts
  {
    match l.last
    case None => assert Len(Cat(l.before, x)) == Len(l.before) + Len(x);
    case Some(y) =>
      assert Len(Cat(y, x)) == Len(y) + Len(x);
      assert Len(Cat(l.before, Cat(y, x))) == Len(l.before) + Len(Cat(y, x));
  }

  lemma {:induction false} AddCharLen(l: Level, c: byte, alone: bool)
    ensures Len(Current(AddChar(l, c, alone))) <= Len(Current(l)) + 3 && AddChar(l, c, alone).alts == l.alts
  {
    assert Len(Lit([c])) == 3;
  }

  lemma {:induction false} LoopLen(l: Level, zero: bool, many: bool)
    requires l.last.Some?
    ensures var l' := l.(last := Some(Looped(l.last.value, zero, many)), run := false);
      Len(Current(l')) <= Len(Current(l)) + 9
  {
  }

  lemma {:induction false} ShiftUsed(st: PState, tok: Token)
    requires tok != Illegal(ESize) && tok != BadBracket(ESize)
    ensures Used(st) + MOST_PER_CHAR <= MAX_BUF_SIZE ==> Shift(st, tok) != Err(ESize)
    ensures Shift(st, tok).Ok? ==> Used(Shift(st, tok).value) <= Used(st) + MOST_PER_CHAR
  {
    hide Base, AltsLen, Attach, AddChar, CloseGroup, Looped, MapOf, Trimmed, Current;
    var l := st.level;
    match tok
    case Char(c, alone) => AddCharLen(l, c, alone);
    case Dot => BeginLen(l, Any, false);
    case Bracket(neg, ranges) => SetLen(l, neg, ranges);
    case Hat => AttachLen(l, Bol);
    case Dollar => AttachLen(l, Eol);
    case Repeat(zero, many) => if l.last.Some? { LoopLen(l, zero, many); }
    case Open => OpenUsed(st);
    case Close(alone) =>
      if st.stack == [] {
        AttachLen(l, Dummy);
        AddCharLen(Unmatched(l), RIGHT_PAREN, alone);
      } else {
        CloseUsed(st);
      }
    case Bar => BarUsed(st);
    case _ =>
  }

  lemma {:induction false} BeginLen(l: Level, x: Re, run: bool)
    ensures Len(Current(Begin(l, x, run))) == Len(Current(l)) + Len(x)
  {
  }

  lemma {:induction false} SetLen(l: Level, neg: bool, ranges: seq<Range>)
    ensures Len(Current(Begin(l, Set(neg, Trimmed(MapOf(ranges))), false))) <= Len(Current(l)) + 34
  {
    hide MapOf, Trimmed;
    BeginLen(l, Set(neg, Trimmed(MapOf(ranges))), false);
  }

  lemma {:induction false} OpenUsed(st: PState)
    ensures Used(PState(st.stack + [Saved(st.level.alts, Current(st.level), st.regnum + 1)], EMPTY, st.regnum
      + 1)) <= Used(st) + 3
  {
    hide Base;
    Assembly.BaseAppend(st.stack, Saved(st.level.alts, Current(st.level), st.regnum + 1));
  }

  lemma {:induction false} BarUsed(st: PState)
    ensures Used(st.(level := Level(st.level.alts + [Current(st.level)], Eps, None, false))) == Used(st) + 6
  {
    hide Base;
    Assembly.AltsLenAppend(st.level.alts, Current(st.level));
    assert Current(Level(st.level.alts + [Current(st.level)], Eps, None, false)) == Eps;
  }

  // The size error comes from the buffer only.
  lemma {:induction false} MembersError(pat: seq<byte>, p: nat, first: nat, ranges: seq<Range>)
    ensures Members(pat, p, first, ranges) != Err(ESize)
    decreases |pat| - p
  {
    hide RangeOperator;
    if p < |pat| {
      var here := Range(pat[p], pat[p]);
      MembersError(pat, p + 1, first, ranges + [here]);
      if RangeAt(pat, p + 1).Ok? { MembersError(pat, p + 2, first, ranges + [RangeAt(pat, p + 1).value]); }
      if RangeAt(pat, p + 2).Ok? { MembersError(pat, p + 3, first, ranges + [RangeAt(pat, p + 2).value]); }
    }
  }

  lemma {:induction false} LexError(pat: seq<byte>, p: nat)
    requires p < |pat|
    ensures Lex(pat, p).0 != Illegal(ESize) && Lex(pat, p).0 != BadBracket(ESize)
  {
    hide Members, RepeatsFrom, AloneAt;
    if pat[p] == LEFT_BRACKET && p + 1 < |pat| {
      var first := if pat[p + 1] == HAT then p + 2 else p + 1;
      MembersError(pat, first, first, []);
    }
  }

  lemma {:induction false} ParseUsed(pat: seq<byte>, p: nat, st: PState)
    ensures var c := ParseFrom(pat, p, st);
      && (p <= |pat| && Used(st) + MOST_PER_CHAR * (|pat| - p) <= MAX_BUF_SIZE ==> c != Err(ESize))
      && (p <= |pat| && c.Ok? ==> Len(c.value.tree) <= Used(st) + MOST_PER_CHAR * (|pat| - p))
    decreases |pat| - p
  {
    hide Used, Lex, Shift, ParseFrom;
    if p >= |pat| {
      ParseEnds(pat, p, st);
      if st.stack == [] { FinishLen(st); }
    } else {
      var (tok, q) := Lex(pat, p);
      LexError(pat, p);
      ParseSteps(pat, p, st);
      ShiftUsed(st, tok);
      LexWithin(pat, p);
      if Shift(st, tok).Ok? { ParseUsed(pat, q, Shift(st, tok).value); }
    }
  }

  lemma {:induction false} FinishLen(st: PState)
    requires st.stack == []
    ensures Len(Tree(st.level.alts, Current(st.level))) == Used(st)
  {
    hide Current;
    TreeLen(st.level.alts, Current(st.level));
  }

  // A construct that is read ends inside the pattern.
  lemma {:induction false} LexWithin(pat: seq<byte>, p: nat)
    requires p < |pat|
    ensures p < Lex(pat, p).1 <= |pat|
  {
    hide Members, AloneAt;
    if IsRepeat(pat[p]) { RepeatsWithin(pat, p + 1, pat[p] != PLUS, pat[p] != QUESTION); }
  }

  lemma {:induction false} RepeatsWithin(pat: seq<byte>, p: nat, zero: bool, many: bool)
    requires p <= |pat|
    ensures RepeatsFrom(pat, p, zero, many).1 <= |pat|
    decreases |pat| - p
  {
    if p < |pat| && IsRepeat(pat[p]) { RepeatsWithin(pat, p + 1, zero || pat[p] != PLUS, many || pat[p] != QUESTION); }
  }

  // Any pattern of up to 1927 characters fits the buffer, and its code is at most 34 bytes a character.
  lemma {:induction false} ShortPatternsFit(pat: seq<byte>)
    ensures MOST_PER_CHAR * |pat| <= 65536 ==> Parse(pat) != Err(ESize)
    ensures Parse(pat).Ok? ==> Len(Parse(pat).value.tree) <= MOST_PER_CHAR * |pat|
  {
    hide ParseFrom;
    ParseUsed(pat, 0, START);
  }

  // ---- From the pattern to its meaning ----

  // The pattern compiles, and all of its code is within reach of a relative jump.
  predicate Reachable(pat: seq<byte>) {
    Parse(pat).Ok? && Len(Parse(pat).value.tree) <= MAX_REACH
  }

  // A spelled pattern fails to compile for want of buffer space only, and one of up to 963 characters is in
  // reach whatever it says.
  lemma {:induction false} SpelledReachable(r: G.Alts, env: Env)
    requires G.Spellable(r)
    ensures Parse(G.ShowAlts(r)).Ok? || Parse(G.ShowAlts(r)) == Err(ESize)
    ensures MOST_PER_CHAR * |G.ShowAlts(r)| <= MAX_REACH ==> Reachable(G.ShowAlts(r))
  {
    hide Parse, Alike, WellFormed, Simple, Len;
    SpelledPatternReads(r, env);
    ShortPatternsFit(G.ShowAlts(r));
  }

  lemma {:induction false} PatternTree(r: G.Alts, env: Env) returns (c: Compiled)
    requires G.Spellable(r) && Reachable(G.ShowAlts(r))
    ensures Parse(G.ShowAlts(r)) == Ok(c) && WellFormed(c.tree) && Len(c.tree) <= MAX_REACH
    ensures Alike(c.tree, G.Meaning(r), env) && (G.SimplePattern(r) ==> Simple(c.tree))
    ensures Open.RegsWithin(c.tree, c.groups) && (Open.Tame(c.tree) ==> Registers.InStep(c.tree, c.groups))
  {
    hide Parse, Alike, WellFormed, Simple, Len, Open.Tame, Open.RegsWithin, Registers.InStep;
    SpelledPatternReads(r, env);
    InTame.CompiledInStep(G.ShowAlts(r));
    c := Parse(G.ShowAlts(r)).value;
  }

  // Compiler correctness: the paths through the emitted program spell exactly what the pattern stands for.
  lemma {:induction false} PathsSpellPattern(r: G.Alts, env: Env, i: nat, j: nat)
    requires G.Spellable(r) && Reachable(G.ShowAlts(r)) && i <= |env.text|
    ensures var c := Parse(G.ShowAlts(r));
      && c.Ok? && WellFormed(c.value.tree)
      && (Paths.Leads(Emit(c.value.tree), env, 0, i, Len(c.value.tree), j) <==> Spans(G.Meaning(r), env, i, j))
  {
    hide Parse, WellFormed, Simple, Len, Emit, Spans, Paths.Leads;
    var c := PatternTree(r, env);
    Paths.PathsSpellTree(c.tree, env, i, j);
    assert Spans(c.tree, env, i, j) <==> Spans(G.Meaning(r), env, i, j);
  }

  // Decides speaks of matches only, so it carries over to trees that match alike.
  lemma {:induction false} DecidesAlike(s: Re, t: Re, cfg: Machine.Config, r: int)
    requires Alike(s, t, cfg.env) && Complete.Decides(s, cfg, r)
    ensures Complete.Decides(t, cfg, r)
  {
    hide Spans;
    if r >= 0 {
      var e: nat :| Spans(s, cfg.env, cfg.pos, e);
      assert Spans(t, cfg.env, cfg.pos, e);
    }
    if e: nat :| Spans(t, cfg.env, cfg.pos, e) { assert Spans(s, cfg.env, cfg.pos, e); }
    assert Spans(s, cfg.env, cfg.pos, |cfg.env.text|) <==> Spans(t, cfg.env, cfg.pos, |cfg.env.text|);
  }

  // ---- Compiling and matching ----

  // regcomp, then re_match_2 from pos with at most `steps' commands, for a pattern as it is spelled.
  method MatchPattern(ghost r: G.Alts, pat: seq<byte>, env: Env, pos: nat, steps: nat) returns (a: Matcher.Answer)
    requires G.Spellable(r) && pat == G.ShowAlts(r) && Reachable(pat)
    ensures Parse(pat).Ok?
    // a length returned is a stretch the pattern stands for
    ensures a.Answered? && a.value >= 0 ==> Spans(G.Meaning(r), env, pos, pos + a.value)
    // a push goes past the end of the failure stack only where one strays, never where the registers stay in step
    ensures var c := Parse(pat).value;
      && WellFormed(c.tree)
      && (a.Overran? ==> Registers.Strayed(Emit(c.tree), Machine.Config(env, pos, c.groups), steps))
      && (a.Overran? ==> !Open.Tame(c.tree))
    // where loops repeat one character and the failure stack does not overflow, enough steps give an
    // answer that tells whether anything matches, and whether the whole rest does
    ensures var t := Parse(pat).value.tree;
      G.SimplePattern(r) && pos <= |env.text| && steps >= Terminate.Enough(t, env) && !a.Overran? ==>
        a.Answered? && Complete.Final(G.Meaning(r), Machine.Config(env, pos, Parse(pat).value.groups), a.value)
  {
    hide *;
    ghost var c := PatternTree(r, env);
    CompiledOk(pat, c);
    var err, buffer, used, groups := RegexCompile(pat);
    var program := new byte[used](i requires 0 <= i < used <= buffer.Length reads buffer => buffer[i]);
    var cfg := Machine.Config(env, pos, groups);
    assert program[..] == buffer[..used];
    FreshVariant(c.tree);
    a := Matcher.ReMatch2(program, cfg, c.tree, steps);
    Registers.OverrunStrays(Emit(c.tree), cfg, steps);
    if a.Overran? { Overrunning(Emit(c.tree), cfg, steps, a); }
    Carried(r, c, cfg, steps, a);
  }

  lemma {:induction false} Overrunning(code: seq<byte>, cfg: Machine.Config, steps: nat, a: Matcher.Answer)
    requires Matcher.Gives(Machine.Match(code, cfg, steps), a) && a.Overran?
    ensures Machine.Match(code, cfg, steps) == Machine.Overrun
  {
    hide Machine.Match;
  }

  lemma {:induction false} CompiledOk(pat: seq<byte>, c: Compiled)
    requires Parse(pat) == Ok(c)
    ensures Parse(pat).Ok? && Parse(pat).value == c
  {
    hide Parse;
  }

  lemma {:induction false} FreshVariant(t: Re)
    requires WellFormed(t) && Len(t) <= MAX_REACH
    ensures Rewrite.Variant(Emit(t), t, Emit(t))
  {
    hide Emit, Len;
    Rewrite.AfterIsVariant(t, []);
  }

  lemma {:induction false} Carried(r: G.Alts, c: Compiled, cfg: Machine.Config, steps: nat, a: Matcher.Answer)
    requires Alike(c.tree, G.Meaning(r), cfg.env) && (G.SimplePattern(r) ==> Simple(c.tree))
    requires a.Answered? && a.value >= 0 ==> Spans(c.tree, cfg.env, cfg.pos, cfg.pos + a.value)
    requires Simple(c.tree) && steps >= Terminate.Enough(c.tree, cfg.env) && cfg.pos <= |cfg.env.text| ==>
      a.Overran? || (a.Answered? && Complete.Final(c.tree, cfg, a.value))
    ensures a.Answered? && a.value >= 0 ==> Spans(G.Meaning(r), cfg.env, cfg.pos, cfg.pos + a.value)
    ensures G.SimplePattern(r) && cfg.pos <= |cfg.env.text| && steps >= Terminate.Enough(c.tree, cfg.env) ==>
      a.Overran? || (a.Answered? && Complete.Final(G.Meaning(r), cfg, a.value))
  {
    hide Spans, Simple, Terminate.Enough, Complete.Decides;
    if a.Answered? && Complete.Decides(c.tree, cfg, a.value) { DecidesAlike(c.tree, G.Meaning(r), cfg, a.value); }
  }
}
