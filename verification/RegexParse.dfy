// regex_compile as a shift-reduce parser: what each construct of a pattern does to the expression
// built so far, under RE_SYNTAX_POSIX_EXTENDED.
module RegexParse {
  import opened Bytes
  import opened RegexTree
  import opened RegexCode
  import opened RegexBracket
  import opened Wrappers

  const STAR: byte := 42
  const PLUS: byte := 43
  const QUESTION: byte := 63
  const HAT: byte := 94
  const DOLLAR: byte := 36
  const DOT: byte := 46
  const LEFT_BRACKET: byte := 91
  const RIGHT_BRACKET: byte := 93
  const LEFT_PAREN: byte := 40
  const RIGHT_PAREN: byte := 41
  const BAR: byte := 124
  const LEFT_BRACE: byte := 123
  const BACKSLASH: byte := 92
  const HYPHEN: byte := 45
  const COLON: byte := 58

  // Unsupported stands for the constructs outside this model.
  datatype Error = EEscape | EBracket | ERange | EParen | ESize | Unsupported

  datatype Result<T> = Ok(value: T) | Err(error: Error)

  // ---- Lexical structure ----

  // `alone' tells that the next character is a repetition, `^' or `{': the literal then starts a
  // run of its own.
  datatype Token =
    | Char(c: byte, alone: bool)
    | Dot
    | Bracket(neg: bool, ranges: seq<Range>)
    | BadBracket(error: Error)
    | Repeat(zero: bool, many: bool)
    | Hat
    | Dollar
    | Open
    | Close(alone: bool)
    | Bar
    | Illegal(error: Error)

  // Patterns end with a null character, which is what a look-ahead past the end sees.
  predicate AloneAt(pat: seq<byte>, p: nat) {
    var c := At(pat, p);
    c == STAR || c == HAT || c == PLUS || c == QUESTION || c == LEFT_BRACE
  }

  predicate IsRepeat(c: byte) {
    c == STAR || c == PLUS || c == QUESTION
  }

  // \w \W \< \> \b \B \` \' and the back references \1 ... \9
  predicate SpecialEscape(c: byte) {
    c == 119 || c == 87 || c == 60 || c == 62 || c == 98 || c == 66 || c == 96 || c == 39 || 49 <= c <= 57
  }

  // A run of repetition characters from p on collapses to one repetition.
  function RepeatsFrom(pat: seq<byte>, p: nat, zero: bool, many: bool): (r: (Token, nat))
    ensures r.1 >= p && r.0.Repeat?
    decreases |pat| - p
  {
    if p < |pat| && IsRepeat(pat[p]) then
      RepeatsFrom(pat, p + 1, zero || pat[p] != PLUS, many || pat[p] != QUESTION)
    else (Repeat(zero, many), p)
  }

  // compile_range with the end character expected at p.
  function RangeAt(pat: seq<byte>, p: nat): Result<Range> {
    if p >= |pat| then Err(ERange)
    else
      var lo, hi := At(pat, p - 2), pat[p];
      if lo > hi then Err(ERange) else Ok(Range(lo, hi))
  }

  // A hyphen at p that continues a range: not right after the bracket opens, not before its end.
  predicate RangeOperator(pat: seq<byte>, p: nat) {
    At(pat, p) == HYPHEN && At(pat, p - 1) != LEFT_BRACKET
    && !(At(pat, p - 2) == LEFT_BRACKET && At(pat, p - 1) == HAT)
    && At(pat, p + 1) != RIGHT_BRACKET
  }

  // The members of a bracket expression from p on, whose first member is at `first'; ends after
  // the closing bracket.
  function Members(pat: seq<byte>, p: nat, first: nat, ranges: seq<Range>): (r: Result<(seq<Range>, nat)>)
    ensures r.Ok? ==> p < r.value.1 <= |pat|
    decreases |pat| - p
  {
    if p >= |pat| then Err(EBracket)
    else if pat[p] == RIGHT_BRACKET && p != first then Ok((ranges, p + 1))
    else if RangeOperator(pat, p) then
      match RangeAt(pat, p + 1)
      case Err(e) => Err(e)
      case Ok(r) => Members(pat, p + 2, first, ranges + [r])
    else if At(pat, p + 1) == HYPHEN && At(pat, p + 2) != RIGHT_BRACKET then
      match RangeAt(pat, p + 2)
      case Err(e) => Err(e)
      case Ok(r) => Members(pat, p + 3, first, ranges + [r])
    else if pat[p] == LEFT_BRACKET && At(pat, p + 1) == COLON then Err(Unsupported)
    else Members(pat, p + 1, first, ranges + [Range(pat[p], pat[p])])
  }

  // The bracket expression whose `[' is just before p.
  function BracketAt(pat: seq<byte>, p: nat): (r: (Token, nat))
    ensures r.1 >= p
  {
    if p >= |pat| then (Illegal(EBracket), p)
    else
      var neg := pat[p] == HAT;
      var first := if neg then p + 1 else p;
      match Members(pat, first, first, [])
      case Err(e) => (BadBracket(e), p)
      case Ok(r) => (Bracket(neg, r.0), r.1)
  }

  function EscapeAt(pat: seq<byte>, p: nat): (r: (Token, nat))
    ensures r.1 >= p
  {
    if p >= |pat| then (Illegal(EEscape), p)
    else if SpecialEscape(pat[p]) then (Illegal(Unsupported), p)
    else (Char(pat[p], AloneAt(pat, p + 1)), p + 1)
  }

  // The construct at p, and where the next one starts.
  function Lex(pat: seq<byte>, p: nat): (r: (Token, nat))
    requires p < |pat|
    ensures r.1 > p
  {
    var c := pat[p];
    if c == HAT then (Hat, p + 1)
    else if c == DOLLAR then (Dollar, p + 1)
    else if IsRepeat(c) then RepeatsFrom(pat, p + 1, c != PLUS, c != QUESTION)
    else if c == DOT then (Dot, p + 1)
    else if c == LEFT_BRACKET then BracketAt(pat, p + 1)
    else if c == LEFT_PAREN then (Open, p + 1)
    else if c == RIGHT_PAREN then (Close(AloneAt(pat, p + 1)), p + 1)
    else if c == BAR then (Bar, p + 1)
    else if c == LEFT_BRACE then (Illegal(Unsupported), p + 1)
    else if c == BACKSLASH then EscapeAt(pat, p + 1)
    else (Char(c, AloneAt(pat, p + 1)), p + 1)
  }

  // ---- The expression built so far ----

  // One group, or the whole pattern: its finished alternatives, and the current one, split where a
  // repetition would take hold (laststart).  `run' tells that a literal may still be extended.
  datatype Level = Level(alts: seq<Re>, before: Re, last: Option<Re>, run: bool)

  // A level set aside while a group inside it is read.
  datatype Saved = Saved(alts: seq<Re>, cur: Re, reg: nat)

  datatype PState = PState(stack: seq<Saved>, level: Level, regnum: nat)

  const EMPTY := Level([], Eps, None, false)

  function Current(l: Level): Re {
    match l.last
    case None => l.before
    case Some(x) => Cat(l.before, x)
  }

  function Tree(alts: seq<Re>, cur: Re): Re {
    if alts == [] then cur else Alt(alts[0], Tree(alts[1..], cur))
  }

  // The code of finished alternatives, each with the two jumps around it.
  function AltsLen(alts: seq<Re>): nat {
    if alts == [] then 0 else AltsLen(alts[..|alts| - 1]) + 6 + Len(alts[|alts| - 1])
  }

  function Base(stack: seq<Saved>): nat {
    if stack == [] then 0
    else
      var s := stack[|stack| - 1];
      Base(stack[..|stack| - 1]) + AltsLen(s.alts) + Len(s.cur) + GroupOpen(s.reg)
  }

  // Bytes of code written so far.
  function Used(st: PState): nat {
    Base(st.stack) + AltsLen(st.level.alts) + Len(Current(st.level))
  }

  const MAX_BUF_SIZE := 65536

  // st' unless the buffer would have to pass its maximal size.
  function Fitting(st: PState, extra: nat, st': PState): Result<PState> {
    if Used(st) + extra <= MAX_BUF_SIZE then Ok(st') else Err(ESize)
  }

  // A new expression for repetitions to take hold of.
  function Begin(l: Level, x: Re, run: bool): Level {
    Level(l.alts, Current(l), Some(x), run)
  }

  // Something after which repetitions still take hold of the expression before.
  function Attach(l: Level, x: Re): Level {
    match l.last
    case None => l.(before := Cat(l.before, x), run := false)
    case Some(y) => l.(last := Some(Cat(y, x)), run := false)
  }

  // The literal run that may take one more character.
  predicate Extends(l: Level, alone: bool) {
    l.run && !alone && l.last.Some? && l.last.value.Lit? && |l.last.value.chars| < 255
  }

  function AddChar(l: Level, c: byte, alone: bool): Level {
    if Extends(l, alone) then l.(last := Some(Lit(l.last.value.chars + [c])))
    else Begin(l, Lit([c]), true)
  }

  function CharSpace(l: Level, alone: bool): nat {
    if Extends(l, alone) then 1 else 3
  }

  function Looped(x: Re, zero: bool, many: bool): Re {
    if zero && many then Star(x) else if many then Plus(x) else Opt(x)
  }

  function LoopSpace(zero: bool, many: bool): nat {
    3 + (if many then 3 else 0) + (if zero then 0 else 3)
  }

  function CloseGroup(st: PState): PState
    requires st.stack != []
  {
    var s := st.stack[|st.stack| - 1];
    var inner := if st.regnum >= s.reg then st.regnum - s.reg else 0;
    var g := Group(s.reg, inner, Tree(st.level.alts, Current(st.level)));
    PState(st.stack[..|st.stack| - 1], Level(s.alts, s.cur, Some(g), false), st.regnum)
  }

  function DummySpace(l: Level): nat {
    if l.alts == [] then 0 else 1
  }

  // A `)' without its `(' is a literal; after alternatives a failure point is left behind first.
  function Unmatched(l: Level): Level {
    if l.alts == [] then l else Attach(l, Dummy)
  }

  function Shift(st: PState, tok: Token): Result<PState> {
    var l := st.level;
    match tok
    case Char(c, alone) => Fitting(st, CharSpace(l, alone), st.(level := AddChar(l, c, alone)))
    case Dot => Fitting(st, 1, st.(level := Begin(l, Any, false)))
    case Bracket(neg, ranges) => Fitting(st, 34, st.(level := Begin(l, Set(neg, Trimmed(MapOf(ranges))), false)))
    case BadBracket(e) => if Used(st) + 34 <= MAX_BUF_SIZE then Err(e) else Err(ESize)
    case Repeat(zero, many) =>
      (match l.last
       case None => Ok(st)
       case Some(x) => Fitting(st, LoopSpace(zero, many),
         st.(level := l.(last := Some(Looped(x, zero, many)), run := false))))
    case Hat => Fitting(st, 1, st.(level := Attach(l, Bol)))
    case Dollar => Fitting(st, 1, st.(level := Attach(l, Eol)))
    case Open =>
      var reg := st.regnum + 1;
      Fitting(st, GroupOpen(reg), PState(st.stack + [Saved(l.alts, Current(l), reg)], EMPTY, reg))
    case Close(alone) =>
      if st.stack == [] then
        var l' := Unmatched(l);
        Fitting(st, DummySpace(l) + CharSpace(l', alone), st.(level := AddChar(l', RIGHT_PAREN, alone)))
      else
        Fitting(st, DummySpace(l) + GroupOpen(st.stack[|st.stack| - 1].reg), CloseGroup(st))
    case Bar => Fitting(st, 6, st.(level := Level(l.alts + [Current(l)], Eps, None, false)))
    case Illegal(e) => Err(e)
  }

  // ---- Whole patterns ----

  datatype Compiled = Compiled(tree: Re, groups: nat)

  function Finish(st: PState): Result<Compiled> {
    if st.stack == [] then Ok(Compiled(Tree(st.level.alts, Current(st.level)), st.regnum)) else Err(EParen)
  }

  function ParseFrom(pat: seq<byte>, p: nat, st: PState): Result<Compiled>
    decreases |pat| - p
  {
    if p >= |pat| then Finish(st)
    else
      var (tok, p') := Lex(pat, p);
      match Shift(st, tok)
      case Err(e) => Err(e)
      case Ok(st') => ParseFrom(pat, p', st')
  }

  const START := PState([], EMPTY, 0)

  function Parse(pat: seq<byte>): Result<Compiled> {
    ParseFrom(pat, 0, START)
  }

  // One construct of the pattern: the expression after it, and where the next one starts.
  function StepAt(pat: seq<byte>, p: nat, st: PState): Result<(PState, nat)>
    requires p < |pat|
  {
    var (tok, q) := Lex(pat, p);
    match Shift(st, tok)
    case Err(e) => Err(e)
    case Ok(st') => Ok((st', q))
  }

  lemma {:induction false} ParseSteps(pat: seq<byte>, p: nat, st: PState)
    requires p < |pat|
    ensures match StepAt(pat, p, st)
      case Err(e) => ParseFrom(pat, p, st) == Err(e)
      case Ok(r) => r.1 > p && ParseFrom(pat, p, st) == ParseFrom(pat, r.1, r.0)
  {
    hide Shift, Lex;
  }

  lemma {:induction false} ParseEnds(pat: seq<byte>, p: nat, st: PState)
    requires p >= |pat|
    ensures ParseFrom(pat, p, st) == Finish(st)
  {
    hide Shift, Lex;
  }

  // ---- What every state keeps ----

  predicate GoodAlts(alts: seq<Re>) {
    forall i :: 0 <= i < |alts| ==> WellFormed(alts[i])
  }

  predicate GoodLevel(l: Level) {
    GoodAlts(l.alts) && WellFormed(l.before) && !l.before.Alt? && (l.last.Some? ==> WellFormed(l.last.value))
    && (l.run ==> l.last.Some? && l.last.value.Lit?)
  }

  predicate GoodSaved(s: Saved, regnum: nat) {
    GoodAlts(s.alts) && WellFormed(s.cur) && !s.cur.Alt? && 1 <= s.reg <= regnum
  }

  predicate Good(st: PState) {
    GoodLevel(st.level) && forall i :: 0 <= i < |st.stack| ==> GoodSaved(st.stack[i], st.regnum)
  }

  lemma {:induction false} TreeWellFormed(alts: seq<Re>, cur: Re)
    requires GoodAlts(alts) && WellFormed(cur)
    ensures WellFormed(Tree(alts, cur))
  {
    if alts != [] {
      TreeWellFormed(alts[1..], cur);
    }
  }

  lemma {:induction false} ShiftGood(st: PState, tok: Token)
    requires Good(st) && Shift(st, tok).Ok?
    ensures Good(Shift(st, tok).value)
  {
    hide Used, MapOf, Trimmed, Tree, Base, Attach, AddChar;
    match tok
    case Open =>
    case Bracket(neg, ranges) =>
      assert |Trimmed(MapOf(ranges))| <= 32;
    case Close(alone) =>
      if st.stack != [] {
        CloseGood(st);
      } else {
        AttachGood(st.level, Dummy);
        AddCharGood(Unmatched(st.level), RIGHT_PAREN, alone);
      }
    case Char(c, alone) => AddCharGood(st.level, c, alone);
    case Hat => AttachGood(st.level, Bol);
    case Dollar => AttachGood(st.level, Eol);
    case _ =>
  }

  lemma {:induction false} AttachGood(l: Level, x: Re)
    requires GoodLevel(l) && WellFormed(x)
    ensures GoodLevel(Attach(l, x))
  {
  }

  lemma {:induction false} AddCharGood(l: Level, c: byte, alone: bool)
    requires GoodLevel(l)
    ensures GoodLevel(AddChar(l, c, alone))
  {
  }

  lemma {:induction false} CloseGood(st: PState)
    requires Good(st) && st.stack != []
    ensures Good(CloseGroup(st))
  {
    hide Tree;
    var s, st' := st.stack[|st.stack| - 1], CloseGroup(st);
    assert GoodSaved(s, st.regnum);
    TreeWellFormed(st.level.alts, Current(st.level));
    forall i | 0 <= i < |st'.stack| ensures GoodSaved(st'.stack[i], st'.regnum) {
      assert st'.stack[i] == st.stack[i];
    }
  }

  lemma {:induction false} ParseFromGood(pat: seq<byte>, p: nat, st: PState)
    requires Good(st) && ParseFrom(pat, p, st).Ok?
    ensures WellFormed(ParseFrom(pat, p, st).value.tree)
    decreases |pat| - p
  {
    hide Shift, Lex, Good;
    if p >= |pat| {
      FinishGood(st);
    } else {
      var (tok, p') := Lex(pat, p);
      ShiftGood(st, tok);
      ParseFromGood(pat, p', Shift(st, tok).value);
    }
  }

  lemma {:induction false} FinishGood(st: PState)
    requires Good(st) && Finish(st).Ok?
    ensures WellFormed(Finish(st).value.tree)
  {
    TreeWellFormed(st.level.alts, Current(st.level));
  }

  lemma {:induction false} StartGood()
    ensures Good(START)
  {
  }

  // Every pattern that parses yields a tree the code layout can hold.
  lemma {:induction false} ParseGood(pat: seq<byte>)
    requires Parse(pat).Ok?
    ensures WellFormed(Parse(pat).value.tree)
  {
    hide ParseFrom, Good;
    StartGood();
    ParseFromGood(pat, 0, START);
  }
}
