// Reading a pattern back: regex_compile on the spelling of a pattern builds a tree that matches what
// the pattern stands for, unless the buffer overflows.
module RegexReading {
  import opened Bytes
  import opened RegexTree
  import opened RegexCode
  import opened RegexBracket
  import opened RegexParse
  import opened Wrappers
  import opened RegexRoles
  import G = RegexGrammar

  // s stands in the pattern at p.
  predicate Spelled(pat: seq<byte>, p: nat, s: seq<byte>) {
    p + |s| <= |pat| && pat[p..p + |s|] == s
  }

  lemma {:induction false} SpelledSplit(pat: seq<byte>, p: nat, s: seq<byte>, t: seq<byte>)
    requires Spelled(pat, p, s + t)
    ensures Spelled(pat, p, s) && Spelled(pat, p + |s|, t)
  {
    var w := pat[p..p + |s| + |t|];
    assert pat[p..p + |s|] == w[..|s|] && pat[p + |s|..p + |s| + |t|] == w[|s|..];
    assert w == s + t;
  }

  lemma {:induction false} SpelledAt(pat: seq<byte>, p: nat, s: seq<byte>, i: nat)
    requires Spelled(pat, p, s) && i < |s|
    ensures pat[p + i] == s[i]
  {
    assert pat[p..p + |s|][i] == pat[p + i];
  }

  // No repetition character at q.
  predicate Settled(pat: seq<byte>, q: nat) {
    q < |pat| ==> !IsRepeat(pat[q])
  }

  // From p the parser gets to q with st', or runs out of buffer.
  ghost predicate Reads(pat: seq<byte>, p: nat, st: PState, q: nat, st': PState) {
    ParseFrom(pat, p, st) == Err(ESize) || ParseFrom(pat, p, st) == ParseFrom(pat, q, st')
  }

  lemma {:induction false} ReadsOn(pat: seq<byte>, p: nat, st: PState, q: nat, st': PState, r: nat, st'': PState)
    requires Reads(pat, p, st, q, st') && Reads(pat, q, st', r, st'')
    ensures Reads(pat, p, st, r, st'')
  {
    hide ParseFrom;
  }

  // One construct, whose shift fits or overflows.
  lemma {:induction false} ReadsToken(pat: seq<byte>, p: nat, st: PState, tok: Token, q: nat, st': PState)
    requires p < |pat| && Lex(pat, p) == (tok, q) && (Shift(st, tok) == Err(ESize) || Shift(st, tok) == Ok(st'))
    ensures Reads(pat, p, st, q, st')
  {
    hide Lex, Shift;
    ParseSteps(pat, p, st);
  }

  // ---- Constructs as they are spelled ----

  lemma {:induction false} LexChar(pat: seq<byte>, p: nat, c: byte)
    requires Spelled(pat, p, G.ShowAtom(G.Ch(c)))
    ensures var q := p + |G.ShowAtom(G.Ch(c))|; p < |pat| && Lex(pat, p) == (Char(c, AloneAt(pat, q)), q)
  {
    hide AloneAt;
    SpelledAt(pat, p, G.ShowAtom(G.Ch(c)), 0);
    if G.Special(c) { SpelledAt(pat, p, G.ShowAtom(G.Ch(c)), 1); }
  }

  // One byte that stands for a construct of its own.
  lemma {:induction false} LexSymbol(pat: seq<byte>, p: nat, c: byte)
    requires Spelled(pat, p, [c])
    ensures p < |pat|
    ensures c == HAT ==> Lex(pat, p) == (Hat, p + 1)
    ensures c == DOLLAR ==> Lex(pat, p) == (Dollar, p + 1)
    ensures c == DOT ==> Lex(pat, p) == (Token.Dot, p + 1)
    ensures c == LEFT_PAREN ==> Lex(pat, p) == (Open, p + 1)
    ensures c == RIGHT_PAREN ==> Lex(pat, p) == (Close(AloneAt(pat, p + 1)), p + 1)
    ensures c == BAR ==> Lex(pat, p) == (Token.Bar, p + 1)
  {
    hide AloneAt;
    SpelledAt(pat, p, [c], 0);
  }

  // ---- Brackets ----

  // A list of members begins at p: after `[', or after `[^'.
  predicate ListAt(pat: seq<byte>, p: nat) {
    At(pat, p - 1) == LEFT_BRACKET || (At(pat, p - 1) == HAT && At(pat, p - 2) == LEFT_BRACKET)
  }

  // The members end at q.
  predicate ListEnds(pat: seq<byte>, q: nat) {
    At(pat, q) == RIGHT_BRACKET || (At(pat, q) == HYPHEN && At(pat, q + 1) == RIGHT_BRACKET)
  }

  // The members from p on, up to the hyphen or bracket that ends them.
  lemma {:induction false} ReadItems(pat: seq<byte>, p: nat, first: nat, items: seq<Range>, acc: seq<Range>)
    requires Spelled(pat, p, G.ShowItems(items)) && p >= first && ListAt(pat, first)
    requires G.GoodItems(items, p == first) && G.NoClass(items)
    requires ListEnds(pat, p + |G.ShowItems(items)|)
    ensures Members(pat, p, first, acc) == Members(pat, p + |G.ShowItems(items)|, first, acc + items)
    decreases |items|
  {
    hide Members, G.GoodItem, ListAt, ListEnds, G.NoClass;
    if items == [] {
      assert acc + items == acc;
    } else {
      var it, rest := items[0], items[1..];
      var q := p + |G.ShowItem(it)|;
      SpelledSplit(pat, p, G.ShowItem(it), G.ShowItems(rest));
      NextMember(pat, p, items, p == first);
      OneMember(pat, p, first, it, acc);
      RestGood(items, p == first);
      ReadItems(pat, q, first, rest, acc + [it]);
      assert acc + [it] + rest == acc + items;
    }
  }

  lemma {:induction false} RestGood(items: seq<Range>, first: bool)
    requires items != [] && G.GoodItems(items, first) && G.NoClass(items)
    ensures G.GoodItems(items[1..], false) && G.NoClass(items[1..])
  {
    hide G.GoodItem;
    var rest := items[1..];
    forall i | 0 <= i < |rest| ensures G.GoodItem(rest[i], false) { assert rest[i] == items[i + 1]; }
    forall i | 0 <= i < |rest| - 1 ensures rest[i] == Range(LEFT_BRACKET, LEFT_BRACKET) ==> rest[i + 1].lo != COLON {
      assert rest[i] == items[i + 1] && rest[i + 1] == items[i + 2];
    }
  }

  // What follows the first member cannot be taken for the middle of a range or a class.
  lemma {:induction false} NextMember(pat: seq<byte>, p: nat, items: seq<Range>, first: bool)
    requires Spelled(pat, p, G.ShowItems(items)) && items != [] && G.GoodItems(items, first) && G.NoClass(items)
    requires ListEnds(pat, p + |G.ShowItems(items)|)
    ensures var q := p + |G.ShowItem(items[0])|;
      && (At(pat, q) == HYPHEN ==> At(pat, q + 1) == RIGHT_BRACKET)
      && (items[0] == Range(LEFT_BRACKET, LEFT_BRACKET) ==> At(pat, q) != COLON)
  {
    var rest, q := items[1..], p + |G.ShowItem(items[0])|;
    SpelledSplit(pat, p, G.ShowItem(items[0]), G.ShowItems(rest));
    if rest != [] {
      assert G.GoodItem(items[1], false) && rest[0] == items[1];
      SpelledAt(pat, q, G.ShowItems(rest), 0);
    }
  }

  lemma {:induction false} OneMember(pat: seq<byte>, p: nat, first: nat, it: Range, acc: seq<Range>)
    requires Spelled(pat, p, G.ShowItem(it)) && G.GoodItem(it, p == first) && p >= first && ListAt(pat, first)
    requires var q := p + |G.ShowItem(it)|;
      && (At(pat, q) == HYPHEN ==> At(pat, q + 1) == RIGHT_BRACKET)
      && (it == Range(LEFT_BRACKET, LEFT_BRACKET) ==> At(pat, q) != COLON)
    ensures Members(pat, p, first, acc) == Members(pat, p + |G.ShowItem(it)|, first, acc + [it])
  {
    SpelledAt(pat, p, G.ShowItem(it), 0);
    if it.lo != it.hi {
      SpelledAt(pat, p, G.ShowItem(it), 1);
      SpelledAt(pat, p, G.ShowItem(it), 2);
    }
  }

  // Everything between the brackets, and the bracket that closes.
  lemma {:induction false} ReadMembers(pat: seq<byte>, p: nat, items: seq<Range>, hyphenLast: bool)
    requires Spelled(pat, p, G.ShowMembers(items, hyphenLast) + [RIGHT_BRACKET]) && ListAt(pat, p)
    requires (items != [] || hyphenLast) && G.GoodItems(items, true) && G.NoClass(items)
    ensures Members(pat, p, p, []) == Ok((G.Ranges(items, hyphenLast), p + |G.ShowMembers(items, hyphenLast)| + 1))
  {
    hide Members, G.GoodItems, G.NoClass, Spelled, G.ShowItems, ListAt;
    var q := p + |G.ShowItems(items)|;
    MembersSplit(pat, p, items, hyphenLast);
    ReadItems(pat, p, p, items, []);
    assert [] + items == items;
    ItemsNonempty(items);
    LastMembers(pat, q, p, hyphenLast, items);
  }

  lemma {:induction false} MembersSplit(pat: seq<byte>, p: nat, items: seq<Range>, hyphenLast: bool)
    requires Spelled(pat, p, G.ShowMembers(items, hyphenLast) + [RIGHT_BRACKET])
    ensures var q := p + |G.ShowItems(items)|;
      && Spelled(pat, p, G.ShowItems(items))
      && |G.ShowMembers(items, hyphenLast)| == q - p + (if hyphenLast then 1 else 0)
      && (if hyphenLast then q + 1 < |pat| && pat[q] == HYPHEN && pat[q + 1] == RIGHT_BRACKET
          else q < |pat| && pat[q] == RIGHT_BRACKET)
  {
    hide G.ShowItems;
    var body, tail := G.ShowItems(items), if hyphenLast then [HYPHEN] else [];
    assert G.ShowMembers(items, hyphenLast) + [RIGHT_BRACKET] == body + (tail + [RIGHT_BRACKET]);
    SpelledSplit(pat, p, body, tail + [RIGHT_BRACKET]);
    MembersEnd(pat, p + |body|, tail + [RIGHT_BRACKET], hyphenLast);
  }

  lemma {:induction false} ItemsNonempty(items: seq<Range>)
    ensures items != [] ==> |G.ShowItems(items)| > 0
  {
  }

  lemma {:induction false} MembersEnd(pat: seq<byte>, q: nat, s: seq<byte>, hyphenLast: bool)
    requires Spelled(pat, q, s) && s == (if hyphenLast then [HYPHEN] else []) + [RIGHT_BRACKET]
    ensures q + |s| <= |pat|
    ensures hyphenLast ==> At(pat, q) == HYPHEN && At(pat, q + 1) == RIGHT_BRACKET
    ensures !hyphenLast ==> At(pat, q) == RIGHT_BRACKET
  {
    SpelledAt(pat, q, s, 0);
    if hyphenLast { SpelledAt(pat, q, s, 1); }
  }

  // A hyphen that comes last is a member, and then the expression ends.
  lemma {:induction false} LastMembers(pat: seq<byte>, q: nat, first: nat, hyphenLast: bool, acc: seq<Range>)
    requires q >= first && (hyphenLast || q > first)
    requires if hyphenLast then q + 1 < |pat| && pat[q] == HYPHEN && pat[q + 1] == RIGHT_BRACKET
      else q < |pat| && pat[q] == RIGHT_BRACKET
    ensures Members(pat, q, first, acc) ==
      Ok((acc + (if hyphenLast then [Range(HYPHEN, HYPHEN)] else []), if hyphenLast then q + 2 else q + 1))
  {
    if hyphenLast {
      assert Members(pat, q + 1, first, acc + [Range(HYPHEN, HYPHEN)]) == Ok((acc + [Range(HYPHEN, HYPHEN)], q + 2));
    } else {
      assert acc + [] == acc;
    }
  }

  lemma {:induction false} LexBracket(pat: seq<byte>, p: nat, a: G.Atom)
    requires a.Bracket? && G.GoodAtom(a) && Spelled(pat, p, G.ShowAtom(a))
    ensures p < |pat|
    ensures Lex(pat, p) == (Token.Bracket(a.neg, G.Ranges(a.items, a.hyphenLast)), p + |G.ShowAtom(a)|)
  {
    hide Members, G.GoodItems, G.NoClass, G.ShowMembers, G.Ranges;
    var hat, body := if a.neg then [HAT] else [], G.ShowMembers(a.items, a.hyphenLast) + [RIGHT_BRACKET];
    assert G.ShowAtom(a) == [LEFT_BRACKET] + (hat + body);
    SpelledAt(pat, p, G.ShowAtom(a), 0);
    SpelledSplit(pat, p, [LEFT_BRACKET], hat + body);
    SpelledSplit(pat, p + 1, hat, body);
    if a.neg { SpelledAt(pat, p + 1, hat, 0); } else { NotHat(pat, p + 1, a); }
    ReadMembers(pat, p + 1 + |hat|, a.items, a.hyphenLast);
  }

  // Without `^', the first member is not taken for one.
  lemma {:induction false} NotHat(pat: seq<byte>, p: nat, a: G.Atom)
    requires a.Bracket? && G.GoodAtom(a) && !a.neg
    requires Spelled(pat, p, G.ShowMembers(a.items, a.hyphenLast) + [RIGHT_BRACKET])
    ensures p < |pat| && pat[p] != HAT
  {
    hide G.GoodItems, G.NoClass;
    MembersSplit(pat, p, a.items, a.hyphenLast);
    if a.items != [] { SpelledAt(pat, p, G.ShowItems(a.items), 0); }
  }

  // ---- Repetitions ----

  lemma {:induction false} AlikeRepeated(x: Re, y: Re, rs: seq<G.Rep>, env: Env)
    requires Alike(x, y, env)
    ensures Alike(G.RepeatedAll(x, rs), G.RepeatedAll(y, rs), env)
    decreases |rs|
  {
    hide Alike;
    if rs != [] {
      G.AlikeLoops(x, y, env);
      AlikeRepeated(G.Repeated(x, rs[0]), G.Repeated(y, rs[0]), rs[1..], env);
    }
  }

  // Repetition characters from p on collapse to one repetition that means the same.
  lemma {:induction false} ReadReps(pat: seq<byte>, p: nat, rs: seq<G.Rep>, zero: bool, many: bool, x: Re, env: Env)
    requires Spelled(pat, p, G.ShowReps(rs)) && Settled(pat, p + |rs|) && (zero || many)
    ensures var (tok, q) := RepeatsFrom(pat, p, zero, many);
      && q == p + |rs| && tok.Repeat? && (tok.zero || tok.many)
      && ((forall i :: 0 <= i < |rs| ==> rs[i] == G.ZeroOrOne) ==> tok.many == many)
      && Alike(G.RepeatedAll(Looped(x, zero, many), rs), Looped(x, tok.zero, tok.many), env)
    decreases |rs|
  {
    hide Alike, Looped;
    if rs == [] {
      G.AlikeSelf(Looped(x, zero, many), env);
    } else {
      var r, rest := rs[0], rs[1..];
      SpelledAt(pat, p, G.ShowReps(rs), 0);
      SpelledSplit(pat, p, [G.ShowRep(r)], G.ShowReps(rest));
      var z, m := zero || r != G.OneOrMore, many || r != G.ZeroOrOne;
      ReadReps(pat, p + 1, rest, z, m, x, env);
      G.TwoLoops(x, zero, many, r, env);
      AlikeRepeated(G.Repeated(Looped(x, zero, many), r), Looped(x, z, m), rest, env);
      G.AlikeTrans(G.RepeatedAll(Looped(x, zero, many), rs), G.RepeatedAll(Looped(x, z, m), rest),
        RepeatOf(pat, p, zero, many, x), env);
    }
  }

  // What the repetition read at p makes of x.
  function RepeatOf(pat: seq<byte>, p: nat, zero: bool, many: bool, x: Re): Re {
    var tok := RepeatsFrom(pat, p, zero, many).0;
    Looped(x, tok.zero, tok.many)
  }

  // The first of them starts the run.
  lemma {:induction false} LexReps(pat: seq<byte>, p: nat, rs: seq<G.Rep>, x: Re, y: Re, env: Env)
    requires Spelled(pat, p, G.ShowReps(rs)) && rs != [] && Settled(pat, p + |rs|) && Alike(x, y, env)
    ensures p < |pat| && IsRepeat(pat[p])
    ensures var (tok, q) := Lex(pat, p);
      && q == p + |rs| && tok.Repeat?
      && ((forall i :: 0 <= i < |rs| ==> rs[i] == G.ZeroOrOne) ==> !tok.many)
      && Alike(Looped(x, tok.zero, tok.many), G.RepeatedAll(y, rs), env)
  {
    hide Alike, Looped, RepeatsFrom;
    var r, rest := rs[0], rs[1..];
    SpelledAt(pat, p, G.ShowReps(rs), 0);
    SpelledSplit(pat, p, [G.ShowRep(r)], G.ShowReps(rest));
    var z, m := r != G.OneOrMore, r != G.ZeroOrOne;
    ReadReps(pat, p + 1, rest, z, m, x, env);
    OneLoop(x, r);
    AlikeRepeated(x, y, rs, env);
    var t := RepeatOf(pat, p + 1, z, m, x);
    G.AlikeSym(G.RepeatedAll(x, rs), t, env);
    G.AlikeTrans(t, G.RepeatedAll(x, rs), G.RepeatedAll(y, rs), env);
  }

  lemma {:induction false} OneLoop(x: Re, r: G.Rep)
    ensures Looped(x, r != G.OneOrMore, r != G.ZeroOrOne) == G.Repeated(x, r)
  {
  }

  // ---- Loops over one character ----

  // Loops found so far repeat one character.
  predicate SimpleLevel(l: Level) {
    (forall i :: 0 <= i < |l.alts| ==> Simple(l.alts[i])) && Simple(l.before) && (l.last.Some? ==> Simple(l.last.value))
  }

  predicate Repeatable(x: Re) {
    OneChar(x) && !WideSet(x)
  }

  lemma {:induction false} SimpleTree(alts: seq<Re>, cur: Re)
    requires Simple(cur) && forall i :: 0 <= i < |alts| ==> Simple(alts[i])
    ensures Simple(Tree(alts, cur))
  {
    if alts != [] { SimpleTree(alts[1..], cur); }
  }

  lemma {:induction false} SimpleLoop(x: Re, zero: bool, many: bool)
    requires Simple(x) && (many ==> Repeatable(x))
    ensures Simple(Looped(x, zero, many))
  {
  }

  // No character from 248 on: the last byte of the map stays zero, and is dropped.
  lemma {:induction false} NarrowMap(ranges: seq<Range>)
    requires forall i :: 0 <= i < |ranges| ==> ranges[i].hi < 248
    ensures MapOf(ranges)[31] == 0 && |Trimmed(MapOf(ranges))| < 32
  {
    if ranges != [] {
      var n := |ranges| - 1;
      NarrowMap(ranges[..n]);
      NarrowRange(MapOf(ranges[..n]), ranges[n].lo, ranges[n].hi);
    }
  }

  lemma {:induction false} NarrowRange(bits: seq<byte>, lo: nat, hi: byte)
    requires |bits| == MAP_BYTES && lo <= 256 && hi < 248
    ensures MarkedRange(bits, lo, hi)[31] == bits[31]
    decreases hi + 1 - lo
  {
    if lo <= hi { NarrowRange(Marked(bits, lo), lo + 1, hi); }
  }

  lemma {:induction false} BracketRepeatable(a: G.Atom)
    requires a.Bracket? && G.OneCharAtom(a)
    ensures Repeatable(Set(a.neg, Trimmed(MapOf(G.Ranges(a.items, a.hyphenLast)))))
  {
    hide MapOf, Trimmed;
    var ranges := G.Ranges(a.items, a.hyphenLast);
    if !a.neg {
      assert forall i :: 0 <= i < |ranges| ==> ranges[i].hi < 248;
      NarrowMap(ranges);
    }
  }

  // ---- What reading a piece adds ----

  predicate SameAround(st: PState, st': PState) {
    st'.stack == st.stack && st'.level.alts == st.level.alts && st'.regnum >= st.regnum
  }

  // The current alternative has grown by something that matches like t.
  ghost predicate Adds(st: PState, st': PState, t: Re, env: Env) {
    SameAround(st, st') && Alike(Current(st'.level), Cat(Current(st.level), t), env)
  }

  // A new last expression, which a repetition could take hold of.
  ghost predicate AddsLast(st: PState, st': PState, x: Re, t: Re, env: Env) {
    SameAround(st, st') && st'.level.last == Some(x) && st'.level.before == Current(st.level) && Alike(x, t, env)
  }

  lemma {:induction false} LastAdds(st: PState, st': PState, x: Re, t: Re, env: Env)
    requires AddsLast(st, st', x, t, env)
    ensures Adds(st, st', t, env)
  {
    hide Alike;
    G.AlikeSelf(Current(st.level), env);
    G.AlikeCat(Current(st.level), Current(st.level), x, t, env);
  }

  lemma {:induction false} AddedLast(st: PState, st': PState, x: Re, t: Re, env: Env)
    requires AddsLast(st, st', x, t, env)
    ensures SameAround(st, st') && st'.level.last == Some(x) && st'.level.before == Current(st.level)
  {
  }

  lemma {:induction false} AttachAdds(st: PState, x: Re, env: Env)
    ensures Adds(st, st.(level := Attach(st.level, x)), x, env)
  {
    hide Alike;
    var l := st.level;
    match l.last
    case None => G.AlikeSelf(Cat(l.before, x), env);
    case Some(y) => G.AlikeAssoc(l.before, y, x, env);
  }

  lemma {:induction false} CharAdds(st: PState, c: byte, alone: bool, env: Env)
    ensures Adds(st, st.(level := AddChar(st.level, c, alone)), Lit([c]), env)
  {
    hide Alike;
    var l := st.level;
    G.AlikeSelf(Cat(Current(l), Lit([c])), env);
    if Extends(l, alone) {
      var cs := l.last.value.chars;
      G.AlikeRun(cs, c, env);
      G.AlikeSelf(l.before, env);
      G.AlikeCat(l.before, l.before, Lit(cs + [c]), Cat(Lit(cs), Lit([c])), env);
      G.AlikeAssoc(l.before, Lit(cs), Lit([c]), env);
      G.AlikeTrans(Cat(l.before, Lit(cs + [c])), Cat(l.before, Cat(Lit(cs), Lit([c]))), Cat(Current(l), Lit([c])), env);
    }
  }

  lemma {:induction false} AddsMore(st: PState, st': PState, st'': PState, t: Re, u: Re, env: Env)
    requires Adds(st, st', t, env) && Adds(st', st'', u, env)
    ensures Adds(st, st'', Cat(t, u), env)
  {
    hide Alike, Current;
    var a, b, c := Current(st.level), Current(st'.level), Current(st''.level);
    G.AlikeSelf(u, env);
    G.AlikeCat(b, Cat(a, t), u, u, env);
    G.AlikeAssoc(a, t, u, env);
    G.AlikeTrans(c, Cat(b, u), Cat(Cat(a, t), u), env);
    G.AlikeTrans(c, Cat(Cat(a, t), u), Cat(a, Cat(t, u)), env);
  }

  lemma {:induction false} AttachSimple(l: Level, x: Re)
    requires Simple(x)
    ensures SimpleLevel(l) ==> SimpleLevel(Attach(l, x))
  {
  }

  lemma {:induction false} CharSimple(l: Level, c: byte, alone: bool)
    ensures SimpleLevel(l) ==> SimpleLevel(AddChar(l, c, alone))
  {
  }

  lemma {:induction false} LastSimple(st: PState, st': PState, x: Re)
    requires SameAround(st, st') && st'.level.last == Some(x) && st'.level.before == Current(st.level)
    ensures SimpleLevel(st.level) && Simple(x) ==> SimpleLevel(st'.level)
  {
  }

  lemma {:induction false} BarSimple(l: Level)
    ensures SimpleLevel(l) ==> SimpleLevel(Level(l.alts + [Current(l)], Eps, None, false))
  {
  }

  // ---- Spelled patterns are read back ----

  // An atom that a repetition may follow.
  lemma {:induction false} ReadAtom(pat: seq<byte>, p: nat, a: G.Atom, st: PState, env: Env) returns (st': PState,
        x: Re)
    requires G.GoodAtom(a) && Spelled(pat, p, G.ShowAtom(a))
    requires a.Ch? ==> AloneAt(pat, p + |G.ShowAtom(a)|)
    ensures Reads(pat, p, st, p + |G.ShowAtom(a)|, st') && AddsLast(st, st', x, G.AtomMeaning(a), env)
    ensures (G.SimpleAtom(a) ==> Simple(x)) && (G.OneCharAtom(a) ==> Repeatable(x))
    decreases a, 1
  {
    hide Lex, Shift, ParseFrom, Alike, AloneAt, Reads, Spelled, Members, MapOf, Trimmed;
    match a
    case Ch(c) =>
      x := Lit([c]);
      st' := st.(level := Begin(st.level, x, true));
      LexChar(pat, p, c);
      ShiftChar(st, c, true);
      ReadsToken(pat, p, st, Char(c, true), p + |G.ShowAtom(a)|, st');
      G.AlikeSelf(x, env);
    case Dot =>
      x := Any;
      st' := st.(level := Begin(st.level, x, false));
      LexSymbol(pat, p, DOT);
      ShiftPlain(st);
      ReadsToken(pat, p, st, Token.Dot, p + 1, st');
      G.AlikeSelf(x, env);
    case Bracket(neg, items, hyphenLast) =>
      var ranges := G.Ranges(items, hyphenLast);
      x := Set(neg, Trimmed(MapOf(ranges)));
      st' := st.(level := Begin(st.level, x, false));
      LexBracket(pat, p, a);
      ShiftSet(st, neg, ranges);
      ReadsToken(pat, p, st, Token.Bracket(neg, ranges), p + |G.ShowAtom(a)|, st');
      TrimmedAlike(neg, MapOf(ranges), env);
      if G.OneCharAtom(a) { BracketRepeatable(a); }
    case Paren(r) =>
      st', x := ReadParen(pat, p, a, st, env);
  }

  lemma {:induction false} ShiftChar(st: PState, c: byte, alone: bool)
    ensures var s := Shift(st, Char(c, alone));
      s == Err(ESize) || s == Ok(st.(level := AddChar(st.level, c, alone)))
    ensures alone ==> AddChar(st.level, c, alone) == Begin(st.level, Lit([c]), true)
  {
    hide Used;
  }

  lemma {:induction false} ShiftPlain(st: PState)
    ensures var s := Shift(st, Token.Dot); s == Err(ESize) || s == Ok(st.(level := Begin(st.level, Any, false)))
    ensures var s := Shift(st, Hat); s == Err(ESize) || s == Ok(st.(level := Attach(st.level, Bol)))
    ensures var s := Shift(st, Dollar); s == Err(ESize) || s == Ok(st.(level := Attach(st.level, Eol)))
  {
    hide Used;
  }

  lemma {:induction false} ShiftSet(st: PState, neg: bool, ranges: seq<Range>)
    ensures var s := Shift(st, Token.Bracket(neg, ranges));
      s == Err(ESize) || s == Ok(st.(level := Begin(st.level, Set(neg, Trimmed(MapOf(ranges))), false)))
  {
    hide Used, MapOf, Trimmed;
  }

  lemma {:induction false} TrimmedAlike(neg: bool, bits: seq<byte>, env: Env)
    ensures Alike(Set(neg, Trimmed(bits)), Set(neg, bits), env)
  {
    hide InMap, Trimmed;
    forall i: nat, j: nat ensures Spans(Set(neg, Trimmed(bits)), env, i, j) <==> Spans(Set(neg, bits), env, i, j) {
      if i < |env.text| { TrimmedHolds(bits, env.text[i]); }
    }
  }

  // What the shifts around a group do.
  function Opened(st: PState): PState {
    PState(st.stack + [Saved(st.level.alts, Current(st.level), st.regnum + 1)], EMPTY, st.regnum + 1)
  }

  lemma {:induction false} ShiftParens(st: PState, st2: PState, alone: bool)
    requires SameStack(Opened(st), st2)
    ensures var s := Shift(st, Open); s == Err(ESize) || s == Ok(Opened(st))
    ensures st2.stack != []
    ensures var s := Shift(st2, Close(alone)); s == Err(ESize) || s == Ok(CloseGroup(st2))
    ensures var st', reg := CloseGroup(st2), st.regnum + 1;
      && SameAround(st, st') && st'.level.before == Current(st.level)
      && st'.level.last == Some(Group(reg, st2.regnum - reg, Tree(st2.level.alts, Current(st2.level))))
  {
    hide Used, Tree;
    assert st2.stack[..|st2.stack| - 1] == st.stack;
  }

  predicate SameStack(st: PState, st': PState) {
    st'.stack == st.stack && st'.regnum >= st.regnum
  }

  lemma {:induction false} ReadParen(pat: seq<byte>, p: nat, a: G.Atom, st: PState, env: Env) returns (st': PState,
        x: Re)
    requires a.Paren? && G.GoodAtom(a) && Spelled(pat, p, G.ShowAtom(a))
    ensures Reads(pat, p, st, p + |G.ShowAtom(a)|, st') && AddsLast(st, st', x, G.AtomMeaning(a), env)
    ensures (G.SimpleAtom(a) ==> Simple(x)) && (G.OneCharAtom(a) ==> Repeatable(x))
    decreases a, 0
  {
    hide Lex, Shift, ParseFrom, Alike, AloneAt, Reads, Spelled, Opened, CloseGroup, Tree;
    var body := G.ShowAlts(a.r);
    var q := p + 1 + |body|;
    assert G.ShowAtom(a) == [LEFT_PAREN] + (body + [RIGHT_PAREN]);
    SpelledSplit(pat, p, [LEFT_PAREN], body + [RIGHT_PAREN]);
    SpelledSplit(pat, p + 1, body, [RIGHT_PAREN]);
    LexSymbol(pat, p, LEFT_PAREN);
    LexSymbol(pat, q, RIGHT_PAREN);
    EndsSettled(pat, q, RIGHT_PAREN);
    OpenedLevel(st);
    var st2, added := ReadAlts(pat, p + 1, a.r, Opened(st), env);
    ShiftParens(st, st2, AloneAt(pat, q + 1));
    ReadsToken(pat, p, st, Open, p + 1, Opened(st));
    st' := CloseGroup(st2);
    ReadsToken(pat, q, st2, Close(AloneAt(pat, q + 1)), q + 1, st');
    ReadsOn(pat, p, st, p + 1, Opened(st), q, st2);
    ReadsOn(pat, p, st, q, st2, q + 1, st');
    x := st'.level.last.value;
    assert st2.level.alts == [] + added == added;
    GroupAlike(x, G.Meaning(a.r), env);
    if G.SimpleAtom(a) { SimpleGroup(st2, x); }
  }

  lemma {:induction false} SimpleGroup(st: PState, x: Re)
    requires SimpleLevel(st.level) && x.Group? && x.a == Tree(st.level.alts, Current(st.level))
    ensures Simple(x)
  {
    SimpleTree(st.level.alts, Current(st.level));
  }

  lemma {:induction false} OpenedLevel(st: PState)
    ensures Opened(st).level == Level([], Eps, None, false)
  {
  }

  lemma {:induction false} GroupAlike(x: Re, t: Re, env: Env)
    requires x.Group? && Alike(x.a, t, env)
    ensures Alike(x, t, env)
  {
    forall i: nat, j: nat ensures Spans(x, env, i, j) <==> Spans(t, env, i, j) {
      G.InText(x.a, env, i, j);
      assert Spans(x.a, env, i, j) <==> Spans(t, env, i, j);
    }
  }

  lemma {:induction false} EndsSettled(pat: seq<byte>, q: nat, c: byte)
    requires Spelled(pat, q, [c]) && !IsRepeat(c)
    ensures Settled(pat, q)
  {
    SpelledAt(pat, q, [c], 0);
  }

  lemma {:induction false} ReadPiece(pat: seq<byte>, p: nat, e: G.Piece, st: PState, env: Env) returns (st': PState)
    requires G.GoodPiece(e) && Spelled(pat, p, G.ShowPiece(e)) && Settled(pat, p + |G.ShowPiece(e)|)
    ensures Reads(pat, p, st, p + |G.ShowPiece(e)|, st') && Adds(st, st', G.PieceMeaning(e), env)
    ensures SimpleLevel(st.level) && G.SimplePiece(e) ==> SimpleLevel(st'.level)
    decreases e, 1
  {
    hide Lex, Shift, ParseFrom, Alike, AloneAt, Reads, Spelled, Settled;
    match e
    case LineStart =>
      st' := st.(level := Attach(st.level, Bol));
      LexSymbol(pat, p, HAT);
      ShiftPlain(st);
      ReadsToken(pat, p, st, Hat, p + 1, st');
      AttachAdds(st, Bol, env);
      AttachSimple(st.level, Bol);
    case LineEnd =>
      st' := st.(level := Attach(st.level, Eol));
      LexSymbol(pat, p, DOLLAR);
      ShiftPlain(st);
      ReadsToken(pat, p, st, Dollar, p + 1, st');
      AttachAdds(st, Eol, env);
      AttachSimple(st.level, Eol);
    case Times(a, reps) => st' := ReadTimes(pat, p, e, st, env);
  }

  lemma {:induction false} ReadTimes(pat: seq<byte>, p: nat, e: G.Piece, st: PState, env: Env) returns (st': PState)
    requires e.Times? && G.GoodPiece(e) && Spelled(pat, p, G.ShowPiece(e)) && Settled(pat, p + |G.ShowPiece(e)|)
    ensures Reads(pat, p, st, p + |G.ShowPiece(e)|, st') && Adds(st, st', G.PieceMeaning(e), env)
    ensures SimpleLevel(st.level) && G.SimplePiece(e) ==> SimpleLevel(st'.level)
    decreases e, 0
  {
    hide Lex, Shift, ParseFrom, Alike, AloneAt, Reads, Spelled, Settled, Adds, AddsLast, G.GoodAtom, G.ShowAtom;
    var a, q := e.a, p + |G.ShowAtom(e.a)|;
    if e.reps == [] {
      assert G.ShowPiece(e) == G.ShowAtom(a);
      st' := ReadOnce(pat, p, a, st, env);
    } else {
      SpelledSplit(pat, p, G.ShowAtom(a), G.ShowReps(e.reps));
      LexReps(pat, q, e.reps, Eps, Eps, env) by { G.AlikeSelf(Eps, env); }
      RepeatIsAlone(pat, q);
      var st1, x := ReadAtom(pat, p, a, st, env);
      st' := ReadLoop(pat, q, e.reps, st, st1, x, G.AtomMeaning(a), env);
      ReadsOn(pat, p, st, q, st1, q + |e.reps|, st');
      AddedLast(st, st1, x, G.AtomMeaning(a), env);
      LastSimple(st, st1, x);
    }
  }

  lemma {:induction false} RepeatIsAlone(pat: seq<byte>, q: nat)
    requires q < |pat| && IsRepeat(pat[q])
    ensures AloneAt(pat, q)
  {
  }

  // An atom no repetition follows.
  lemma {:induction false} ReadOnce(pat: seq<byte>, p: nat, a: G.Atom, st: PState, env: Env) returns (st': PState)
    requires G.GoodAtom(a) && Spelled(pat, p, G.ShowAtom(a))
    ensures Reads(pat, p, st, p + |G.ShowAtom(a)|, st') && Adds(st, st', G.AtomMeaning(a), env)
    ensures SimpleLevel(st.level) && G.SimpleAtom(a) ==> SimpleLevel(st'.level)
    decreases a, 2
  {
    hide Lex, Shift, ParseFrom, Alike, AloneAt, Reads, Spelled, Adds, AddsLast, G.GoodAtom, G.ShowAtom, AddChar;
    if a.Ch? {
      var q := p + |G.ShowAtom(a)|;
      LexChar(pat, p, a.c);
      ShiftChar(st, a.c, AloneAt(pat, q));
      st' := st.(level := AddChar(st.level, a.c, AloneAt(pat, q)));
      ReadsToken(pat, p, st, Char(a.c, AloneAt(pat, q)), q, st');
      CharAdds(st, a.c, AloneAt(pat, q), env);
      CharSimple(st.level, a.c, AloneAt(pat, q));
    } else {
      var x;
      st', x := ReadAtom(pat, p, a, st, env);
      LastAdds(st, st', x, G.AtomMeaning(a), env);
      AddedLast(st, st', x, G.AtomMeaning(a), env);
      LastSimple(st, st', x);
    }
  }

  // The repetition after an atom.
  lemma {:induction false} ReadLoop(pat: seq<byte>, q: nat, reps: seq<G.Rep>, st: PState, st1: PState, x: Re, t: Re,
        env: Env)
    returns (st': PState)
    requires AddsLast(st, st1, x, t, env) && Spelled(pat, q, G.ShowReps(reps)) && reps != [] && Settled(pat, q + |reps|)
    ensures Reads(pat, q, st1, q + |reps|, st') && Adds(st, st', G.RepeatedAll(t, reps), env)
    ensures SimpleLevel(st1.level) && (Repeatable(x) || forall i :: 0 <= i < |reps| ==> reps[i] == G.ZeroOrOne)
      ==> SimpleLevel(st'.level)
  {
    hide Lex, ParseFrom, Alike, Reads, Spelled, Settled, Looped, Used, Simple, Repeatable;
    LexReps(pat, q, reps, x, t, env);
    var tok := Lex(pat, q).0;
    var y := Looped(x, tok.zero, tok.many);
    st' := st1.(level := st1.level.(last := Some(y), run := false));
    ReadsToken(pat, q, st1, tok, q + |reps|, st');
    LastAdds(st, st', y, G.RepeatedAll(t, reps), env);
    if SimpleLevel(st1.level) && (Repeatable(x) || forall i :: 0 <= i < |reps| ==> reps[i] == G.ZeroOrOne) {
      SimpleLoop(x, tok.zero, tok.many);
    }
  }

  lemma {:induction false} ReadBranch(pat: seq<byte>, p: nat, b: G.Branch, st: PState, env: Env) returns (st': PState)
    requires G.GoodBranch(b) && Spelled(pat, p, G.ShowBranch(b)) && Settled(pat, p + |G.ShowBranch(b)|)
    ensures Reads(pat, p, st, p + |G.ShowBranch(b)|, st') && Adds(st, st', G.BranchMeaning(b), env)
    ensures SimpleLevel(st.level) && G.SimpleBranch(b) ==> SimpleLevel(st'.level)
    decreases b
  {
    hide ParseFrom, Alike, Spelled, Settled, Adds, G.ShowPiece, G.GoodPiece;
    match b
    case Nil =>
      st' := st;
      NothingAdded(st, env);
    case Cons(head, tail) =>
      var q := p + |G.ShowPiece(head)|;
      SpelledSplit(pat, p, G.ShowPiece(head), G.ShowBranch(tail));
      TailSettled(pat, q, tail);
      var st1 := ReadPiece(pat, p, head, st, env);
      st' := ReadBranch(pat, q, tail, st1, env);
      ReadsOn(pat, p, st, q, st1, p + |G.ShowBranch(b)|, st');
      AddsMore(st, st1, st', G.PieceMeaning(head), G.BranchMeaning(tail), env);
  }

  lemma {:induction false} NothingAdded(st: PState, env: Env)
    ensures Adds(st, st, Eps, env)
  {
    hide Alike;
    G.AlikeEps(Current(st.level), env);
  }

  // A piece never begins with a repetition character.
  lemma {:induction false} PieceStart(e: G.Piece)
    requires G.GoodPiece(e)
    ensures |G.ShowPiece(e)| > 0 && !IsRepeat(G.ShowPiece(e)[0])
  {
    hide G.ShowReps, G.ShowMembers, G.ShowAlts;
    if e.Times? { AtomStart(e.a); }
  }

  lemma {:induction false} AtomStart(a: G.Atom)
    ensures |G.ShowAtom(a)| > 0 && !IsRepeat(G.ShowAtom(a)[0])
  {
    hide G.ShowMembers, G.ShowAlts;
  }

  lemma {:induction false} TailSettled(pat: seq<byte>, q: nat, b: G.Branch)
    requires G.GoodBranch(b) && Spelled(pat, q, G.ShowBranch(b)) && Settled(pat, q + |G.ShowBranch(b)|)
    ensures Settled(pat, q)
  {
    hide G.ShowPiece, G.GoodPiece;
    if b.Cons? {
      PieceStart(b.head);
      SpelledAt(pat, q, G.ShowBranch(b), 0);
    }
  }

  // All the alternatives of a level: `added' are the finished ones.
  lemma {:induction false} ReadAlts(pat: seq<byte>, p: nat, r: G.Alts, st: PState, env: Env) returns (st': PState,
        added: seq<Re>)
    requires G.Spellable(r) && Spelled(pat, p, G.ShowAlts(r)) && Settled(pat, p + |G.ShowAlts(r)|)
    requires st.level == Level(st.level.alts, Eps, None, false)
    ensures Reads(pat, p, st, p + |G.ShowAlts(r)|, st') && SameStack(st, st') && st'.level.alts == st.level.alts + added
    ensures Alike(Tree(added, Current(st'.level)), G.Meaning(r), env)
    ensures SimpleLevel(st.level) && G.SimplePattern(r) ==> SimpleLevel(st'.level)
    decreases r
  {
    hide ParseFrom, Alike, Spelled, Settled, G.ShowBranch, G.GoodBranch, Reads, Shift, Lex, Current;
    match r
    case One(b) =>
      st' := ReadBranch(pat, p, b, st, env);
      added := [];
      OnlyBranch(st, st', G.BranchMeaning(b), env);
    case More(b, rest) =>
      var q := p + |G.ShowBranch(b)|;
      assert G.ShowAlts(r) == G.ShowBranch(b) + ([BAR] + G.ShowAlts(rest));
      SpelledSplit(pat, p, G.ShowBranch(b), [BAR] + G.ShowAlts(rest));
      SpelledSplit(pat, q, [BAR], G.ShowAlts(rest));
      EndsSettled(pat, q, BAR);
      LexSymbol(pat, q, BAR);
      var st1 := ReadBranch(pat, p, b, st, env);
      var cur := Current(st1.level);
      var st2 := st1.(level := Level(st1.level.alts + [cur], Eps, None, false));
      ShiftBar(st1);
      ReadsToken(pat, q, st1, Token.Bar, q + 1, st2);
      var more;
      st', more := ReadAlts(pat, q + 1, rest, st2, env);
      added := [cur] + more;
      ReadsOn(pat, p, st, q, st1, q + 1, st2);
      ReadsOn(pat, p, st, q + 1, st2, p + |G.ShowAlts(r)|, st');
      OnlyBranch(st, st1, G.BranchMeaning(b), env);
      BarSimple(st1.level);
      assert added[1..] == more;
      G.AlikeAlt(cur, G.BranchMeaning(b), Tree(more, Current(st'.level)), G.Meaning(rest), env);
  }

  lemma {:induction false} OnlyBranch(st: PState, st': PState, t: Re, env: Env)
    requires Adds(st, st', t, env) && st.level == Level(st.level.alts, Eps, None, false)
    ensures Alike(Current(st'.level), t, env)
  {
    hide Alike;
    G.AlikeEps(t, env);
    G.AlikeTrans(Current(st'.level), Cat(Eps, t), t, env);
  }

  lemma {:induction false} ShiftBar(st: PState)
    ensures var s := Shift(st, Token.Bar);
      s == Err(ESize) || s == Ok(st.(level := Level(st.level.alts + [Current(st.level)], Eps, None, false)))
  {
    hide Used;
  }

  // The main result: a spelled pattern reads back as what it stands for.
  lemma {:induction false} SpelledPatternReads(r: G.Alts, env: Env)
    requires G.Spellable(r)
    ensures var c := Parse(G.ShowAlts(r));
      c == Err(ESize)
      || (c.Ok? && WellFormed(c.value.tree) && Alike(c.value.tree, G.Meaning(r), env)
          && (G.SimplePattern(r) ==> Simple(c.value.tree)))
  {
    hide ParseFrom, Alike, WellFormed, Tree, Simple;
    var pat := G.ShowAlts(r);
    assert pat[0..0 + |pat|] == pat;
    var st, added := ReadAlts(pat, 0, r, START, env);
    assert [] + added == added;
    ParseEnds(pat, |pat|, st);
    if Parse(pat).Ok? {
      ParseGood(pat);
      if G.SimplePattern(r) { SimpleEnd(st); }
    }
  }

  lemma {:induction false} SimpleEnd(st: PState)
    requires SimpleLevel(START.level) ==> SimpleLevel(st.level)
    ensures Simple(Tree(st.level.alts, Current(st.level)))
  {
    SimpleTree(st.level.alts, Current(st.level));
  }

  // Left out of the spellings above: a repetition written straight after an anchor takes hold of the
  // expression before the anchor together with the anchor; with nothing before, it is ignored.
  lemma {:induction false} RepeatedAnchor(st: PState, anchor: Token, zero: bool, many: bool)
    requires anchor == Hat || anchor == Dollar
    requires Used(st) + 10 <= MAX_BUF_SIZE
    ensures Shift(st, anchor).Ok?
    ensures var x := if anchor == Hat then Bol else Eol;
      var s := Shift(Shift(st, anchor).value, Repeat(zero, many));
      s.Ok? &&
      match st.level.last
      case None => s.value.level == Level(st.level.alts, Cat(st.level.before, x), None, false)
      case Some(y) => s.value.level == Level(st.level.alts, st.level.before, Some(Looped(Cat(y, x), zero, many)), false)
  {
    hide Base, AltsLen;
    var x := if anchor == Hat then Bol else Eol;
    match st.level.last
    case None => assert Len(Cat(st.level.before, x)) == Len(st.level.before) + 1;
    case Some(y) =>
      assert Len(Cat(y, x)) == Len(y) + 1;
      assert Len(Cat(st.level.before, y)) == Len(st.level.before) + Len(y);
      assert Len(Cat(st.level.before, Cat(y, x))) == Len(st.level.before) + Len(Cat(y, x));
  }
}
