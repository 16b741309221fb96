// The pattern every queue command of the gateway passes through, as one the theorems about spelled patterns
// speak of: q:([-_A-Za-z0-9]+) +(.*)
module RegexGateway {
  import opened Bytes
  import opened RegexTree
  import opened RegexCode
  import opened RegexBracket
  import opened RegexParse
  import opened RegexGrammar
  import opened RegexEngine
  import opened RegexExec
  import opened Wrappers

  // ---- A pattern has at most as many groups as opening parentheses ----

  function Parens(pat: seq<byte>, p: nat): nat
    decreases |pat| - p
  {
    if p >= |pat| then 0 else (if pat[p] == LEFT_PAREN then 1 else 0) + Parens(pat, p + 1)
  }

  lemma {:induction false} ParensFall(pat: seq<byte>, p: nat, q: nat)
    requires p <= q
    ensures Parens(pat, q) <= Parens(pat, p)
    decreases q - p
  {
    if p < q { ParensFall(pat, p + 1, q); }
  }

  lemma {:induction false} ShiftCounts(st: PState, tok: Token)
    requires Shift(st, tok).Ok?
    ensures Shift(st, tok).value.regnum == if tok.Open? then st.regnum + 1 else st.regnum
  {
    hide Used, MapOf, Trimmed, Tree, AddChar, Attach, Current;
  }

  lemma {:induction false} LexOpens(pat: seq<byte>, p: nat)
    requires p < |pat|
    ensures Lex(pat, p).0.Open? ==> pat[p] == LEFT_PAREN
  {
    hide Members, RepeatsFrom;
  }

  lemma {:induction false} GroupsFrom(pat: seq<byte>, p: nat, st: PState)
    ensures var c := ParseFrom(pat, p, st); c.Ok? ==> c.value.groups <= st.regnum + Parens(pat, p)
    decreases |pat| - p
  {
    hide Shift, Lex;
    if p < |pat| {
      var (tok, q) := Lex(pat, p);
      if Shift(st, tok).Ok? {
        ShiftCounts(st, tok);
        LexOpens(pat, p);
        ParensFall(pat, p + 1, q);
        GroupsFrom(pat, q, Shift(st, tok).value);
      }
    }
  }

  // A spelled pattern of up to 963 characters with at most two opening parentheses keeps its registers in step.
  lemma {:induction false} TwoParensTamed(r: Alts)
    requires Spellable(r) && MOST_PER_CHAR * |ShowAlts(r)| <= MAX_REACH && Parens(ShowAlts(r), 0) <= 2
    ensures Tamed(ShowAlts(r))
  {
    hide Tamed, ParseFrom, Parens;
    ShortIsTamed(r);
    GroupsFrom(ShowAlts(r), 0, START);
  }

  // ---- q:([-_A-Za-z0-9]+) +(.*) ----

  const QUEUE_COMMAND: seq<byte> :=
    [113, 58, 40, 91, 45, 95, 65, 45, 90, 97, 45, 122, 48, 45, 57, 93, 43, 41, 32, 43, 40, 46, 42, 41]

  // A hyphen, an underscore, letters and digits.
  const KEY_CHARS := [Range(45, 45), Range(95, 95), Range(65, 90), Range(97, 122), Range(48, 57)]

  const KEY := One(Cons(Times(Atom.Bracket(false, KEY_CHARS, false), [OneOrMore]), Nil))
  const REST := One(Cons(Times(Atom.Dot, [ZeroOrMore]), Nil))

  const QUEUE_TREE :=
    One(Cons(Times(Ch(113), []), Cons(Times(Ch(58), []), Cons(Times(Paren(KEY), []),
      Cons(Times(Ch(32), [OneOrMore]), Cons(Times(Paren(REST), []), Nil))))))

  // The pattern is one of those the theorems cover: spelled, of loops over one character, within reach, and with
  // registers that stay in step.
  lemma {:induction false} QueueCommandCovered()
    ensures ShowAlts(QUEUE_TREE) == QUEUE_COMMAND && Spellable(QUEUE_TREE) && SimplePattern(QUEUE_TREE)
    ensures Tamed(QUEUE_COMMAND)
  {
    hide Spellable, SimplePattern, ShowAlts, Parens, Tamed;
    QueueShown();
    QueueGood();
    QueueParens();
    TwoParensTamed(QUEUE_TREE);
  }

  // The tree from its third piece on, and from the fourth.
  const FROM_KEY := Cons(Times(Paren(KEY), []), FROM_SPACE)
  const FROM_SPACE := Cons(Times(Ch(32), [OneOrMore]), Cons(Times(Paren(REST), []), Nil))

  lemma {:induction false} ShownOnce(a: Atom, tail: Branch)
    ensures ShowBranch(Cons(Times(a, []), tail)) == ShowAtom(a) + ShowBranch(tail)
  {
    hide ShowAtom;
  }

  lemma {:induction false} ShownRepeated(a: Atom, r: Rep, tail: Branch)
    ensures ShowBranch(Cons(Times(a, [r]), tail)) == ShowAtom(a) + [ShowRep(r)] + ShowBranch(tail)
  {
    hide ShowAtom, ShowRep;
    assert [r][1..] == [];
    assert ShowReps([r]) == [ShowRep(r)] + ShowReps([]);
  }

  lemma {:induction false} ItemsShown(r: Range, rest: seq<Range>)
    ensures ShowItems([r] + rest) == ShowItem(r) + ShowItems(rest)
  {
    hide ShowItem;
    assert ([r] + rest)[1..] == rest;
  }

  lemma {:induction false} KeyCharsShown()
    ensures ShowItems(KEY_CHARS) == [45, 95, 65, 45, 90, 97, 45, 122, 48, 45, 57]
  {
    var s1, s2, s3, s4 := KEY_CHARS[1..], KEY_CHARS[2..], KEY_CHARS[3..], KEY_CHARS[4..];
    hide ShowItems;
    assert KEY_CHARS == [Range(45, 45)] + s1 && s1 == [Range(95, 95)] + s2 && s2 == [Range(65, 90)] + s3;
    assert s3 == [Range(97, 122)] + s4 && s4 == [Range(48, 57)] + [];
    ItemsShown(Range(45, 45), s1);
    ItemsShown(Range(95, 95), s2);
    ItemsShown(Range(65, 90), s3);
    ItemsShown(Range(97, 122), s4);
    ItemsShown(Range(48, 57), []);
    NoItems();
  }

  lemma {:induction false} NoItems()
    ensures ShowItems([]) == []
  {
  }

  lemma {:induction false} KeyShown()
    ensures ShowAlts(KEY) == [91, 45, 95, 65, 45, 90, 97, 45, 122, 48, 45, 57, 93, 43]
  {
    hide ShowItems, ShowReps;
    KeyCharsShown();
    ShownRepeated(Atom.Bracket(false, KEY_CHARS, false), OneOrMore, Nil);
  }

  lemma {:induction false} RestShown()
    ensures ShowAlts(REST) == [46, 42]
  {
    ShownRepeated(Atom.Dot, ZeroOrMore, Nil);
  }

  lemma {:induction false} SpaceShown()
    ensures ShowBranch(FROM_SPACE) == [32, 43, 40, 46, 42, 41]
  {
    hide ShowAlts, ShowReps;
    RestShown();
    ShownOnce(Paren(REST), Nil);
    ShownRepeated(Ch(32), OneOrMore, Cons(Times(Paren(REST), []), Nil));
  }

  lemma {:induction false} QueueShown()
    ensures ShowAlts(QUEUE_TREE) == QUEUE_COMMAND
  {
    hide ShowReps, ShowBranch, KEY;
    KeyShown();
    SpaceShown();
    ShownOnce(Paren(KEY), FROM_SPACE);
    ShownOnce(Ch(58), FROM_KEY);
    ShownOnce(Ch(113), Cons(Times(Ch(58), []), FROM_KEY));
  }

  lemma {:induction false} KeyGood()
    ensures Spellable(KEY) && SimplePattern(KEY)
  {
  }

  lemma {:induction false} SpaceGood()
    ensures GoodBranch(FROM_SPACE) && SimpleBranch(FROM_SPACE)
  {
    assert Spellable(REST) && SimplePattern(REST);
  }

  lemma {:induction false} QueueGood()
    ensures Spellable(QUEUE_TREE) && SimplePattern(QUEUE_TREE)
  {
    hide KEY, FROM_SPACE;
    KeyGood();
    SpaceGood();
    assert GoodAtom(Paren(KEY)) && SimpleAtom(Paren(KEY));
    assert GoodPiece(Times(Paren(KEY), [])) && SimplePiece(Times(Paren(KEY), []));
    assert GoodBranch(FROM_KEY) && SimpleBranch(FROM_KEY);
    FromTheTop();
  }

  lemma {:induction false} FromTheTop()
    requires GoodBranch(FROM_KEY) && SimpleBranch(FROM_KEY)
    ensures Spellable(QUEUE_TREE) && SimplePattern(QUEUE_TREE)
  {
    var colon := Cons(Times(Ch(58), []), FROM_KEY);
    assert QUEUE_TREE == One(Cons(Times(Ch(113), []), colon));
    hide FROM_KEY, QUEUE_TREE;
    assert GoodBranch(colon) && SimpleBranch(colon);
  }

  lemma {:induction false} NoParens(pat: seq<byte>, p: nat, q: nat)
    requires p <= q <= |pat| && forall i :: p <= i < q ==> pat[i] != LEFT_PAREN
    ensures Parens(pat, p) == Parens(pat, q)
    decreases q - p
  {
    if p < q { NoParens(pat, p + 1, q); }
  }

  lemma {:induction false} QueueParens()
    ensures Parens(QUEUE_COMMAND, 0) <= 2
  {
    var pat := QUEUE_COMMAND;
    NoParens(pat, 0, 2);
    NoParens(pat, 3, 20);
    NoParens(pat, 21, 24);
    assert Parens(pat, 24) == 0;
    assert Parens(pat, 2) == 1 + Parens(pat, 3) && Parens(pat, 20) == 1 + Parens(pat, 21);
  }
}
