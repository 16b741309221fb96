// The patterns a user writes, as syntax trees: how each is spelled, and what it stands for.  Reading
// the spelling back with regex_compile gives a program for exactly what the pattern stands for.
module RegexGrammar {
  import opened Bytes
  import opened RegexTree
  import opened RegexCode
  import opened RegexBracket
  import opened RegexParse

  // ---- Syntax ----

  datatype Rep = ZeroOrMore | OneOrMore | ZeroOrOne

  datatype Atom =
    | Ch(c: byte)
    | Dot
    | Bracket(neg: bool, items: seq<Range>, hyphenLast: bool)
    | Paren(r: Alts)

  // Repetition characters pile up after one atom; none means the atom just once.
  datatype Piece = Times(a: Atom, reps: seq<Rep>) | LineStart | LineEnd

  datatype Branch = Nil | Cons(head: Piece, tail: Branch)

  datatype Alts = One(b: Branch) | More(b: Branch, rest: Alts)

  // ---- Spelling ----

  predicate Special(c: byte) {
    c == HAT || c == DOLLAR || c == STAR || c == PLUS || c == QUESTION || c == DOT || c == LEFT_BRACKET
    || c == LEFT_PAREN || c == RIGHT_PAREN || c == BAR || c == LEFT_BRACE || c == BACKSLASH
  }

  function ShowRep(r: Rep): byte {
    match r
    case ZeroOrMore => STAR
    case OneOrMore => PLUS
    case ZeroOrOne => QUESTION
  }

  function ShowReps(rs: seq<Rep>): (s: seq<byte>)
    ensures |s| == |rs|
  {
    if rs == [] then [] else [ShowRep(rs[0])] + ShowReps(rs[1..])
  }

  function ShowItem(r: Range): seq<byte> {
    if r.lo == r.hi then [r.lo] else [r.lo, HYPHEN, r.hi]
  }

  function ShowItems(items: seq<Range>): seq<byte> {
    if items == [] then [] else ShowItem(items[0]) + ShowItems(items[1..])
  }

  function ShowMembers(items: seq<Range>, hyphenLast: bool): seq<byte> {
    ShowItems(items) + (if hyphenLast then [HYPHEN] else [])
  }

  function ShowAtom(a: Atom): seq<byte> {
    match a
    case Ch(c) => if Special(c) then [BACKSLASH, c] else [c]
    case Dot => [DOT]
    case Bracket(neg, items, hyphenLast) =>
      [LEFT_BRACKET] + (if neg then [HAT] else []) + ShowMembers(items, hyphenLast) + [RIGHT_BRACKET]
    case Paren(r) => [LEFT_PAREN] + ShowAlts(r) + [RIGHT_PAREN]
  }

  function ShowPiece(p: Piece): seq<byte> {
    match p
    case Times(a, reps) => ShowAtom(a) + ShowReps(reps)
    case LineStart => [HAT]
    case LineEnd => [DOLLAR]
  }

  function ShowBranch(b: Branch): seq<byte> {
    match b
    case Nil => []
    case Cons(head, tail) => ShowPiece(head) + ShowBranch(tail)
  }

  function ShowAlts(r: Alts): seq<byte> {
    match r
    case One(b) => ShowBranch(b)
    case More(b, rest) => ShowBranch(b) + [BAR] + ShowAlts(rest)
  }

  // ---- What can be spelled: no null character, and brackets written so that they read back ----

  // A closing bracket can be a member, or begin a range, only as the first of the list, and so can a hyphen,
  // which can be the last member besides; a hyphen can end any range.
  predicate GoodItem(r: Range, first: bool) {
    && 0 < r.lo <= r.hi && (r.lo < r.hi ==> r.hi != RIGHT_BRACKET)
    && (first || (r.lo != RIGHT_BRACKET && r.lo != HYPHEN))
  }

  predicate GoodItems(items: seq<Range>, first: bool) {
    forall i :: 0 <= i < |items| ==> GoodItem(items[i], first && i == 0)
  }

  // `[:' inside a bracket would begin a character class.
  predicate NoClass(items: seq<Range>) {
    forall i :: 0 <= i < |items| - 1 ==> items[i] == Range(LEFT_BRACKET, LEFT_BRACKET) ==> items[i + 1].lo != COLON
  }

  predicate GoodBracket(neg: bool, items: seq<Range>, hyphenLast: bool) {
    && (items != [] || hyphenLast)
    && GoodItems(items, true)
    && NoClass(items)
    && (!neg && items != [] ==> items[0].lo != HAT)
  }

  predicate GoodAtom(a: Atom) {
    match a
    case Ch(c) => c != 0
    case Dot => true
    case Bracket(neg, items, hyphenLast) => GoodBracket(neg, items, hyphenLast)
    case Paren(r) => Spellable(r)
  }

  predicate GoodPiece(p: Piece) {
    p.Times? ==> GoodAtom(p.a)
  }

  predicate GoodBranch(b: Branch) {
    b.Cons? ==> GoodPiece(b.head) && GoodBranch(b.tail)
  }

  predicate Spellable(r: Alts) {
    GoodBranch(r.b) && (r.More? ==> Spellable(r.rest))
  }

  // ---- Patterns whose loops repeat one character ----

  // A character, `.', or a bracket without the last eight character codes.
  predicate OneCharAtom(a: Atom) {
    match a
    case Paren(_) => false
    case Bracket(neg, items, _) => neg || forall i :: 0 <= i < |items| ==> items[i].hi < 248
    case _ => true
  }

  predicate SimpleAtom(a: Atom) {
    a.Paren? ==> SimplePattern(a.r)
  }

  // `*' and `+' follow one-character atoms only.
  predicate SimplePiece(p: Piece) {
    p.Times? ==> SimpleAtom(p.a) && (OneCharAtom(p.a) || forall i :: 0 <= i < |p.reps| ==> p.reps[i] == ZeroOrOne)
  }

  predicate SimpleBranch(b: Branch) {
    b.Cons? ==> SimplePiece(b.head) && SimpleBranch(b.tail)
  }

  predicate SimplePattern(r: Alts) {
    SimpleBranch(r.b) && (r.More? ==> SimplePattern(r.rest))
  }

  // ---- Meaning ----

  function Ranges(items: seq<Range>, hyphenLast: bool): seq<Range> {
    items + (if hyphenLast then [Range(HYPHEN, HYPHEN)] else [])
  }

  function Repeated(x: Re, r: Rep): Re {
    match r
    case ZeroOrMore => Star(x)
    case OneOrMore => Plus(x)
    case ZeroOrOne => Opt(x)
  }

  // Each repetition applies to all before it, which is one atom.
  function RepeatedAll(x: Re, rs: seq<Rep>): Re
    decreases |rs|
  {
    if rs == [] then x else RepeatedAll(Repeated(x, rs[0]), rs[1..])
  }

  function AtomMeaning(a: Atom): Re {
    match a
    case Ch(c) => Lit([c])
    case Dot => Any
    case Bracket(neg, items, hyphenLast) => Set(neg, MapOf(Ranges(items, hyphenLast)))
    case Paren(r) => Meaning(r)
  }

  function PieceMeaning(p: Piece): Re {
    match p
    case Times(a, reps) => RepeatedAll(AtomMeaning(a), reps)
    case LineStart => Bol
    case LineEnd => Eol
  }

  function BranchMeaning(b: Branch): Re {
    match b
    case Nil => Eps
    case Cons(head, tail) => Cat(PieceMeaning(head), BranchMeaning(tail))
  }

  function Meaning(r: Alts): Re {
    match r
    case One(b) => BranchMeaning(b)
    case More(b, rest) => Alt(BranchMeaning(b), Meaning(rest))
  }

  // ---- Trees that match alike ----

  lemma {:induction false} AlikeTrans(s: Re, t: Re, u: Re, env: Env)
    requires Alike(s, t, env) && Alike(t, u, env)
    ensures Alike(s, u, env)
  {
    hide Spans;
    forall i: nat, j: nat ensures Spans(s, env, i, j) <==> Spans(u, env, i, j) {
      assert Spans(s, env, i, j) <==> Spans(t, env, i, j);
    }
  }

  lemma {:induction false} AlikeSelf(s: Re, env: Env)
    ensures Alike(s, s, env)
  {
    hide Spans;
  }

  lemma {:induction false} AlikeSym(s: Re, t: Re, env: Env)
    requires Alike(s, t, env)
    ensures Alike(t, s, env)
  {
    hide Spans;
  }

  lemma {:induction false} AlikeCat(s: Re, s': Re, t: Re, t': Re, env: Env)
    requires Alike(s, s', env) && Alike(t, t', env)
    ensures Alike(Cat(s, t), Cat(s', t'), env)
  {
    hide Spans;
    forall i: nat, j: nat ensures Spans(Cat(s, t), env, i, j) <==> Spans(Cat(s', t'), env, i, j) {
      if Spans(Cat(s, t), env, i, j) { CatOver(s, s', t, t', env, i, j); }
      if Spans(Cat(s', t'), env, i, j) { CatOver(s', s, t', t, env, i, j); }
    }
  }

  lemma {:induction false} CatOver(s: Re, s': Re, t: Re, t': Re, env: Env, i: nat, j: nat)
    requires Alike(s, s', env) && Alike(t, t', env) && Spans(Cat(s, t), env, i, j)
    ensures Spans(Cat(s', t'), env, i, j)
  {
    hide Spans;
    var k := CatSplit(s, t, env, i, j);
    CatJoin(s', t', env, i, k, j);
  }

  lemma {:induction false} AlikeAlt(s: Re, s': Re, t: Re, t': Re, env: Env)
    requires Alike(s, s', env) && Alike(t, t', env)
    ensures Alike(Alt(s, t), Alt(s', t'), env)
  {
    hide Spans;
    forall i: nat, j: nat ensures Spans(Alt(s, t), env, i, j) <==> Spans(Alt(s', t'), env, i, j) {
      AltSpans(s, t, env, i, j);
      AltSpans(s', t', env, i, j);
    }
  }

  // (ab)c and a(bc)
  lemma {:induction false} AlikeAssoc(a: Re, b: Re, c: Re, env: Env)
    ensures Alike(Cat(Cat(a, b), c), Cat(a, Cat(b, c)), env)
    ensures Alike(Cat(a, Cat(b, c)), Cat(Cat(a, b), c), env)
  {
    hide Spans;
    forall i: nat, j: nat ensures Spans(Cat(Cat(a, b), c), env, i, j) <==> Spans(Cat(a, Cat(b, c)), env, i, j) {
      if Spans(Cat(Cat(a, b), c), env, i, j) { ToRight(a, b, c, env, i, j); }
      if Spans(Cat(a, Cat(b, c)), env, i, j) { ToLeft(a, b, c, env, i, j); }
    }
  }

  lemma {:induction false} ToRight(a: Re, b: Re, c: Re, env: Env, i: nat, j: nat)
    requires Spans(Cat(Cat(a, b), c), env, i, j)
    ensures Spans(Cat(a, Cat(b, c)), env, i, j)
  {
    hide Spans;
    var k := CatSplit(Cat(a, b), c, env, i, j);
    var m := CatSplit(a, b, env, i, k);
    CatJoin(b, c, env, m, k, j);
    CatJoin(a, Cat(b, c), env, i, m, j);
  }

  lemma {:induction false} ToLeft(a: Re, b: Re, c: Re, env: Env, i: nat, j: nat)
    requires Spans(Cat(a, Cat(b, c)), env, i, j)
    ensures Spans(Cat(Cat(a, b), c), env, i, j)
  {
    hide Spans;
    var m := CatSplit(a, Cat(b, c), env, i, j);
    var k := CatSplit(b, c, env, m, j);
    CatJoin(a, b, env, i, m, k);
    CatJoin(Cat(a, b), c, env, i, k, j);
  }

  lemma {:induction false} AlikeEps(a: Re, env: Env)
    ensures Alike(a, Cat(a, Eps), env) && Alike(Cat(Eps, a), a, env)
  {
    forall i: nat, j: nat ensures Spans(Cat(a, Eps), env, i, j) <==> Spans(a, env, i, j) {
      if Spans(a, env, i, j) { assert Spans(Eps, env, j, j); }
    }
    forall i: nat, j: nat ensures Spans(Cat(Eps, a), env, i, j) <==> Spans(a, env, i, j) {
      CatEps(a, env, i);
    }
  }

  // One more character in a run.
  lemma {:induction false} AlikeRun(cs: seq<byte>, c: byte, env: Env)
    ensures Alike(Lit(cs + [c]), Cat(Lit(cs), Lit([c])), env)
  {
    forall i: nat, j: nat ensures Spans(Lit(cs + [c]), env, i, j) <==> Spans(Cat(Lit(cs), Lit([c])), env, i, j) {
      RunSpans(cs, c, env, i, j);
    }
  }

  lemma {:induction false} RunSpans(cs: seq<byte>, c: byte, env: Env, i: nat, j: nat)
    ensures Spans(Lit(cs + [c]), env, i, j) <==> Spans(Cat(Lit(cs), Lit([c])), env, i, j)
  {
    var k, n := i + |cs|, i + |cs| + 1;
    if Spans(Lit(cs + [c]), env, i, j) {
      var w := env.text[i..n];
      assert env.text[i..k] == w[..|cs|] && env.text[k..n] == w[|cs|..];
      assert w == cs + [c];
      assert Spans(Lit(cs), env, i, k) && Spans(Lit([c]), env, k, j);
    }
    if Spans(Cat(Lit(cs), Lit([c])), env, i, j) {
      var m := CatSplit(Lit(cs), Lit([c]), env, i, j);
      assert m == k && j == n;
      assert env.text[i..n] == env.text[i..k] + env.text[k..n];
    }
  }

  // ---- Repetition ----

  // a matched n times in a row.
  ghost predicate InARow(a: Re, n: nat, env: Env, i: nat, j: nat) {
    i <= j <= |env.text|
    && if n == 0 then i == j else exists k: nat :: i <= k <= j && Spans(a, env, i, k) && InARow(a, n - 1, env, k, j)
  }

  lemma {:induction false} InARowStar(a: Re, n: nat, env: Env, i: nat, j: nat)
    requires InARow(a, n, env, i, j)
    ensures Spans(Star(a), env, i, j)
  {
    hide Spans;
    if n == 0 {
      StarUnfolds(a, env, i, j);
    } else {
      var k: nat :| i <= k <= j && Spans(a, env, i, k) && InARow(a, n - 1, env, k, j);
      InARowStar(a, n - 1, env, k, j);
      CatJoin(a, Star(a), env, i, k, j);
      StarUnfolds(a, env, i, j);
    }
  }

  lemma {:induction false} StarInARow(a: Re, env: Env, i: nat, j: nat) returns (n: nat)
    requires Spans(Star(a), env, i, j)
    ensures InARow(a, n, env, i, j)
    decreases j - i
  {
    StarInText(a, env, i, j);
    if i == j {
      n := 0;
    } else {
      var k := StarSplit(a, env, i, j);
      var m := StarInARow(a, env, k, j);
      n := m + 1;
      assert InARow(a, n - 1, env, k, j);
    }
  }

  lemma {:induction false} StarInText(a: Re, env: Env, i: nat, j: nat)
    requires Spans(Star(a), env, i, j)
    ensures i <= j <= |env.text|
  {
  }

  // The tree for `*' matches what some number of copies of its operand match in a row; `+' needs one.
  lemma {:induction false} StarIsInARow(a: Re, env: Env, i: nat, j: nat)
    ensures Spans(Star(a), env, i, j) <==> exists n: nat :: InARow(a, n, env, i, j)
    ensures Spans(Plus(a), env, i, j) <==> exists n: nat :: n > 0 && InARow(a, n, env, i, j)
  {
    hide Spans, InARow;
    if Spans(Star(a), env, i, j) { var n := StarInARow(a, env, i, j); }
    if n: nat :| InARow(a, n, env, i, j) { InARowStar(a, n, env, i, j); }
    if Spans(Plus(a), env, i, j) { var n := PlusInARow(a, env, i, j); }
    if n: nat :| n > 0 && InARow(a, n, env, i, j) { InARowPlus(a, n, env, i, j); }
  }

  lemma {:induction false} PlusInARow(a: Re, env: Env, i: nat, j: nat) returns (n: nat)
    requires Spans(Plus(a), env, i, j)
    ensures n > 0 && InARow(a, n, env, i, j)
  {
    hide Spans, InARow;
    PlusIsCatStar(a, env, i);
    var k := CatSplit(a, Star(a), env, i, j);
    var m := StarInARow(a, env, k, j);
    OneMore(a, m, env, i, k, j);
    n := m + 1;
  }

  lemma {:induction false} InARowPlus(a: Re, n: nat, env: Env, i: nat, j: nat)
    requires n > 0 && InARow(a, n, env, i, j)
    ensures Spans(Plus(a), env, i, j)
  {
    hide Spans, InARow;
    var k := OneLess(a, n, env, i, j);
    InARowStar(a, n - 1, env, k, j);
    CatJoin(a, Star(a), env, i, k, j);
    PlusIsCatStar(a, env, i);
    assert Spans(Plus(a), env, i, j) <==> Spans(Cat(a, Star(a)), env, i, j);
  }

  lemma {:induction false} OneMore(a: Re, n: nat, env: Env, i: nat, k: nat, j: nat)
    requires Spans(a, env, i, k) && InARow(a, n, env, k, j)
    ensures InARow(a, n + 1, env, i, j)
  {
  }

  lemma {:induction false} OneLess(a: Re, n: nat, env: Env, i: nat, j: nat) returns (k: nat)
    requires n > 0 && InARow(a, n, env, i, j)
    ensures Spans(a, env, i, k) && InARow(a, n - 1, env, k, j)
  {
    k :| i <= k <= j && Spans(a, env, i, k) && InARow(a, n - 1, env, k, j);
  }

  // ---- Loops over alike operands ----

  lemma {:induction false} AlikeLoops(x: Re, y: Re, env: Env)
    requires Alike(x, y, env)
    ensures Alike(Star(x), Star(y), env) && Alike(Plus(x), Plus(y), env) && Alike(Opt(x), Opt(y), env)
  {
    hide Spans;
    forall i: nat, j: nat ensures Spans(Star(x), env, i, j) <==> Spans(Star(y), env, i, j) {
      if Spans(Star(x), env, i, j) { StarOver(x, y, env, i, j); }
      if Spans(Star(y), env, i, j) { StarOver(y, x, env, i, j); }
    }
    forall i: nat, j: nat ensures Spans(Plus(x), env, i, j) <==> Spans(Plus(y), env, i, j) {
      if Spans(Plus(x), env, i, j) { PlusOver(x, y, env, i, j); }
      if Spans(Plus(y), env, i, j) { PlusOver(y, x, env, i, j); }
    }
    forall i: nat, j: nat ensures Spans(Opt(x), env, i, j) <==> Spans(Opt(y), env, i, j) {
      OptSpans(x, env, i, j);
      OptSpans(y, env, i, j);
    }
  }

  lemma {:induction false} StarOver(x: Re, y: Re, env: Env, i: nat, j: nat)
    requires Alike(x, y, env) && Spans(Star(x), env, i, j)
    ensures Spans(Star(y), env, i, j)
    decreases j - i
  {
    hide Spans;
    StarUnfolds(y, env, i, j);
    StarInText(x, env, i, j);
    if i != j {
      var k := StarSplit(x, env, i, j);
      StarOver(x, y, env, k, j);
      CatJoin(y, Star(y), env, i, k, j);
    }
  }

  lemma {:induction false} PlusOver(x: Re, y: Re, env: Env, i: nat, j: nat)
    requires Alike(x, y, env) && Spans(Plus(x), env, i, j)
    ensures Spans(Plus(y), env, i, j)
  {
    hide Spans;
    PlusIsCatStar(x, env, i);
    PlusIsCatStar(y, env, i);
    assert Spans(Cat(x, Star(x)), env, i, j);
    var k := CatSplit(x, Star(x), env, i, j);
    StarOver(x, y, env, k, j);
    CatJoin(y, Star(y), env, i, k, j);
    assert Spans(Plus(y), env, i, j) <==> Spans(Cat(y, Star(y)), env, i, j);
  }

  // Two repetitions in a row are one: only `??' stays `?', only `++' stays `+'.
  lemma {:induction false} TwoLoops(x: Re, zero: bool, many: bool, r: Rep, env: Env)
    requires zero || many
    ensures Alike(Repeated(Looped(x, zero, many), r), Looped(x, zero || r != OneOrMore, many || r != ZeroOrOne), env)
  {
    hide Spans;
    var y, z := Repeated(Looped(x, zero, many), r), Looped(x, zero || r != OneOrMore, many || r != ZeroOrOne);
    forall i: nat, j: nat ensures Spans(y, env, i, j) <==> Spans(z, env, i, j) {
      TwoLoopsAt(x, zero, many, r, env, i, j);
    }
  }

  lemma {:induction false} TwoLoopsAt(x: Re, zero: bool, many: bool, r: Rep, env: Env, i: nat, j: nat)
    requires zero || many
    ensures Spans(Repeated(Looped(x, zero, many), r), env, i, j)
      <==> Spans(Looped(x, zero || r != OneOrMore, many || r != ZeroOrOne), env, i, j)
  {
    hide Spans;
    var y := Looped(x, zero, many);
    LoopInStar(x, zero, many, env);
    match r
    case ZeroOrMore =>
      if Spans(Star(y), env, i, j) { StarOfStar(x, y, env, i, j); }
      if Spans(Star(x), env, i, j) { StarWithin(x, y, env, i, j); }
    case OneOrMore => PlusOfLoop(x, zero, many, env, i, j);
    case ZeroOrOne => OptOfLoop(x, zero, many, env, i, j);
  }

  // A loop over x matches nothing but runs of x, and at least x itself.
  ghost predicate Between(x: Re, y: Re, env: Env) {
    forall i: nat, j: nat :: (Spans(y, env, i, j) ==> Spans(Star(x), env, i, j))
      && (Spans(x, env, i, j) ==> Spans(y, env, i, j))
  }

  lemma {:induction false} LoopInStar(x: Re, zero: bool, many: bool, env: Env)
    requires zero || many
    ensures Between(x, Looped(x, zero, many), env)
  {
    hide Spans;
    var y := Looped(x, zero, many);
    forall i: nat, j: nat
      ensures (Spans(y, env, i, j) ==> Spans(Star(x), env, i, j)) && (Spans(x, env, i, j) ==> Spans(y, env, i, j))
    {
      LoopBasics(x, env, i, j);
    }
  }

  lemma {:induction false} LoopBasics(x: Re, env: Env, i: nat, j: nat)
    ensures Spans(x, env, i, j) ==> Spans(Star(x), env, i, j) && Spans(Plus(x), env, i, j) && Spans(Opt(x), env, i, j)
    ensures Spans(Plus(x), env, i, j) || Spans(Opt(x), env, i, j) ==> Spans(Star(x), env, i, j)
    ensures Spans(Star(x), env, i, j) <==> (i == j <= |env.text| || Spans(Plus(x), env, i, j))
    ensures Spans(Opt(x), env, i, j) <==> (i == j <= |env.text| || Spans(x, env, i, j))
  {
    InText(x, env, i, j);
    InText(Plus(x), env, i, j);
    InText(Star(x), env, i, j);
    if i <= j { StarOrPlus(x, env, i, j); }
  }

  lemma {:induction false} InText(t: Re, env: Env, i: nat, j: nat)
    ensures Spans(t, env, i, j) ==> i <= j <= |env.text|
  {
  }

  lemma {:induction false} StarOfStar(x: Re, y: Re, env: Env, i: nat, j: nat)
    requires Between(x, y, env) && Spans(Star(y), env, i, j)
    ensures Spans(Star(x), env, i, j)
    decreases j - i
  {
    hide Spans;
    StarUnfolds(x, env, i, j);
    StarInText(y, env, i, j);
    if i != j {
      var k := StarSplit(y, env, i, j);
      StarOfStar(x, y, env, k, j);
      StarAppend(x, env, i, k, j);
    }
  }

  lemma {:induction false} StarAppend(x: Re, env: Env, i: nat, k: nat, j: nat)
    requires Spans(Star(x), env, i, k) && Spans(Star(x), env, k, j)
    ensures Spans(Star(x), env, i, j)
    decreases k - i
  {
    hide Spans;
    StarInText(x, env, i, k);
    StarUnfolds(x, env, i, j);
    if i != k {
      var m := StarSplit(x, env, i, k);
      StarAppend(x, env, m, k, j);
      CatJoin(x, Star(x), env, i, m, j);
    }
  }

  lemma {:induction false} StarWithin(x: Re, y: Re, env: Env, i: nat, j: nat)
    requires Between(x, y, env) && Spans(Star(x), env, i, j)
    ensures Spans(Star(y), env, i, j)
    decreases j - i
  {
    hide Spans;
    StarUnfolds(y, env, i, j);
    StarInText(x, env, i, j);
    if i != j {
      var k := StarSplit(x, env, i, j);
      StarWithin(x, y, env, k, j);
      CatJoin(y, Star(y), env, i, k, j);
    }
  }

  lemma {:induction false} PlusOfLoop(x: Re, zero: bool, many: bool, env: Env, i: nat, j: nat)
    requires zero || many
    ensures Spans(Plus(Looped(x, zero, many)), env, i, j) <==> Spans(Looped(x, zero, true), env, i, j)
  {
    hide Spans;
    var y := Looped(x, zero, many);
    LoopInStar(x, zero, many, env);
    LoopBasics(y, env, i, j);
    LoopBasics(x, env, i, j);
    if Spans(Plus(y), env, i, j) {
      StarOfStar(x, y, env, i, j);
      if !zero && i == j {
        EmptyPlus(y, env, i);
      }
    }
    if Spans(Looped(x, zero, true), env, i, j) {
      StarWithin(x, y, env, i, j);
    }
  }

  lemma {:induction false} EmptyPlus(y: Re, env: Env, i: nat)
    requires Spans(Plus(y), env, i, i)
    ensures Spans(y, env, i, i)
  {
  }

  lemma {:induction false} OptOfLoop(x: Re, zero: bool, many: bool, env: Env, i: nat, j: nat)
    requires zero || many
    ensures Spans(Opt(Looped(x, zero, many)), env, i, j) <==> Spans(Looped(x, true, many), env, i, j)
  {
    hide Spans;
    LoopBasics(Looped(x, zero, many), env, i, j);
    LoopBasics(x, env, i, j);
  }
}
