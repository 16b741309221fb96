// What single atoms and the anchors match, said of the characters of the text alone, and what searches for them
// find.
module RegexAtoms {
  import opened Bytes
  import opened RegexTree
  import opened RegexCode
  import opened RegexBracket
  import opened RegexParse
  import opened RegexGrammar
  import opened RegexExec
  import Engine = RegexEngine
  import Machine = RegexMachine
  import Overflow = RegexOverflow
  import Open = RegexOpen
  import Texts = RegexTexts
  import opened Wrappers

  // ---- Atoms ----

  // The pattern of one atom.
  function Just(a: Atom): Alts {
    One(Cons(Times(a, []), Nil))
  }

  lemma {:induction false} JustSpans(a: Atom, env: Env, i: nat, j: nat)
    ensures Spans(Meaning(Just(a)), env, i, j) <==> Spans(AtomMeaning(a), env, i, j)
  {
    hide AtomMeaning;
    var x := AtomMeaning(a);
    assert BranchMeaning(Nil) == Eps && PieceMeaning(Times(a, [])) == RepeatedAll(x, []) == x;
    assert Meaning(Just(a)) == Cat(x, Eps);
    EndsCat(x, env, i, j);
  }

  lemma {:induction false} EndsCat(x: Re, env: Env, i: nat, j: nat)
    ensures Spans(Cat(x, Eps), env, i, j) <==> Spans(x, env, i, j)
  {
    if Spans(x, env, i, j) { assert Spans(Eps, env, j, j); }
  }

  // `.' matches exactly one character, any but the null character.
  lemma {:induction false} DotSpans(env: Env, i: nat, j: nat)
    ensures Spans(Meaning(Just(Atom.Dot)), env, i, j) <==> j == i + 1 <= |env.text| && env.text[i] != 0
  {
    JustSpans(Atom.Dot, env, i, j);
  }

  // An ordinary or escaped character matches itself and nothing else.
  lemma {:induction false} CharSpans(c: byte, env: Env, i: nat, j: nat)
    ensures Spans(Meaning(Just(Ch(c))), env, i, j) <==> j == i + 1 <= |env.text| && env.text[i] == c
  {
    JustSpans(Ch(c), env, i, j);
    if j == i + 1 <= |env.text| { assert env.text[i..i + 1] == [env.text[i]]; }
  }

  // A bracket matches exactly one character: one that lies in a range listed, or for `[^' one that lies in none.
  lemma {:induction false} BracketSpans(neg: bool, items: seq<Range>, hyphenLast: bool, env: Env, i: nat, j: nat)
    ensures Spans(Meaning(Just(Atom.Bracket(neg, items, hyphenLast))), env, i, j) <==>
      && j == i + 1 <= |env.text|
      && neg != ((hyphenLast && env.text[i] == 45)
                 || exists k :: 0 <= k < |items| && items[k].lo <= env.text[i] <= items[k].hi)
  {
    hide MapOf;
    var ranges := Ranges(items, hyphenLast);
    JustSpans(Atom.Bracket(neg, items, hyphenLast), env, i, j);
    if j == i + 1 <= |env.text| {
      var c := env.text[i];
      MapHolds(ranges, c);
      ListedIn(items, hyphenLast, c);
    }
  }

  lemma {:induction false} ListedIn(items: seq<Range>, hyphenLast: bool, c: byte)
    ensures Listed(Ranges(items, hyphenLast), c) <==>
      (hyphenLast && c == 45) || exists k :: 0 <= k < |items| && items[k].lo <= c <= items[k].hi
  {
    var ranges := Ranges(items, hyphenLast);
    assert forall k :: 0 <= k < |items| ==> ranges[k] == items[k];
    if hyphenLast { assert ranges[|items|] == Range(45, 45) && InRange(ranges[|items|], 45); }
    if k :| 0 <= k < |items| && items[k].lo <= c <= items[k].hi { assert InRange(ranges[k], c); }
  }

  // ---- Anchors ----

  // `^' matches nothing but the beginning of the text, and not even that under REG_NOTBOL.
  lemma {:induction false} HatSpans(b: Branch, env: Env, i: nat, j: nat)
    ensures Spans(Meaning(One(Cons(LineStart, b))), env, i, j) <==>
      i == 0 && !env.notBol && Spans(Meaning(One(b)), env, 0, j)
  {
    hide BranchMeaning;
    var x := BranchMeaning(b);
    assert Meaning(One(b)) == x && Meaning(One(Cons(LineStart, b))) == Cat(Bol, x) by { HatMeaning(b); }
    if Spans(Cat(Bol, x), env, i, j) {
      var k := CatSplit(Bol, x, env, i, j);
    }
    if i == 0 && !env.notBol && Spans(x, env, 0, j) {
      Within(x, env, 0, j);
      assert Spans(Bol, env, 0, 0);
    }
  }

  lemma {:induction false} HatMeaning(b: Branch)
    ensures BranchMeaning(Cons(LineStart, b)) == Cat(Bol, BranchMeaning(b))
  {
  }

  lemma {:induction false} Within(x: Re, env: Env, i: nat, j: nat)
    requires Spans(x, env, i, j)
    ensures i <= j <= |env.text|
  {
  }

  // A branch with `$' at its end.
  function Ended(b: Branch): Branch {
    match b
    case Nil => Cons(LineEnd, Nil)
    case Cons(head, tail) => Cons(head, Ended(tail))
  }

  // `$' matches nothing but the end of the text, and not even that under REG_NOTEOL.
  lemma {:induction false} DollarSpans(b: Branch, env: Env, i: nat, j: nat)
    ensures Spans(Meaning(One(Ended(b))), env, i, j) <==>
      j == |env.text| && !env.notEol && Spans(Meaning(One(b)), env, i, j)
  {
    match b
    case Nil =>
      EndsCat(Eol, env, i, j);
    case Cons(head, tail) =>
      hide PieceMeaning, Ended, Spans;
      var x, y, z := PieceMeaning(head), BranchMeaning(tail), BranchMeaning(Ended(tail));
      EndedMeaning(head, tail);
      if Spans(Cat(x, z), env, i, j) {
        var k := CatSplit(x, z, env, i, j);
        DollarSpans(tail, env, k, j);
        CatJoin(x, y, env, i, k, j);
      }
      if j == |env.text| && !env.notEol && Spans(Cat(x, y), env, i, j) {
        var k := CatSplit(x, y, env, i, j);
        DollarSpans(tail, env, k, j);
        CatJoin(x, z, env, i, k, j);
      }
  }

  lemma {:induction false} EndedMeaning(head: Piece, tail: Branch)
    ensures Meaning(One(Ended(Cons(head, tail)))) == Cat(PieceMeaning(head), BranchMeaning(Ended(tail)))
    ensures Meaning(One(Cons(head, tail))) == Cat(PieceMeaning(head), BranchMeaning(tail))
    ensures Meaning(One(tail)) == BranchMeaning(tail) && Meaning(One(Ended(tail))) == BranchMeaning(Ended(tail))
  {
    hide PieceMeaning;
  }

  // ---- What searches find ----

  lemma {:induction false} DotMatchesFrom(env: Env, i: nat)
    ensures MatchesFrom(Meaning(Just(Atom.Dot)), env, i) <==> i < |env.text| && env.text[i] != 0
  {
    hide Spans, Meaning, Just;
    if j: nat :| Spans(Meaning(Just(Atom.Dot)), env, i, j) { DotSpans(env, i, j); }
    DotSpans(env, i, i + 1);
  }

  // The leftmost match of `.' is the first character that is not null.
  lemma {:induction false} DotLeftmost(env: Env, at: int)
    ensures Leftmost(Meaning(Just(Atom.Dot)), env, at) <==>
      if at == -1 then forall i :: 0 <= i < |env.text| ==> env.text[i] == 0
      else 0 <= at < |env.text| && env.text[at] != 0 && forall i :: 0 <= i < at ==> env.text[i] == 0
  {
    hide MatchesFrom, Meaning, Just;
    forall i: nat ensures MatchesFrom(Meaning(Just(Atom.Dot)), env, i) <==> i < |env.text| && env.text[i] != 0 {
      DotMatchesFrom(env, i);
    }
    forall i | 0 <= i < |env.text| ensures MatchesFrom(Meaning(Just(Atom.Dot)), env, i) <==> env.text[i] != 0 { }
  }

  // The pattern `.' compiles to a program without a fork: a search for it always has room, and finds the first
  // character that is not null, or tells that there is none.
  lemma {:induction false} DotFinds(env: Env, at: int)
    ensures var c := Parse([46]);
      && c.Ok? && WellFormed(c.value.tree) && ShowAlts(Just(Atom.Dot)) == [46]
      && (Searched(Just(Atom.Dot), c.value, env, at) ==>
            if at == -1 then forall i :: 0 <= i < |env.text| ==> env.text[i] == 0
            else 0 <= at < |env.text| && env.text[at] != 0 && forall i :: 0 <= i < at ==> env.text[i] == 0)
  {
    hide Parse, Searched, Leftmost, RoomyText, Astray, Arises, Emit, Overflow.Forks, Meaning;
    DotCompiles();
    DotLeftmost(env, at);
    DotRoom(env);
    SearchedRoomy(Just(Atom.Dot), Compiled(Cat(Eps, Any), 0), env, at);
  }

  lemma {:induction false} SearchedRoomy(r: Alts, c: Compiled, env: Env, at: int)
    requires WellFormed(c.tree) && RoomyText(c, env) && Open.Tame(c.tree)
    ensures Searched(r, c, env, at) ==> Leftmost(Meaning(r), env, at)
  {
    hide Leftmost, RoomyText, Astray, Arises, Open.Tame, Meaning;
  }

  lemma {:induction false} DotCompiles()
    ensures Parse([46]) == Ok(Compiled(Cat(Eps, Any), 0)) && ShowAlts(Just(Atom.Dot)) == [46]
  {
    hide Used, ParseFrom;
    var st := Texts.Top(Eps, Any, false, 0);
    Texts.Starts([46]);
    Texts.Next([46], 0, START, st, 1);
    ParseEnds([46], 1, st);
    assert Tree([], Cat(Eps, Any)) == Cat(Eps, Any);
    assert ShowBranch(Nil) == [] && ShowReps([]) == [];
  }

  lemma {:induction false} DotRoom(env: Env)
    ensures var c := Compiled(Cat(Eps, Any), 0); RoomyText(c, env) && Open.Tame(c.tree)
  {
    var t := Cat(Eps, Any);
    var code := Emit(t);
    assert code == [ANYCHAR] && Fetch(code, 0) == AnyChar;
    assert Overflow.Forks(code, t, 1) == 0;
    assert Overflow.Forks(code, t, 0) == 0;
  }

  // With `^' in front, a match is found at the beginning of the text or nowhere.
  lemma {:induction false} HatFinds(b: Branch, env: Env, at: int)
    ensures Leftmost(Meaning(One(Cons(LineStart, b))), env, at) <==>
      at == if !env.notBol && MatchesFrom(Meaning(One(b)), env, 0) then 0 else -1
  {
    hide Spans, Meaning;
    hide MatchesFrom;
    var t, x := Meaning(One(Cons(LineStart, b))), Meaning(One(b));
    forall i: nat ensures MatchesFrom(t, env, i) <==> i == 0 && !env.notBol && MatchesFrom(x, env, 0) {
      HatMatchesFrom(b, env, i);
    }
    assert MatchesFrom(t, env, 0) <==> !env.notBol && MatchesFrom(x, env, 0);
  }

  lemma {:induction false} HatMatchesFrom(b: Branch, env: Env, i: nat)
    ensures MatchesFrom(Meaning(One(Cons(LineStart, b))), env, i) <==>
      i == 0 && !env.notBol && MatchesFrom(Meaning(One(b)), env, 0)
  {
    hide Spans, Meaning;
    var t, x := Meaning(One(Cons(LineStart, b))), Meaning(One(b));
    if j: nat :| Spans(t, env, i, j) { HatSpans(b, env, i, j); }
    if j: nat :| i == 0 && !env.notBol && Spans(x, env, 0, j) { HatSpans(b, env, i, j); }
  }

  // ---- How the atoms are written ----

  lemma {:induction false} Written()
    ensures ShowAtom(Atom.Dot) == [46] && ShowAtom(Ch(46)) == [92, 46] && ShowAtom(Ch(97)) == [97]
    ensures ShowPiece(LineStart) == [94] && ShowPiece(LineEnd) == [36]
    ensures ShowRep(ZeroOrMore) == 42 && ShowRep(OneOrMore) == 43 && ShowRep(ZeroOrOne) == 63
    ensures forall b: Branch, r: Alts :: ShowAlts(More(b, r)) == ShowBranch(b) + [124] + ShowAlts(r)
    ensures forall r: Alts :: ShowAtom(Paren(r)) == [40] + ShowAlts(r) + [41]
    ensures forall items: seq<Range> ::
      && ShowAtom(Atom.Bracket(false, items, false)) == [91] + ShowItems(items) + [93]
      && ShowAtom(Atom.Bracket(true, items, false)) == [91, 94] + ShowItems(items) + [93]
  {
    hide ShowItems;
    forall items: seq<Range>
      ensures ShowAtom(Atom.Bracket(false, items, false)) == [91] + ShowItems(items) + [93]
      ensures ShowAtom(Atom.Bracket(true, items, false)) == [91, 94] + ShowItems(items) + [93]
    {
      assert ShowItems(items) + [] == ShowItems(items);
    }
  }
}
