// The characters found to begin a match are no more than needed: without anchors, each of them really begins one.
module RegexTight {
  import opened Bytes
  import opened RegexTree
  import opened RegexCode
  import opened RegexFirst

  // No anchors, and every set holds some character.
  ghost predicate Plain(t: Re) {
    match t
    case Bol => false
    case Eol => false
    case Set(neg, bits) => exists c: byte :: SetMatches(neg, bits, c)
    case Cat(a, b) => Plain(a) && Plain(b)
    case Alt(a, b) => Plain(a) && Plain(b)
    case Star(a) => Plain(a)
    case Plus(a) => Plain(a)
    case Opt(a) => Plain(a)
    case Group(_, _, a) => Plain(a)
    case _ => true
  }

  function Alone(w: seq<byte>): Env {
    Env(w, false, false)
  }

  // t matches w, taken as a whole text.
  ghost predicate Takes(t: Re, w: seq<byte>) {
    Spans(t, Alone(w), 0, |w|)
  }

  // ---- Without anchors the surroundings of a stretch do not matter ----

  // The same stretch stands at i in one text and at x in the other.
  predicate SameStretch(env: Env, i: nat, j: nat, env': Env, x: nat) {
    i <= j <= |env.text| && x + (j - i) <= |env'.text| && env.text[i..j] == env'.text[x..x + (j - i)]
  }

  lemma {:induction false} StretchSplit(env: Env, i: nat, k: nat, j: nat, env': Env, x: nat)
    requires SameStretch(env, i, j, env', x) && i <= k <= j
    ensures SameStretch(env, i, k, env', x) && SameStretch(env, k, j, env', x + (k - i))
  {
    SliceTwice(env.text, i, j - i, k - i);
    SliceTwice(env'.text, x, j - i, k - i);
  }

  lemma {:induction false} SliceTwice(s: seq<byte>, x: nat, n: nat, m: nat)
    requires x + n <= |s| && m <= n
    ensures s[x..x + m] == s[x..x + n][..m] && s[x + m..x + n] == s[x..x + n][m..]
  {
  }

  lemma {:induction false} Moved(t: Re, env: Env, i: nat, j: nat, env': Env, x: nat)
    requires Plain(t) && Spans(t, env, i, j) && SameStretch(env, i, j, env', x)
    ensures Spans(t, env', x, x + (j - i))
    decreases t, j - i
  {
    hide SameStretch;
    match t
    case Lit(cs) => MovedLeaf(t, env, i, j, env', x);
    case Any => MovedLeaf(t, env, i, j, env', x);
    case Set(_, _) => MovedLeaf(t, env, i, j, env', x);
    case Cat(a, b) =>
      var k := CatSplit(a, b, env, i, j);
      StretchSplit(env, i, k, j, env', x);
      Moved(a, env, i, k, env', x);
      Moved(b, env, k, j, env', x + (k - i));
      CatJoin(a, b, env', x, x + (k - i), x + (j - i));
    case Alt(a, b) => if Spans(a, env, i, j) { Moved(a, env, i, j, env', x); } else { Moved(b, env, i, j, env', x); }
    case Star(a) => if i == j { MovedNothing(t, env, i, env', x); } else { MovedStar(a, env, i, j, env', x); }
    case Plus(a) => if Spans(a, env, i, j) { Moved(a, env, i, j, env', x); } else { MovedPlus(a, env, i, j, env', x); }
    case Opt(a) => if i == j { MovedNothing(t, env, i, env', x); } else { Moved(a, env, i, j, env', x); }
    case Group(_, _, a) => Moved(a, env, i, j, env', x);
    case _ => MovedNothing(t, env, i, env', x);
  }

  lemma {:induction false} MovedLeaf(t: Re, env: Env, i: nat, j: nat, env': Env, x: nat)
    requires (t.Lit? || t.Any? || t.Set?) && Spans(t, env, i, j) && SameStretch(env, i, j, env', x)
    ensures Spans(t, env', x, x + (j - i))
  {
    if i < j { assert env.text[i..j][0] == env'.text[x..x + (j - i)][0]; }
  }

  lemma {:induction false} MovedNothing(t: Re, env: Env, i: nat, env': Env, x: nat)
    requires t.Eps? || t.Dummy? || t.Star? || t.Opt?
    requires SameStretch(env, i, i, env', x)
    ensures Spans(t, env', x, x)
  {
  }

  lemma {:induction false} MovedStar(a: Re, env: Env, i: nat, j: nat, env': Env, x: nat)
    requires Plain(a) && Spans(Star(a), env, i, j) && i != j && SameStretch(env, i, j, env', x)
    ensures Spans(Star(a), env', x, x + (j - i))
    decreases Star(a), j - i, 0
  {
    hide SameStretch;
    var k := StarSplit(a, env, i, j);
    StretchSplit(env, i, k, j, env', x);
    Moved(a, env, i, k, env', x);
    Moved(Star(a), env, k, j, env', x + (k - i));
    assert x < x + (k - i);
  }

  lemma {:induction false} MovedPlus(a: Re, env: Env, i: nat, j: nat, env': Env, x: nat)
    requires Plain(a) && Spans(Plus(a), env, i, j) && !Spans(a, env, i, j) && SameStretch(env, i, j, env', x)
    ensures Spans(Plus(a), env', x, x + (j - i))
    decreases Plus(a), j - i, 0
  {
    hide SameStretch;
    var k := PlusSplit(a, env, i, j);
    StretchSplit(env, i, k, j, env', x);
    Moved(a, env, i, k, env', x);
    Moved(Plus(a), env, k, j, env', x + (k - i));
    assert x < x + (k - i);
  }

  // ---- Witnesses ----

  lemma {:induction false} TakesBoth(a: Re, b: Re, u: seq<byte>, v: seq<byte>)
    requires Plain(a) && Plain(b) && Takes(a, u) && Takes(b, v)
    ensures Takes(Cat(a, b), u + v)
  {
    hide Spans;
    var w := u + v;
    assert Alone(u).text[0..|u|] == w[0..|u|] && Alone(v).text[0..|v|] == w[|u|..|u| + |v|];
    Moved(a, Alone(u), 0, |u|, Alone(w), 0);
    Moved(b, Alone(v), 0, |v|, Alone(w), |u|);
    CatJoin(a, b, Alone(w), 0, |u|, |w|);
  }

  // A tree that may match nothing does.
  lemma {:induction false} NullTakes(t: Re)
    requires Plain(t) && Null(t)
    ensures Takes(t, [])
  {
    match t
    case Cat(a, b) => NullTakes(a); NullTakes(b); CatJoin(a, b, Alone([]), 0, 0, 0);
    case Alt(a, b) => if Null(a) { NullTakes(a); } else { NullTakes(b); }
    case Plus(a) => NullTakes(a);
    case Group(_, _, a) => NullTakes(a);
    case _ =>
  }

  // Every tree matches some text.
  lemma {:induction false} SomeTaken(t: Re) returns (w: seq<byte>)
    requires Plain(t)
    ensures Takes(t, w)
  {
    match t
    case Lit(cs) =>
      w := cs;
      assert w[0..|w|] == cs;
    case Any => w := [1];
    case Set(neg, bits) =>
      var c: byte :| SetMatches(neg, bits, c);
      w := [c];
    case Cat(a, b) =>
      var u := SomeTaken(a);
      var v := SomeTaken(b);
      TakesBoth(a, b, u, v);
      w := u + v;
    case Alt(a, _) => w := SomeTaken(a);
    case Plus(a) => w := SomeTaken(a);
    case Group(_, _, a) => w := SomeTaken(a);
    case _ => w := [];
  }

  lemma {:induction false} StartsTaken(t: Re, c: byte) returns (w: seq<byte>)
    requires Plain(t) && Starts(t, c) && c != 0
    ensures w != [] && w[0] == c && Takes(t, w)
  {
    match t
    case Lit(cs) =>
      w := cs;
      assert w[0..|w|] == cs;
    case Any => w := [c];
    case Set(_, _) => w := [c];
    case Cat(a, b) =>
      if Starts(a, c) {
        var u := StartsTaken(a, c);
        var v := SomeTaken(b);
        TakesBoth(a, b, u, v);
        w := u + v;
      } else {
        NullTakes(a);
        var v := StartsTaken(b, c);
        TakesBoth(a, b, [], v);
        w := [] + v;
      }
    case Alt(a, b) => if Starts(a, c) { w := StartsTaken(a, c); } else { w := StartsTaken(b, c); }
    case Star(a) =>
      w := StartsTaken(a, c);
      assert Spans(Star(a), Alone(w), |w|, |w|);
    case Plus(a) => w := StartsTaken(a, c);
    case Opt(a) => w := StartsTaken(a, c);
    case Group(_, _, a) => w := StartsTaken(a, c);
    case _ =>
  }

  // So the analysis is exact for trees without anchors: a character other than null is found exactly if some text
  // that begins with it matches, and the empty match exactly if the empty text does.
  lemma {:induction false} FirstExact(t: Re, c: byte)
    requires WellFormed(t) && Plain(t) && c != 0
    ensures Starts(t, c) <==> exists w: seq<byte> :: w != [] && w[0] == c && Takes(t, w)
    ensures Null(t) <==> Takes(t, [])
  {
    hide Spans, Starts, Null, Plain, WellFormed;
    if Starts(t, c) { var w := StartsTaken(t, c); }
    if w: seq<byte> :| w != [] && w[0] == c && Takes(t, w) { FirstSound(t, Alone(w), 0, |w|); }
    if Null(t) { NullTakes(t); }
    if Takes(t, []) { FirstSound(t, Alone([]), 0, 0); }
  }
}
