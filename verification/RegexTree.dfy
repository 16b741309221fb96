// Trees of compiled expressions, and the stretches of text they match.
module RegexTree {
  import opened Bytes

  // One node per construct the compiler lays out.  Lit is one `exactn' run, Dummy the lone
  // failure point left behind by an unmatched `)', and Group carries the register number
  // and inner-group count written into start_memory and stop_memory.
  datatype Re =
    | Eps
    | Lit(chars: seq<byte>)
    | Any
    | Set(neg: bool, bits: seq<byte>)
    | Bol
    | Eol
    | Dummy
    | Cat(a: Re, b: Re)
    | Alt(a: Re, b: Re)
    | Star(a: Re)
    | Plus(a: Re)
    | Opt(a: Re)
    | Group(reg: nat, inner: nat, a: Re)

  // The text being matched, and the REG_NOTBOL / REG_NOTEOL flags.
  datatype Env = Env(text: seq<byte>, notBol: bool, notEol: bool)

  // `.' under RE_DOT_NEWLINE | RE_DOT_NOT_NULL.
  predicate AnyMatches(c: byte) {
    c != 0
  }

  predicate SetMatches(neg: bool, bits: seq<byte>, c: byte) {
    InMap(bits, c) != neg
  }

  predicate LitAt(env: Env, chars: seq<byte>, i: nat) {
    i + |chars| <= |env.text| && env.text[i..i + |chars|] == chars
  }

  predicate AtBol(env: Env, i: nat) {
    i == 0 && !env.notBol
  }

  predicate AtEol(env: Env, i: nat) {
    i == |env.text| && !env.notEol
  }

  // t matches the text from i up to j.
  ghost predicate Spans(t: Re, env: Env, i: nat, j: nat)
    decreases t, j - i
  {
    i <= j <= |env.text| &&
    match t
    case Eps => i == j
    case Dummy => i == j
    case Lit(cs) => j == i + |cs| && LitAt(env, cs, i)
    case Any => j == i + 1 && AnyMatches(env.text[i])
    case Set(neg, bits) => j == i + 1 && SetMatches(neg, bits, env.text[i])
    case Bol => i == j && AtBol(env, i)
    case Eol => i == j && AtEol(env, i)
    case Cat(a, b) => exists k: nat :: i <= k <= j && Spans(a, env, i, k) && Spans(b, env, k, j)
    case Alt(a, b) => Spans(a, env, i, j) || Spans(b, env, i, j)
    case Star(a) => i == j || exists k: nat :: i < k <= j && Spans(a, env, i, k) && Spans(t, env, k, j)
    case Plus(a) => Spans(a, env, i, j) || exists k: nat :: i < k <= j && Spans(a, env, i, k) && Spans(t, env, k, j)
    case Opt(a) => i == j || Spans(a, env, i, j)
    case Group(_, _, a) => Spans(a, env, i, j)
  }

  lemma {:induction false} CatSplit(a: Re, b: Re, env: Env, i: nat, j: nat) returns (k: nat)
    requires Spans(Cat(a, b), env, i, j)
    ensures i <= k <= j && Spans(a, env, i, k) && Spans(b, env, k, j)
  {
    k :| i <= k <= j && Spans(a, env, i, k) && Spans(b, env, k, j);
  }

  lemma {:induction false} CatJoin(a: Re, b: Re, env: Env, i: nat, k: nat, j: nat)
    requires Spans(a, env, i, k) && Spans(b, env, k, j)
    ensures Spans(Cat(a, b), env, i, j)
  {
  }

  lemma {:induction false} AltSpans(a: Re, b: Re, env: Env, i: nat, j: nat)
    ensures Spans(Alt(a, b), env, i, j) <==> Spans(a, env, i, j) || Spans(b, env, i, j)
  {
  }

  lemma {:induction false} OptSpans(a: Re, env: Env, i: nat, j: nat)
    ensures Spans(Opt(a), env, i, j) <==> Spans(a, env, i, j) || Spans(Eps, env, i, j)
  {
  }

  lemma {:induction false} StarSplit(a: Re, env: Env, i: nat, j: nat) returns (k: nat)
    requires Spans(Star(a), env, i, j) && i != j
    ensures i < k <= j && Spans(a, env, i, k) && Spans(Star(a), env, k, j)
  {
    k :| i < k <= j && Spans(a, env, i, k) && Spans(Star(a), env, k, j);
  }

  lemma {:induction false} PlusSplit(a: Re, env: Env, i: nat, j: nat) returns (k: nat)
    requires Spans(Plus(a), env, i, j) && !Spans(a, env, i, j)
    ensures i < k <= j && Spans(a, env, i, k) && Spans(Plus(a), env, k, j)
  {
    k :| i < k <= j && Spans(a, env, i, k) && Spans(Plus(a), env, k, j);
  }

  // Two trees that match the same stretches of one text.
  ghost predicate Alike(s: Re, t: Re, env: Env) {
    forall i: nat, j: nat :: Spans(s, env, i, j) <==> Spans(t, env, i, j)
  }

  // Alike when s starts at i and t at i'.
  ghost predicate SameFrom(s: Re, i: nat, t: Re, i': nat, env: Env) {
    forall j: nat :: Spans(s, env, i, j) <==> Spans(t, env, i', j)
  }

  lemma {:induction false} CatFrom(s: Re, i: nat, t: Re, i': nat, b: Re, env: Env)
    requires SameFrom(s, i, t, i', env)
    ensures SameFrom(Cat(s, b), i, Cat(t, b), i', env)
  {
    forall j: nat
      ensures Spans(Cat(s, b), env, i, j) <==> Spans(Cat(t, b), env, i', j)
    {
      if Spans(Cat(s, b), env, i, j) {
        var k := CatSplit(s, b, env, i, j);
        assert Spans(t, env, i', k);
      }
      if Spans(Cat(t, b), env, i', j) {
        var k := CatSplit(t, b, env, i', j);
        assert Spans(s, env, i, k);
      }
    }
  }

  lemma {:induction false} CatEps(b: Re, env: Env, i: nat)
    ensures SameFrom(Cat(Eps, b), i, b, i, env)
  {
    forall j: nat
      ensures Spans(Cat(Eps, b), env, i, j) <==> Spans(b, env, i, j)
    {
      if Spans(b, env, i, j) {
        assert Spans(Eps, env, i, i);
      }
    }
  }

  // One turn of the loop, possibly an empty one, is the loop again.
  lemma {:induction false} StarUnfolds(a: Re, env: Env, i: nat, j: nat)
    ensures Spans(Star(a), env, i, j) <==> (i == j <= |env.text| || Spans(Cat(a, Star(a)), env, i, j))
  {
    if Spans(Star(a), env, i, j) && i != j {
      var k := StarSplit(a, env, i, j);
    }
    if Spans(Cat(a, Star(a)), env, i, j) {
      var k := CatSplit(a, Star(a), env, i, j);
    }
  }

  lemma {:induction false} StarOrPlus(a: Re, env: Env, i: nat, j: nat)
    requires i <= j
    ensures Spans(Star(a), env, i, j) && i != j ==> Spans(Plus(a), env, i, j)
    ensures Spans(Plus(a), env, i, j) ==> Spans(Star(a), env, i, j)
    decreases j - i
  {
    if Spans(Star(a), env, i, j) && i != j {
      var k := StarSplit(a, env, i, j);
      StarOrPlus(a, env, k, j);
    }
    if Spans(Plus(a), env, i, j) {
      if Spans(a, env, i, j) {
        assert Spans(Star(a), env, j, j);
      } else {
        var k := PlusSplit(a, env, i, j);
        StarOrPlus(a, env, k, j);
      }
    }
  }

  lemma {:induction false} PlusIsCatStar(a: Re, env: Env, i: nat)
    ensures SameFrom(Plus(a), i, Cat(a, Star(a)), i, env)
  {
    forall j: nat
      ensures Spans(Plus(a), env, i, j) <==> Spans(Cat(a, Star(a)), env, i, j)
    {
      if Spans(Plus(a), env, i, j) {
        if Spans(a, env, i, j) {
          assert Spans(Star(a), env, j, j);
        } else {
          var k := PlusSplit(a, env, i, j);
          StarOrPlus(a, env, k, j);
        }
      }
      if Spans(Cat(a, Star(a)), env, i, j) {
        var k := CatSplit(a, Star(a), env, i, j);
        if k < j { StarOrPlus(a, env, k, j); }
      }
    }
  }
}
