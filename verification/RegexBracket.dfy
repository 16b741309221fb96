// Bracket expressions: which characters are listed, and the bitmap that holds them.
module RegexBracket {
  import opened Bytes
  import opened RegexTree

  // A stretch of characters, a single one being a stretch of one.
  datatype Range = Range(lo: byte, hi: byte)

  predicate InRange(r: Range, c: byte) {
    r.lo <= c <= r.hi
  }

  predicate Listed(ranges: seq<Range>, c: byte) {
    exists i :: 0 <= i < |ranges| && InRange(ranges[i], c)
  }

  const MAP_BYTES := 32

  function Blank(): (s: seq<byte>)
    ensures |s| == MAP_BYTES
  {
    seq(MAP_BYTES, _ => 0)
  }

  // The bitmap once the bit of c is set.
  function Marked(bits: seq<byte>, c: byte): (s: seq<byte>)
    requires |bits| == MAP_BYTES
    ensures |s| == MAP_BYTES
  {
    bits[c / 8 := WithBit(bits[c / 8], c)]
  }

  function MarkedRange(bits: seq<byte>, lo: nat, hi: byte): (s: seq<byte>)
    requires |bits| == MAP_BYTES && lo <= 256
    ensures |s| == MAP_BYTES
    decreases hi + 1 - lo
  {
    if lo > hi then bits else MarkedRange(Marked(bits, lo), lo + 1, hi)
  }

  function MapOf(ranges: seq<Range>): (s: seq<byte>)
    ensures |s| == MAP_BYTES
  {
    if ranges == [] then Blank()
    else
      var r := ranges[|ranges| - 1];
      MarkedRange(MapOf(ranges[..|ranges| - 1]), r.lo, r.hi)
  }

  // The map without the zero bytes at its end.
  function Trimmed(bits: seq<byte>): (s: seq<byte>)
    ensures |s| <= |bits|
  {
    if bits == [] || bits[|bits| - 1] != 0 then bits else Trimmed(bits[..|bits| - 1])
  }

  lemma {:induction false} MarkedHolds(bits: seq<byte>, c: byte, d: byte)
    requires |bits| == MAP_BYTES
    ensures InMap(Marked(bits, c), d) <==> d == c || InMap(bits, d)
  {
    hide Bit;
    var w := WithBit(bits[c / 8], c);
    assert Bit(w, d % 8) <==> d % 8 == c % 8 || Bit(bits[c / 8], d % 8);
    assert c == c / 8 * 8 + c % 8 && d == d / 8 * 8 + d % 8;
  }

  lemma {:induction false} MarkedRangeHolds(bits: seq<byte>, lo: nat, hi: byte, d: byte)
    requires |bits| == MAP_BYTES && lo <= 256
    ensures InMap(MarkedRange(bits, lo, hi), d) <==> lo <= d <= hi || InMap(bits, d)
    decreases hi + 1 - lo
  {
    hide InMap;
    if lo <= hi {
      MarkedHolds(bits, lo, d);
      MarkedRangeHolds(Marked(bits, lo), lo + 1, hi, d);
    }
  }

  lemma {:induction false} BlankHoldsNothing(c: byte)
    ensures !InMap(Blank(), c)
  {
    ZeroHasNoBits(c % 8);
  }

  lemma {:induction false} ListedMore(ranges: seq<Range>, r: Range, c: byte)
    ensures Listed(ranges + [r], c) <==> Listed(ranges, c) || InRange(r, c)
  {
    var s := ranges + [r];
    assert s[|ranges|] == r;
    if Listed(ranges, c) {
      var i :| 0 <= i < |ranges| && InRange(ranges[i], c);
      assert s[i] == ranges[i];
    }
  }

  // The map built range by range holds exactly the listed characters.
  lemma {:induction false} MapHolds(ranges: seq<Range>, c: byte)
    ensures InMap(MapOf(ranges), c) <==> Listed(ranges, c)
  {
    hide InMap, Listed;
    if ranges == [] {
      BlankHoldsNothing(c);
      NothingListed(c);
    } else {
      var n := |ranges| - 1;
      MapHolds(ranges[..n], c);
      MarkedRangeHolds(MapOf(ranges[..n]), ranges[n].lo, ranges[n].hi, c);
      ListedMore(ranges[..n], ranges[n], c);
      assert ranges == ranges[..n] + [ranges[n]];
    }
  }

  lemma {:induction false} NothingListed(c: byte)
    ensures !Listed([], c)
  {
  }

  // Dropping zero bytes at the end changes no membership.
  lemma {:induction false} TrimmedHolds(bits: seq<byte>, c: byte)
    ensures InMap(Trimmed(bits), c) <==> InMap(bits, c)
  {
    if bits != [] && bits[|bits| - 1] == 0 {
      var n := |bits| - 1;
      TrimmedHolds(bits[..n], c);
      if c / 8 == n { ZeroHasNoBits(c % 8); }
    }
  }

  // The compiled set, negated or not, answers membership for every character.
  lemma {:induction false} BracketMatches(neg: bool, ranges: seq<Range>, c: byte)
    ensures SetMatches(neg, Trimmed(MapOf(ranges)), c) <==> Listed(ranges, c) != neg
  {
    hide InMap, Listed, MapOf, Trimmed;
    MapHolds(ranges, c);
    TrimmedHolds(MapOf(ranges), c);
  }
}
