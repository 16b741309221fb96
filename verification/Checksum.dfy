// The Internet checksum (RFC 1071) as ip_csum and udp_csum compute it on a little-endian machine:
// a 32-bit sum of the words in memory, two folds, and the complement.
module Checksum {
  import opened Bytes

  const WORD := 65536
  const ONES := 65535
  const LONG := 4294967296
  const IPPROTO_UDP := 17

  // ---- Words in memory, and their sum ----

  // A sixteen-bit word as the machine reads it, low byte first.
  function WordAt(buf: seq<byte>, i: nat): (w: nat)
    requires 2 * i + 1 < |buf|
    ensures w < WORD
  {
    var low: nat, high: nat := buf[2 * i], buf[2 * i + 1];
    low + 256 * high
  }

  // The sum of the first n words.
  function WordSum(buf: seq<byte>, n: nat): (s: nat)
    requires 2 * n <= |buf|
    ensures s <= ONES * n
  {
    if n == 0 then 0 else WordSum(buf, n - 1) + WordAt(buf, n - 1)
  }

  // One's-complement addition: a carry out of the top bit comes back in at the bottom.
  function OnesAdd(a: nat, b: nat): (r: nat)
    requires a < WORD && b < WORD
    ensures r < WORD
  {
    if a + b >= WORD then a + b - ONES else a + b
  }

  function OnesSum(buf: seq<byte>, n: nat): (r: nat)
    requires 2 * n <= |buf|
    ensures r < WORD
  {
    if n == 0 then 0 else OnesAdd(OnesSum(buf, n - 1), WordAt(buf, n - 1))
  }

  // The checksum of RFC 1071: the complement of the one's-complement sum.
  function Checksum(buf: seq<byte>): (r: nat)
    ensures r < WORD
  {
    ONES - OnesSum(buf, |buf| / 2)
  }

  // ---- One's-complement sums are sums modulo 65535, with 65535 for nonzero multiples ----

  function Canonical(n: nat): (c: nat)
    ensures c <= ONES && (c == 0 <==> n == 0)
  {
    if n == 0 then 0 else 1 + (n - 1) % ONES
  }

  lemma {:induction false} CanonicalIs(n: nat, k: nat, c: nat)
    requires n == ONES * k + c && 1 <= c <= ONES
    ensures Canonical(n) == c
  {
    assert n - 1 == ONES * k + (c - 1);
    assert (n - 1) % ONES == c - 1;
  }

  // n is a whole number of turns above its canonical form.
  lemma {:induction false} Turns(n: nat) returns (k: nat)
    ensures n == ONES * k + Canonical(n)
  {
    if n == 0 {
      k := 0;
    } else {
      k := (n - 1) / ONES;
    }
  }

  lemma {:induction false} CanonicalStep(n: nat, w: nat)
    requires w < WORD
    ensures Canonical(n + w) == OnesAdd(Canonical(n), w)
  {
    var k := Turns(n);
    var c := Canonical(n) + w;
    if c >= WORD {
      CanonicalIs(n + w, k + 1, c - ONES);
    } else if c > 0 {
      CanonicalIs(n + w, k, c);
    }
  }

  lemma {:induction false} SumIsCanonical(buf: seq<byte>, n: nat)
    requires 2 * n <= |buf|
    ensures OnesSum(buf, n) == Canonical(WordSum(buf, n))
  {
    hide Canonical;
    if n > 0 {
      SumIsCanonical(buf, n - 1);
      CanonicalStep(WordSum(buf, n - 1), WordAt(buf, n - 1));
    } else {
      assert Canonical(0) == 0;
    }
  }

  // ---- Two folds ----

  // sum = (sum >> 16) + (sum & 0xffff), then sum += sum >> 16, then the low sixteen bits.
  function Folded(s: nat): (r: nat)
    requires s < LONG
    ensures r < WORD
  {
    var once := s / WORD + s % WORD;
    (once + once / WORD) % WORD
  }

  // Two folds are enough for any 32-bit sum.
  lemma {:induction false} TwoFolds(s: nat)
    requires s < LONG
    ensures Folded(s) == Canonical(s)
  {
    var h, l := s / WORD, s % WORD;
    assert s == WORD * h + l && h < WORD;
    var once := h + l;
    assert s == ONES * h + once;
    if once >= WORD {
      assert once / WORD == 1;
      CanonicalIs(s, h + 1, once - ONES);
      assert Folded(s) == (once + 1) % WORD == once - ONES;
    } else if once > 0 {
      assert once / WORD == 0;
      CanonicalIs(s, h, once);
    }
  }

  // The sum the loop leaves in a 32-bit register.
  function Register(buf: seq<byte>): (r: nat)
    ensures r < LONG
  {
    WordSum(buf, |buf| / 2) % LONG
  }

  // ip_csum, for a buffer of any length.
  method IpCsum(buf: seq<byte>) returns (r: nat)
    ensures r == ONES - Folded(Register(buf))
    ensures WordSum(buf, |buf| / 2) < LONG ==> r == Checksum(buf)
  {
    hide WordSum, WordAt, Canonical, OnesSum, Checksum;
    var nwords := |buf| / 2;
    var sum := 0;
    NoWords(buf);
    var i := 0;
    while nwords > 0
      invariant 0 <= nwords && i + nwords == |buf| / 2
      invariant sum == WordSum(buf, i) % LONG
    {
      WrapAdd(WordSum(buf, i), WordAt(buf, i));
      NextWord(buf, i);
      sum := (sum + WordAt(buf, i)) % LONG;
      i, nwords := i + 1, nwords - 1;
    }
    var once := sum / WORD + sum % WORD;
    var twice := once + once / WORD;
    r := ONES - twice % WORD;
    if WordSum(buf, |buf| / 2) < LONG { SmallSum(buf); }
  }

  lemma {:induction false} NoWords(buf: seq<byte>)
    ensures WordSum(buf, 0) == 0
  {
  }

  lemma {:induction false} NextWord(buf: seq<byte>, i: nat)
    requires 2 * i + 1 < |buf|
    ensures WordSum(buf, i + 1) == WordSum(buf, i) + WordAt(buf, i)
  {
  }

  lemma {:induction false} WrapAdd(s: nat, w: nat)
    ensures (s % LONG + w) % LONG == (s + w) % LONG
  {
    var q := s / LONG;
    assert s + w == LONG * q + (s % LONG + w);
  }

  lemma {:induction false} SmallSum(buf: seq<byte>)
    requires WordSum(buf, |buf| / 2) < LONG
    ensures ONES - Folded(Register(buf)) == Checksum(buf)
  {
    hide Folded, WordSum, OnesSum, Canonical;
    var s := WordSum(buf, |buf| / 2);
    assert s % LONG == s;
    TwoFolds(Register(buf));
    SumIsCanonical(buf, |buf| / 2);
  }

  // The register wraps past 32 bits, and then the result is wrong: for every buffer whose length fits
  // a signed 32-bit number, the checksum is right exactly when the sum of its words fits the register.
  lemma {:induction false} RightIffItFits(buf: seq<byte>)
    requires |buf| < 2147483648
    ensures ONES - Folded(Register(buf)) == Checksum(buf) <==> WordSum(buf, |buf| / 2) < LONG
  {
    var s := WordSum(buf, |buf| / 2);
    SumIsCanonical(buf, |buf| / 2);
    TwoFolds(Register(buf));
    WrapIsVisible(s, s / LONG, s % LONG);
  }

  lemma {:induction false} WrapIsVisible(s: nat, q: nat, r: nat)
    requires s == LONG * q + r && r < LONG && s <= ONES * 1073741824
    ensures Canonical(r) == Canonical(s) <==> q == 0
  {
    assert q < 16384;
    if q > 0 && r > 0 {
      var k := Turns(r);
      var c := Canonical(r);
      assert LONG == 65537 * ONES + 1;
      assert s == ONES * (65537 * q + k) + (c + q);
      if c + q <= ONES {
        CanonicalIs(s, 65537 * q + k, c + q);
      } else {
        CanonicalIs(s, 65537 * q + k + 1, c + q - ONES);
      }
    }
  }

  // ---- Odd lengths ----

  // RFC 1071 pads an odd buffer with a zero byte; the code leaves its last byte out.
  function Padded(buf: seq<byte>): seq<byte> {
    if |buf| % 2 == 0 then buf else buf + [0]
  }

  lemma {:induction false} SumOfPrefix(buf: seq<byte>, more: seq<byte>, n: nat)
    requires 2 * n <= |buf|
    ensures WordSum(buf + more, n) == WordSum(buf, n)
  {
    if n > 0 {
      SumOfPrefix(buf, more, n - 1);
      assert (buf + more)[2 * (n - 1)] == buf[2 * (n - 1)] && (buf + more)[2 * (n - 1) + 1] == buf[2 * (n - 1) + 1];
    }
  }

  // So it agrees with RFC 1071 exactly when the length is even or the last byte is zero.
  lemma {:induction false} RightIffEven(buf: seq<byte>)
    ensures Checksum(buf) == Checksum(Padded(buf)) <==> |buf| % 2 == 0 || buf[|buf| - 1] == 0
  {
    if |buf| % 2 == 1 {
      var n := |buf| / 2;
      var p := Padded(buf);
      assert |p| / 2 == n + 1 && |buf| - 1 == 2 * n && p[2 * n] == buf[2 * n] && p[2 * n + 1] == 0;
      SumOfPrefix(buf, [0], n);
      NextWord(p, n);
      SumIsCanonical(buf, n);
      SumIsCanonical(p, n + 1);
      SmallChange(WordSum(buf, n), buf[2 * n]);
    }
  }

  lemma {:induction false} SmallChange(s: nat, b: nat)
    requires b < ONES
    ensures Canonical(s + b) == Canonical(s) <==> b == 0
  {
    if b > 0 && s > 0 {
      var k := Turns(s);
      var c := Canonical(s);
      if c + b <= ONES { CanonicalIs(s + b, k, c + b); } else { CanonicalIs(s + b, k + 1, c + b - ONES); }
    }
  }

  // ---- A stored checksum verifies ----

  // The buffer once the checksum has been stored, as the machine stores it, in its word k.
  function Stored(buf: seq<byte>, k: nat, w: nat): (r: seq<byte>)
    requires 2 * k + 1 < |buf| && w < WORD
    ensures |r| == |buf|
  {
    buf[2 * k := w % 256][2 * k + 1 := w / 256]
  }

  lemma {:induction false} StoredSum(buf: seq<byte>, k: nat, w: nat, n: nat)
    requires 2 * k + 1 < |buf| && w < WORD && 2 * n <= |buf| && buf[2 * k] == 0 && buf[2 * k + 1] == 0
    ensures WordSum(Stored(buf, k, w), n) == WordSum(buf, n) + (if k < n then w else 0)
  {
    if n > 0 { StoredSum(buf, k, w, n - 1); }
  }

  // Recomputing over a buffer that holds its own checksum, in a word that was zero, gives zero.
  lemma {:induction false} StoredVerifies(buf: seq<byte>, k: nat)
    requires 2 * k + 1 < |buf| && buf[2 * k] == 0 && buf[2 * k + 1] == 0
    ensures Checksum(Stored(buf, k, Checksum(buf))) == 0
  {
    var n := |buf| / 2;
    var s, w := WordSum(buf, n), Checksum(buf);
    StoredSum(buf, k, w, n);
    SumIsCanonical(buf, n);
    SumIsCanonical(Stored(buf, k, w), n);
    var turns := Turns(s);
    assert s + w == ONES * turns + ONES;
    CanonicalIs(s + w, turns, ONES);
  }

  // ---- Byte order ----

  function Swapped(w: nat): (r: nat)
    requires w < WORD
    ensures r < WORD
  {
    (w % 256) * 256 + w / 256
  }

  // The buffer with the two bytes of every word exchanged.
  function SwappedBuf(buf: seq<byte>): (r: seq<byte>)
    requires |buf| % 2 == 0
    ensures |r| == |buf|
  {
    seq(|buf|, i requires 0 <= i < |buf| => if i % 2 == 0 then buf[i + 1] else buf[i - 1])
  }

  lemma {:induction false} SwapIsTimes256(w: nat)
    requires w < WORD
    ensures 256 * w == ONES * (w / 256) + Swapped(w)
  {
    assert w == 256 * (w / 256) + w % 256;
  }

  // Swapping commutes with taking the canonical form of a sum.
  lemma {:induction false} SwapCanonical(s: nat, t: nat, k: nat)
    requires 256 * s == ONES * k + t && (t == 0 <==> s == 0)
    ensures Canonical(t) == Swapped(Canonical(s))
  {
    if s > 0 {
      var m := Turns(s);
      var c := Canonical(s);
      SwapIsTimes256(c);
      // 256 s == 65535 (256 m + c / 256) + Swapped(c)
      var n := 256 * m + c / 256 - k;
      assert t == ONES * n + Swapped(c);
      assert Swapped(c) > 0 by { assert c == 256 * (c / 256) + c % 256; }
      assert n >= 0;
      CanonicalIs(t, n, Swapped(c));
    }
  }

  lemma {:induction false} SwappedSums(buf: seq<byte>, n: nat) returns (k: nat)
    requires |buf| % 2 == 0 && 2 * n <= |buf|
    ensures 256 * WordSum(buf, n) == ONES * k + WordSum(SwappedBuf(buf), n)
    ensures WordSum(buf, n) == 0 <==> WordSum(SwappedBuf(buf), n) == 0
  {
    if n == 0 {
      k := 0;
    } else {
      var m := SwappedSums(buf, n - 1);
      var w, v := WordAt(buf, n - 1), WordAt(SwappedBuf(buf), n - 1);
      SwappedWord(buf, n - 1);
      SwapIsTimes256(w);
      k := m + w / 256;
    }
  }

  lemma {:induction false} SwappedWord(buf: seq<byte>, i: nat)
    requires |buf| % 2 == 0 && 2 * i + 1 < |buf|
    ensures WordAt(SwappedBuf(buf), i) == Swapped(WordAt(buf, i))
    ensures WordAt(SwappedBuf(buf), i) == 0 <==> WordAt(buf, i) == 0
  {
    var lo: nat, hi: nat := buf[2 * i], buf[2 * i + 1];
    var s := SwappedBuf(buf);
    assert s[2 * i] == buf[2 * i + 1] && s[2 * i + 1] == buf[2 * i];
    assert (lo + 256 * hi) % 256 == lo && (lo + 256 * hi) / 256 == hi;
  }

  // Swapping the bytes of every word swaps the bytes of the checksum: summing words in the machine's
  // order and storing the result in the machine's order is the same as doing both in network order.
  lemma {:induction false} ByteOrderIndependent(buf: seq<byte>)
    requires |buf| % 2 == 0
    ensures Checksum(SwappedBuf(buf)) == Swapped(Checksum(buf))
  {
    hide Canonical, Swapped, WordAt;
    var n := |buf| / 2;
    var k := SwappedSums(buf, n);
    SumIsCanonical(buf, n);
    SumIsCanonical(SwappedBuf(buf), n);
    SwapCanonical(WordSum(buf, n), WordSum(SwappedBuf(buf), n), k);
    SwapComplement(Canonical(WordSum(buf, n)));
  }

  lemma {:induction false} SwapComplement(c: nat)
    requires c < WORD
    ensures Swapped(ONES - c) == ONES - Swapped(c)
  {
    var lo, hi := c % 256, c / 256;
    assert c == 256 * hi + lo;
    assert ONES - c == 256 * (255 - hi) + (255 - lo);
    assert (ONES - c) % 256 == 255 - lo && (ONES - c) / 256 == 255 - hi;
  }

  // ---- UDP ----

  // The pseudo-header of RFC 768 as udp_csum lays it out in memory: addresses, zero, protocol, length.
  function PseudoHeader(saddr: seq<byte>, daddr: seq<byte>, nbytes: nat): (r: seq<byte>)
    requires |saddr| == 4 && |daddr| == 4
    ensures |r| == 12
  {
    saddr + daddr + [0, IPPROTO_UDP] + [(nbytes / 256) % 256, nbytes % 256]
  }

  lemma {:induction false} SumOfTwo(a: seq<byte>, b: seq<byte>, n: nat)
    requires |a| % 2 == 0 && 2 * n <= |b|
    ensures WordSum(a + b, |a| / 2 + n) == WordSum(a, |a| / 2) + WordSum(b, n)
  {
    var m := |a| / 2;
    if n == 0 {
      SumOfPrefix(a, b, m);
    } else {
      SumOfTwo(a, b, n - 1);
      NextWord(a + b, m + (n - 1));
      assert (a + b)[2 * (m + (n - 1))] == b[2 * (n - 1)] && (a + b)[2 * (m + (n - 1)) + 1] == b[2 * (n - 1) + 1];
    }
  }

  // udp_csum: the sum goes on from the pseudo-header into the datagram.
  method UdpCsum(buf: seq<byte>, saddr: seq<byte>, daddr: seq<byte>) returns (r: nat)
    requires |saddr| == 4 && |daddr| == 4
    ensures var whole := PseudoHeader(saddr, daddr, |buf|) + buf;
      WordSum(whole, |whole| / 2) < LONG ==> r == Checksum(whole)
    // the words summed are those of the addresses, the protocol number 17 behind a zero byte, the length in
    // network order, and the datagram
    ensures var sum := UdpSum(buf, saddr, daddr); sum < LONG ==> r == ONES - Canonical(sum)
  {
    hide WordSum, WordAt, Canonical, OnesSum, Checksum, PseudoHeader, UdpSum;
    PseudoSum(buf, saddr, daddr);
    var ph := PseudoHeader(saddr, daddr, |buf|);
    var sum := 0;
    NoWords(ph);
    NoWords(buf);
    for i := 0 to 6
      invariant sum == WordSum(ph, i) % LONG
    {
      WrapAdd(WordSum(ph, i), WordAt(ph, i));
      NextWord(ph, i);
      sum := (sum + WordAt(ph, i)) % LONG;
    }
    ghost var header := WordSum(ph, 6);
    for i := 0 to |buf| / 2
      invariant sum == (header + WordSum(buf, i)) % LONG
    {
      WrapAdd(header + WordSum(buf, i), WordAt(buf, i));
      NextWord(buf, i);
      sum := (sum + WordAt(buf, i)) % LONG;
    }
    var once := sum / WORD + sum % WORD;
    var twice := once + once / WORD;
    r := ONES - twice % WORD;
    SumOfTwo(ph, buf, |buf| / 2);
    ghost var whole := ph + buf;
    assert |whole| / 2 == 6 + |buf| / 2;
    if WordSum(whole, |whole| / 2) < LONG {
      SmallSum(whole);
      ComplementOfSum(whole);
    }
  }

  // What is summed for a datagram and two addresses, as plain numbers.
  function UdpSum(buf: seq<byte>, saddr: seq<byte>, daddr: seq<byte>): nat
    requires |saddr| == 4 && |daddr| == 4
  {
    WordSum(saddr, 2) + WordSum(daddr, 2) + 256 * 17 + Swapped(|buf| % 65536) + WordSum(buf, |buf| / 2)
  }

  lemma {:induction false} PseudoSum(buf: seq<byte>, saddr: seq<byte>, daddr: seq<byte>)
    requires |saddr| == 4 && |daddr| == 4
    ensures var whole := PseudoHeader(saddr, daddr, |buf|) + buf;
      WordSum(whole, |whole| / 2) == UdpSum(buf, saddr, daddr)
  {
    hide WordSum, Swapped;
    var ends: seq<byte> := [0, IPPROTO_UDP, (|buf| / 256) % 256, |buf| % 256];
    var ph := PseudoHeader(saddr, daddr, |buf|);
    assert ph == saddr + (daddr + ends);
    SumOfTwo(ph, buf, |buf| / 2);
    SumOfTwo(saddr, daddr + ends, 4);
    SumOfTwo(daddr, ends, 2);
    EndsSum(ends, |buf|);
  }

  lemma {:induction false} EndsSum(ends: seq<byte>, n: nat)
    requires ends == [0, 17, (n / 256) % 256, n % 256]
    ensures WordSum(ends, 2) == 256 * 17 + Swapped(n % 65536)
  {
    hide Swapped;
    assert WordSum(ends, 1) == WordSum(ends, 0) + WordAt(ends, 0);
    SwappedLength(n);
  }

  lemma {:induction false} SwappedLength(n: nat)
    ensures Swapped(n % 65536) == (n / 256) % 256 + 256 * (n % 256)
  {
    var q, high, low := n / 65536, (n / 256) % 256, n % 256;
    assert n / 256 == 256 * q + high by { assert n == 65536 * q + n % 65536; }
    assert n % 65536 == 256 * high + low;
  }

  lemma {:induction false} ComplementOfSum(buf: seq<byte>)
    ensures Checksum(buf) == ONES - Canonical(WordSum(buf, |buf| / 2))
  {
    SumIsCanonical(buf, |buf| / 2);
  }

  // The example of section 3 of RFC 1071: 0001 f203 f4f5 f6f7 add up to ddf2 in network order.
  lemma {:induction false} RfcExample()
    ensures Swapped(ONES - Checksum([0x00, 0x01, 0xf2, 0x03, 0xf4, 0xf5, 0xf6, 0xf7])) == 0xddf2
  {
    var b: seq<byte> := [0x00, 0x01, 0xf2, 0x03, 0xf4, 0xf5, 0xf6, 0xf7];
    assert OnesSum(b, 1) == 0x0100;
    assert OnesSum(b, 2) == 0x04f2;
    assert OnesSum(b, 3) == 0xfae6;
  }
}
