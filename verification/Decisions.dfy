// What each discipline decides, and a chain of them, said of packets, times and draws alone.
module Decisions {
  import opened Disciplines
  import opened Queues

  // ---- Bands ----

  predicate Late(p: Packet, time: int, maxDelay: int) {
    maxDelay != 0 && time - p.inTime > maxDelay
  }

  // The late packets at the front are n, and the next one is still in time.
  predicate LateFront(packets: seq<Packet>, n: nat, time: int, maxDelay: int) {
    && n <= |packets| && (forall k :: 0 <= k < n ==> Late(packets[k], time, maxDelay))
    && (n < |packets| ==> !Late(packets[n], time, maxDelay))
  }

  // Bytes that band d has earned since its last call at so many a second, fractions of a byte lost.
  predicate Earns(d: Disc, time: int, bytes: nat)
    requires d.Band?
  {
    var sum := d.rate * (time - d.lastTs);
    1000 * bytes <= sum < 1000 * bytes + 1000 || 1000 * bytes <= -sum < 1000 * bytes + 1000
  }

  lemma {:induction false} EarnsTraffic(d: Disc, time: int)
    requires d.Band?
    ensures Earns(d, time, Traffic(time - d.lastTs, d.rate))
  {
    assert d.rate * (time - d.lastTs) == (time - d.lastTs) * d.rate;
  }

  lemma {:induction false} OverdueIsLate(packets: seq<Packet>, time: int, maxDelay: int)
    ensures LateFront(packets, Overdue(packets, time, maxDelay), time, maxDelay)
  {
    var n := Overdue(packets, time, maxDelay);
    if n > 0 {
      var rest := packets[1..];
      OverdueIsLate(rest, time, maxDelay);
      forall k | 0 <= k < n ensures Late(packets[k], time, maxDelay) {
        if k > 0 { assert packets[k] == rest[k - 1]; }
      }
      if n < |packets| { assert packets[n] == rest[n - 1]; }
    }
  }

  // What band d says to these packets, which it leaves, and the band afterwards.  With a positive rate it drops
  // exactly the late packets at the front; it approves exactly if a packet is left and there is credit, what was
  // left of it and what has been earned but no more than the burst; and an approved packet is paid for without
  // its Ethernet header.
  ghost predicate BandSays(d: Disc, time: int, packets: seq<Packet>, yes: bool, left: seq<Packet>, d': Disc)
    requires d.Band?
  {
    if d.rate <= 0 then yes && left == packets && d' == d
    else
      && |left| <= |packets| && left == packets[|packets| - |left|..]
      && LateFront(packets, |packets| - |left|, time, d.maxDelay)
      && exists bytes: nat :: Earns(d, time, bytes) &&
           var credit := if d.quota + bytes < d.burst then d.quota + bytes else d.burst;
           && yes == (left != [] && credit > 0)
           && d' == d.(lastTs := time, quota := if yes then credit - |left[0].data| + 14 else credit)
  }

  lemma {:induction false} BandDecides(d: Disc, time: int, packets: seq<Packet>, draws: seq<int>)
    requires d.Band?
    ensures var a := Ask(d, time, packets, draws);
      BandSays(d, time, packets, a.answer == Yes, a.packets, a.disc) && a.answer != Undefined
  {
    hide Traffic, Overdue, Earns;
    if d.rate > 0 {
      EarnsTraffic(d, time);
      OverdueIsLate(packets, time, d.maxDelay);
    }
  }

  // ---- Random loss ----

  // The packet tossed for before packet k comes to the front.
  function UidBefore(packets: seq<Packet>, lastUid: int, k: nat): int
    requires k <= |packets|
  {
    if k == 0 then lastUid else packets[k - 1].uid
  }

  // Packet k is new at the front, and its draw, one for each toss, is below the loss.
  predicate Loses(packets: seq<Packet>, lastUid: int, rloss: int, draws: seq<int>, k: nat)
    requires k < |packets|
  {
    packets[k].uid != UidBefore(packets, lastUid, k) && (if k < |draws| then draws[k] else 0) % 100 < rloss
  }

  // The packets lost are n: each of them loses its toss, and the next one does not.
  predicate LostFront(packets: seq<Packet>, n: nat, lastUid: int, rloss: int, draws: seq<int>) {
    && n <= |packets| && (forall k :: 0 <= k < n ==> Loses(packets, lastUid, rloss, draws, k))
    && (n < |packets| ==> !Loses(packets, lastUid, rloss, draws, n))
  }

  lemma {:induction false} LaterLoses(packets: seq<Packet>, lastUid: int, rloss: int, draws: seq<int>, k: nat)
    requires packets != [] && k < |packets[1..]|
    ensures Loses(packets[1..], packets[0].uid, rloss, if draws == [] then [] else draws[1..], k) <==>
      Loses(packets, lastUid, rloss, draws, k + 1)
  {
    var rest, left := packets[1..], if draws == [] then [] else draws[1..];
    assert rest[k] == packets[k + 1] && (k > 0 ==> rest[k - 1] == packets[k]);
  }

  lemma {:induction false} UnluckyLoses(packets: seq<Packet>, lastUid: int, rloss: int, draws: seq<int>)
    ensures LostFront(packets, Unlucky(packets, lastUid, rloss, draws), lastUid, rloss, draws)
    decreases |packets|
  {
    hide Loses;
    var n := Unlucky(packets, lastUid, rloss, draws);
    FirstLoses(packets, lastUid, rloss, draws);
    if n > 0 {
      var rest, left := packets[1..], if draws == [] then [] else draws[1..];
      UnluckyLoses(rest, packets[0].uid, rloss, left);
      forall k | 0 < k < |packets|
        ensures Loses(packets, lastUid, rloss, draws, k) <==> Loses(rest, packets[0].uid, rloss, left, k - 1)
      {
        LaterLoses(packets, lastUid, rloss, draws, k - 1);
      }
    }
  }

  lemma {:induction false} FirstLoses(packets: seq<Packet>, lastUid: int, rloss: int, draws: seq<int>)
    ensures packets != [] ==>
      (Loses(packets, lastUid, rloss, draws, 0) <==> Unlucky(packets, lastUid, rloss, draws) > 0)
  {
  }

  // The last toss was for the packet left at the front, or for the last one lost.
  lemma {:induction false} TossedLast(packets: seq<Packet>, n: nat, lastUid: int)
    requires n <= |packets|
    ensures var t := Tossed(packets, n, lastUid);
      (if t == [] then lastUid else t[|t| - 1]) ==
        if n < |packets| then packets[n].uid else UidBefore(packets, lastUid, n)
  {
    if n > 0 {
      var rest := packets[1..];
      TossedLast(rest, n - 1, packets[0].uid);
      var t := Tossed(rest, n - 1, packets[0].uid);
      if n < |packets| { assert rest[n - 1] == packets[n]; }
      if n > 1 { assert rest[n - 2] == packets[n - 1]; }
    }
  }

  // What loss d says to these packets: it tosses once for each packet new at the front until one stays, drops
  // exactly those that lose, and approves exactly if one is left, which it remembers.
  predicate LossSays(d: Disc, packets: seq<Packet>, draws: seq<int>, yes: bool, left: seq<Packet>, d': Disc)
    requires d.RLoss?
  {
    && |left| <= |packets| && left == packets[|packets| - |left|..]
    && LostFront(packets, |packets| - |left|, d.lastUid, d.rloss, draws)
    && yes == (left != []) && d'.RLoss? && d'.rloss == d.rloss
    && d'.lastUid == if yes then left[0].uid else UidBefore(packets, d.lastUid, |packets|)
  }

  lemma {:induction false} LossDecides(d: Disc, time: int, packets: seq<Packet>, draws: seq<int>)
    requires d.RLoss?
    ensures var a := Ask(d, time, packets, draws);
      LossSays(d, packets, draws, a.answer == Yes, a.packets, a.disc) && a.answer != Undefined
  {
    hide Unlucky, Tossed, Loses, UidBefore;
    var n := Unlucky(packets, d.lastUid, d.rloss, draws);
    UnluckyLoses(packets, d.lastUid, d.rloss, draws);
    TossedLast(packets, n, d.lastUid);
    assert n < |packets| ==> packets[n..][0] == packets[n];
  }

  // ---- Chains ----

  // What discipline k makes of the packets it is shown.
  function Verdict(discs: seq<Disc>, time: int, luck: seq<seq<int>>, shown: seq<seq<Packet>>, k: nat): Asked
    requires k < |discs| && k < |shown|
  {
    Ask(discs[k], time, shown[k], if k < |luck| then luck[k] else [])
  }

  // The packets shown to each discipline in turn, and those left at the end: each sees what the one before
  // left.
  ghost predicate Trace(discs: seq<Disc>, time: int, packets: seq<Packet>, luck: seq<seq<int>>,
        shown: seq<seq<Packet>>)
  {
    && |shown| == |discs| + 1 && shown[0] == packets
    && forall k :: 0 <= k < |discs| ==> shown[k + 1] == Verdict(discs, time, luck, shown, k).packets
  }

  // Every call has one.
  lemma {:induction false} TraceSome(discs: seq<Disc>, time: int, packets: seq<Packet>, luck: seq<seq<int>>)
    returns (shown: seq<seq<Packet>>)
    ensures Trace(discs, time, packets, luck, shown)
  {
    hide Ask;
    shown := [packets];
    while |shown| <= |discs|
      invariant 1 <= |shown| <= |discs| + 1 && shown[0] == packets
      invariant forall k :: 0 <= k < |shown| - 1 ==> shown[k + 1] == Verdict(discs, time, luck, shown, k).packets
      decreases |discs| + 1 - |shown|
    {
      var n := |shown| - 1;
      var more := shown + [Verdict(discs, time, luck, shown, n).packets];
      forall k | 0 <= k < n + 1 ensures more[k + 1] == Verdict(discs, time, luck, more, k).packets {
        assert more[k] == shown[k];
        assert Verdict(discs, time, luck, more, k) == Verdict(discs, time, luck, shown, k);
        if k < n { assert more[k + 1] == shown[k + 1]; }
      }
      shown := more;
    }
  }

  // The first k disciplines approve.
  predicate Approve(discs: seq<Disc>, time: int, luck: seq<seq<int>>, shown: seq<seq<Packet>>, k: nat)
    requires k <= |discs| && k <= |shown|
  {
    forall j :: 0 <= j < k ==> Verdict(discs, time, luck, shown, j).answer == Yes
  }

  // The answer of a chain that asked the disciplines before k, the last of them included, left as it is after k.
  ghost predicate Decided(discs: seq<Disc>, time: int, luck: seq<seq<int>>, shown: seq<seq<Packet>>, k: nat, r: Chained)
    requires k <= |discs| < |shown|
  {
    && r.packets == shown[k] && |r.discs| == |discs|
    && forall j :: 0 <= j < |discs| ==>
         r.discs[j] == if j < k then Verdict(discs, time, luck, shown, j).disc else discs[j]
  }

  lemma {:induction false} ChainFrom(discs: seq<Disc>, states: seq<Disc>, i: nat, time: int, packets: seq<Packet>,
        luck: seq<seq<int>>, shown: seq<seq<Packet>>) returns (k: nat)
    requires Trace(discs, time, packets, luck, shown) && i <= |discs| == |states|
    requires Approve(discs, time, luck, shown, i)
    requires forall j :: 0 <= j < |discs| ==>
      states[j] == if j < i then Verdict(discs, time, luck, shown, j).disc else discs[j]
    ensures var r := AskFrom(states, i, time, shown[i], luck);
      && i <= k <= |discs| && Decided(discs, time, luck, shown, k, r)
      && (if r.answer == Yes then k == |discs| && Approve(discs, time, luck, shown, k)
          else k > 0 && Approve(discs, time, luck, shown, k - 1)
               && r.answer == Verdict(discs, time, luck, shown, k - 1).answer)
    decreases |discs| - i
  {
    hide Ask;
    if i == |discs| {
      k := i;
    } else {
      var a := Ask(states[i], time, shown[i], LuckOf(luck, i));
      assert a == Verdict(discs, time, luck, shown, i);
      if a.answer == Yes {
        k := ChainFrom(discs, states[i := a.disc], i + 1, time, packets, luck, shown);
      } else {
        k := i + 1;
      }
    }
  }

  // A chain asks its disciplines in turn, each once and on what the ones before left, up to the first that does not
  // approve; it approves exactly if all of them do.
  lemma {:induction false} ChainDecides(discs: seq<Disc>, time: int, packets: seq<Packet>, luck: seq<seq<int>>,
        shown: seq<seq<Packet>>) returns (k: nat)
    requires Trace(discs, time, packets, luck, shown)
    ensures var r := AskFrom(discs, 0, time, packets, luck);
      && k <= |discs| && Decided(discs, time, luck, shown, k, r)
      && (r.answer == Yes <==> Approve(discs, time, luck, shown, |discs|))
      && (r.answer == Yes ==> k == |discs|)
      && (r.answer != Yes ==>
            && k > 0 && Approve(discs, time, luck, shown, k - 1)
            && r.answer == Verdict(discs, time, luck, shown, k - 1).answer)
  {
    hide Verdict, AskFrom;
    k := ChainFrom(discs, discs, 0, time, packets, luck, shown);
  }

  // packet_out sends exactly if there are disciplines, all of them approve and leave a packet: the first one left
  // is sent, and what they dropped before it is dropped.
  lemma {:induction false} SendsWhen(q: Queue, time: int, luck: seq<seq<int>>, shown: seq<seq<Packet>>)
    requires Trace(q.discs, time, q.packets, luck, shown)
    ensures var n, (q', out) := |q.discs|, PacketOut(q, time, luck);
      && (out.Sent? <==> n > 0 && Approve(q.discs, time, luck, shown, n) && shown[n] != [])
      && (out.Sent? ==>
            && out.p == shown[n][0] && q'.packets == shown[n][1..] && q'.sent == q.sent + [out.p]
            && q.packets == q'.dropped[|q.dropped|..] + shown[n] && q.dropped == q'.dropped[..|q.dropped|]
            && |q'.discs| == n && forall j :: 0 <= j < n ==> q'.discs[j] == Verdict(q.discs, time, luck, shown, j).disc)
      && (n > 0 && !out.Sent? ==> q'.sent == q.sent && q'.packets in shown)
      && (n == 0 ==> q' == q && out == Nothing)
      && q'.limit == q.limit && q'.lost == q.lost && q'.accepted == q.accepted
  {
    hide Verdict, AskFrom, SizeSum, Approve;
    if q.discs != [] {
      var k := ChainDecides(q.discs, time, q.packets, luck, shown);
      AskFromDrops(q.discs, 0, time, q.packets, luck);
      QueriedPackets(q, time, luck);
      var r := AskFrom(q.discs, 0, time, q.packets, luck);
      assert q.packets[..|r.drops|] == r.drops;
      assert (q.dropped + r.drops)[|q.dropped|..] == r.drops && (q.dropped + r.drops)[..|q.dropped|] == q.dropped;
    }
  }
}
