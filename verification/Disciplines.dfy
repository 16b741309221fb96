// Queueing disciplines: token bucket, delay and random loss, alone and in a chain.
module Disciplines {
  import opened Bytes

  datatype Packet = Packet(uid: int, inTime: int, data: seq<byte>)

  // Ethernet header bytes, which the token bucket does not count.
  const ETHERNET := 14

  // Delay is the discipline as coded, DelayMeant the one its condition evidently stands for.  The
  // field `tossed' is history only: the packets tossed for so far.
  datatype Disc =
    | Band(rate: int, burst: int, quota: int, maxDelay: int, lastTs: int)
    | Delay(delay: int)
    | DelayMeant(delay: int)
    | RLoss(rloss: int, lastUid: int, tossed: seq<int>)

  // Undefined: the front of an empty queue was looked at.
  datatype Answer = Yes | No | Undefined

  // What can_pop answers, the discipline afterwards, and what it did to the queue.
  datatype Asked = Asked(answer: Answer, disc: Disc, packets: seq<Packet>, drops: seq<Packet>)

  function Abs(x: int): nat {
    if x < 0 then -x else x
  }

  function Min(a: int, b: int): int {
    if a < b then a else b
  }

  function Max(a: int, b: int): int {
    if a < b then b else a
  }

  // abs(delta_t * rate / 1000), the division truncating towards zero.
  function Traffic(delta: int, rate: int): nat {
    Abs(delta * rate) / 1000
  }

  // How many packets at the front have waited too long.
  function Overdue(packets: seq<Packet>, time: int, maxDelay: int): (n: nat)
    ensures n <= |packets|
    ensures n < |packets| && maxDelay != 0 ==> time - packets[n].inTime <= maxDelay
  {
    if maxDelay != 0 && packets != [] && time - packets[0].inTime > maxDelay then
      1 + Overdue(packets[1..], time, maxDelay)
    else 0
  }

  function Draw(draws: seq<int>, i: nat): int {
    if i < |draws| then draws[i] else 0
  }

  // Toss for every new packet that comes to the front, until one stays: how many are dropped.
  function Unlucky(packets: seq<Packet>, lastUid: int, rloss: int, draws: seq<int>): (n: nat)
    ensures n <= |packets|
    decreases |packets|
  {
    if packets == [] || lastUid == packets[0].uid then 0
    else if Draw(draws, 0) % 100 < rloss then
      1 + Unlucky(packets[1..], packets[0].uid, rloss, if draws == [] then [] else draws[1..])
    else 0
  }

  // The packets tossed for: those dropped, and the one that stays unless it has been tossed for.
  function Tossed(packets: seq<Packet>, n: nat, lastUid: int): seq<int>
    requires n <= |packets|
  {
    if n > 0 then [packets[0].uid] + Tossed(packets[1..], n - 1, packets[0].uid)
    else if packets == [] || lastUid == packets[0].uid then []
    else [packets[0].uid]
  }

  // can_pop
  function Ask(d: Disc, time: int, packets: seq<Packet>, draws: seq<int>): (a: Asked)
    ensures packets == a.drops + a.packets
  {
    match d
    case Band(rate, burst, quota, maxDelay, lastTs) =>
      if rate <= 0 then Asked(Yes, d, packets, [])
      else
        var credit := Min(burst, quota + Traffic(time - lastTs, rate));
        var n := Overdue(packets, time, maxDelay);
        var rest := packets[n..];
        if rest != [] && credit > 0 then
          Asked(Yes, Band(rate, burst, credit - (|rest[0].data| - ETHERNET), maxDelay, time), rest, packets[..n])
        else Asked(No, Band(rate, burst, credit, maxDelay, time), rest, packets[..n])
    case Delay(delay) => Asked(if packets == [] then Undefined else No, d, packets, [])
    case DelayMeant(delay) =>
      Asked(if packets != [] && time - packets[0].inTime >= delay then Yes else No, d, packets, [])
    case RLoss(rloss, lastUid, tossed) =>
      var n := Unlucky(packets, lastUid, rloss, draws);
      var tosses := Tossed(packets, n, lastUid);
      var last := if tosses == [] then lastUid else tosses[|tosses| - 1];
      Asked(if n < |packets| then Yes else No, RLoss(rloss, last, tossed + tosses), packets[n..], packets[..n])
  }

  // ---- The token bucket over a run of calls ----

  // One call of can_pop on a positive-rate band, and the payload it approves.
  datatype Call = Call(time: int, packets: seq<Packet>)

  function BandAfter(d: Disc, calls: seq<Call>): Disc
    requires d.Band?
    ensures BandAfter(d, calls).Band? && BandAfter(d, calls).rate == d.rate && BandAfter(d, calls).burst == d.burst
  {
    if calls == [] then d
    else
      var c := calls[|calls| - 1];
      Ask(BandAfter(d, calls[..|calls| - 1]), c.time, c.packets, []).disc
  }

  function Payload(d: Disc, c: Call): int
    requires d.Band?
  {
    var a := Ask(d, c.time, c.packets, []);
    if a.answer == Yes && a.packets != [] then |a.packets[0].data| - ETHERNET else 0
  }

  // Payload bytes approved over a run.
  function Approved(d: Disc, calls: seq<Call>): int
    requires d.Band?
  {
    if calls == [] then 0
    else
      var n := |calls| - 1;
      Approved(d, calls[..n]) + Payload(BandAfter(d, calls[..n]), calls[n])
  }

  // Credit collected over a run, after the first call.
  function Credited(d: Disc, calls: seq<Call>): int
    requires d.Band?
  {
    if |calls| <= 1 then 0
    else
      var n := |calls| - 1;
      Credited(d, calls[..n]) + Traffic(calls[n].time - calls[n - 1].time, d.rate)
  }

  predicate Timely(calls: seq<Call>) {
    forall i :: 0 < i < |calls| ==> calls[i - 1].time <= calls[i].time
  }

  // Frames of 14 to m bytes.
  predicate Framed(calls: seq<Call>, m: int) {
    forall i, j :: 0 <= i < |calls| && 0 <= j < |calls[i].packets| ==> ETHERNET <= |calls[i].packets[j].data| <= m
  }

  lemma {:induction false} TrafficBounds(delta: int, rate: int)
    requires delta >= 0 && rate > 0
    ensures rate * delta - 999 <= 1000 * Traffic(delta, rate) <= rate * delta
  {
    assert delta * rate >= 0;
  }

  // Rounding loses less than one byte a call against the exact rate, and never gains any.
  lemma {:induction false} CreditBounds(d: Disc, calls: seq<Call>)
    requires d.Band? && d.rate > 0 && calls != [] && Timely(calls)
    ensures var t := calls[|calls| - 1].time - calls[0].time;
      d.rate * t - 999 * (|calls| - 1) <= 1000 * Credited(d, calls) <= d.rate * t
  {
    hide Traffic;
    var n := |calls| - 1;
    if n > 0 {
      var front := calls[..n];
      CreditBounds(d, front);
      TrafficBounds(calls[n].time - calls[n - 1].time, d.rate);
      var s, t := calls[n - 1].time - calls[0].time, calls[n].time - calls[n - 1].time;
      assert d.rate * (s + t) == d.rate * s + d.rate * t;
    }
  }

  // One call: the bucket stays within its bounds, and pays for what it approves.
  lemma {:induction false} OneCall(d: Disc, c: Call, m: int)
    requires d.Band? && d.rate > 0 && d.burst >= 0 && Min(0, 15 - m) <= d.quota <= d.burst
    requires forall j :: 0 <= j < |c.packets| ==> ETHERNET <= |c.packets[j].data| <= m
    ensures var d' := Ask(d, c.time, c.packets, []).disc;
      && d'.lastTs == c.time && Min(0, 15 - m) <= d'.quota <= d.burst
      && Payload(d, c) == Min(d.burst, d.quota + Traffic(c.time - d.lastTs, d.rate)) - d'.quota
      && Payload(d, c) >= 0
  {
    hide Traffic;
    var n := Overdue(c.packets, c.time, d.maxDelay);
    if n < |c.packets| { assert c.packets[n..][0] == c.packets[n]; }
  }

  // The invariant of a run: what was approved and what is left come out of the burst and the credit.
  lemma {:induction false} BucketInvariant(d: Disc, calls: seq<Call>, m: int)
    requires d.Band? && d.rate > 0 && d.burst >= 0 && Min(0, 15 - m) <= d.quota <= d.burst
    requires Framed(calls, m)
    ensures var d' := BandAfter(d, calls);
      && Min(0, 15 - m) <= d'.quota <= d.burst
      && (calls != [] ==> d'.lastTs == calls[|calls| - 1].time)
      && (calls != [] ==> Approved(d, calls) + d'.quota <= d.burst + Credited(d, calls))
  {
    hide Ask, Payload, Traffic;
    if calls != [] {
      var n := |calls| - 1;
      var front, c := calls[..n], calls[n];
      BucketInvariant(d, front, m);
      OneCall(BandAfter(d, front), c, m);
      if n == 0 { assert front == []; }
    }
  }

  // The token bucket: over any run of calls at times that do not go back, whatever the time of the last
  // call before it, approved payload is bounded by the burst, the rate, and one frame in excess.
  lemma {:induction false} TokenBucket(d: Disc, calls: seq<Call>, m: int)
    requires d.Band? && d.rate > 0 && d.burst >= 0 && Min(0, 15 - m) <= d.quota <= d.burst
    requires calls != [] && Timely(calls) && Framed(calls, m)
    ensures var t := calls[|calls| - 1].time - calls[0].time;
      1000 * Approved(d, calls) <= 1000 * d.burst + d.rate * t + 1000 * Max(0, m - 15)
    ensures Min(0, 15 - m) <= BandAfter(d, calls).quota <= d.burst
  {
    hide Ask, Approved, Credited, BandAfter, Framed;
    BucketInvariant(d, calls, m);
    CreditBounds(d, calls);
  }

  // ---- A chain of disciplines ----

  datatype Chained = Chained(answer: Answer, discs: seq<Disc>, packets: seq<Packet>, drops: seq<Packet>)

  function LuckOf(luck: seq<seq<int>>, i: nat): seq<int> {
    if i < |luck| then luck[i] else []
  }

  // Disciplines i.. are asked in turn until one refuses.
  function AskFrom(discs: seq<Disc>, i: nat, time: int, packets: seq<Packet>, luck: seq<seq<int>>): (r: Chained)
    requires i <= |discs|
    ensures |r.discs| == |discs|
    decreases |discs| - i
  {
    if i == |discs| then Chained(Yes, discs, packets, [])
    else
      var a := Ask(discs[i], time, packets, LuckOf(luck, i));
      var discs' := discs[i := a.disc];
      if a.answer != Yes then Chained(a.answer, discs', a.packets, a.drops)
      else
        var r := AskFrom(discs', i + 1, time, a.packets, luck);
        Chained(r.answer, r.discs, r.packets, a.drops + r.drops)
  }

  // A chain with the delay as coded in it approves nothing, whatever stands before and after; and the delay
  // stays where it is.
  lemma {:induction false} DelayStops(discs: seq<Disc>, i: nat, k: nat, time: int, packets: seq<Packet>,
        luck: seq<seq<int>>)
    requires i <= k < |discs| && discs[k].Delay?
    ensures var r := AskFrom(discs, i, time, packets, luck); r.answer != Yes && r.discs[k] == discs[k]
    decreases |discs| - i
  {
    var a := Ask(discs[i], time, packets, LuckOf(luck, i));
    if i < k {
      hide Ask;
      if a.answer == Yes { DelayStops(discs[i := a.disc], i + 1, k, time, a.packets, luck); }
    }
  }

  // Only packets at the front go, and they are the ones dropped.
  lemma {:induction false} AskFromDrops(discs: seq<Disc>, i: nat, time: int, packets: seq<Packet>, luck: seq<seq<int>>)
    requires i <= |discs|
    ensures var r := AskFrom(discs, i, time, packets, luck); packets == r.drops + r.packets
    decreases |discs| - i
  {
    hide Ask;
    if i < |discs| {
      var a := Ask(discs[i], time, packets, LuckOf(luck, i));
      if a.answer == Yes {
        AskFromDrops(discs[i := a.disc], i + 1, time, a.packets, luck);
        var r := AskFrom(discs[i := a.disc], i + 1, time, a.packets, luck);
        assert a.drops + (r.drops + r.packets) == (a.drops + r.drops) + r.packets;
      }
    }
  }

  // A discipline that approves an empty queue.
  predicate Careless(d: Disc) {
    d.Band? && d.rate <= 0
  }

  lemma {:induction false} AskKeepsCare(d: Disc, time: int, packets: seq<Packet>, draws: seq<int>)
    ensures var a := Ask(d, time, packets, draws);
      && (a.answer == Yes && a.packets == [] ==> Careless(d))
      && (Careless(d) ==> a.answer == Yes && a.packets == packets && a.disc == d)
      && (packets == [] ==> a.packets == [])
      && (packets == [] && a.answer == Undefined <==> packets == [] && d.Delay?)
      && (packets != [] ==> a.answer != Undefined)
  {
  }

  // The chain approves an empty queue only if every discipline asked is careless about emptiness.
  lemma {:induction false} ApprovedMeansFull(discs: seq<Disc>, i: nat, time: int, packets: seq<Packet>,
        luck: seq<seq<int>>)
    requires i <= |discs|
    ensures var r := AskFrom(discs, i, time, packets, luck);
      r.answer == Yes && r.packets == [] ==> packets == [] && forall k :: i <= k < |discs| ==> Careless(discs[k])
    decreases |discs| - i
  {
    hide Ask;
    if i < |discs| {
      AskKeepsCare(discs[i], time, packets, LuckOf(luck, i));
      var a := Ask(discs[i], time, packets, LuckOf(luck, i));
      var discs' := discs[i := a.disc];
      if a.answer == Yes {
        ApprovedMeansFull(discs', i + 1, time, a.packets, luck);
        var r := AskFrom(discs', i + 1, time, a.packets, luck);
        if r.answer == Yes && r.packets == [] {
          forall k | i <= k < |discs| ensures Careless(discs[k]) {
            if k > i { assert discs'[k] == discs[k]; }
          }
        }
      }
    }
  }

  // ---- Waiting times ----

  predicate InOrder(packets: seq<Packet>) {
    forall i, j :: 0 <= i < j < |packets| ==> packets[i].inTime <= packets[j].inTime && packets[i].uid < packets[j].uid
  }

  // Later packets waited less.
  lemma {:induction false} LaterFront(packets: seq<Packet>, drops: seq<Packet>, rest: seq<Packet>)
    requires InOrder(packets) && packets == drops + rest && rest != []
    ensures packets[0].inTime <= rest[0].inTime && packets[0].uid <= rest[0].uid && InOrder(rest)
  {
    assert rest[0] == packets[|drops|];
    forall i, j | 0 <= i < j < |rest|
      ensures rest[i].inTime <= rest[j].inTime && rest[i].uid < rest[j].uid
    {
      assert rest[i] == packets[|drops| + i] && rest[j] == packets[|drops| + j];
    }
  }

  lemma {:induction false} NothingBefore(packets: seq<Packet>, rest: seq<Packet>, drops: seq<Packet>)
    requires InOrder(packets) && packets == drops + rest
    ensures InOrder(rest)
  {
    if rest != [] { LaterFront(packets, drops, rest); }
  }

  // A band of positive rate with a maximal delay lets nothing through that has waited longer, wherever
  // in the chain it stands: a packet that comes to the front later has waited less.
  lemma {:induction false} MaxDelayHolds(discs: seq<Disc>, i: nat, k: nat, time: int, packets: seq<Packet>,
        luck: seq<seq<int>>)
    requires i <= k < |discs| && discs[k].Band? && discs[k].rate > 0 && discs[k].maxDelay > 0 && InOrder(packets)
    ensures var r := AskFrom(discs, i, time, packets, luck);
      r.answer == Yes && r.packets != [] ==> time - r.packets[0].inTime <= discs[k].maxDelay
    decreases |discs| - i
  {
    hide Ask;
    var a := Ask(discs[i], time, packets, LuckOf(luck, i));
    var discs' := discs[i := a.disc];
    if a.answer == Yes {
      NothingBefore(packets, a.packets, a.drops);
      if i < k {
        MaxDelayHolds(discs', i + 1, k, time, a.packets, luck);
      } else {
        BandFront(discs[k], time, packets, LuckOf(luck, i));
        AskFromDrops(discs', i + 1, time, a.packets, luck);
        var r := AskFrom(discs', i + 1, time, a.packets, luck);
        if r.packets != [] { LaterFront(a.packets, r.drops, r.packets); }
      }
    }
  }

  lemma {:induction false} BandFront(d: Disc, time: int, packets: seq<Packet>, draws: seq<int>)
    requires d.Band? && d.rate > 0 && d.maxDelay > 0
    ensures var a := Ask(d, time, packets, draws);
      a.packets != [] ==> time - a.packets[0].inTime <= d.maxDelay
  {
    var n := Overdue(packets, time, d.maxDelay);
    if n < |packets| { assert packets[n..][0] == packets[n]; }
  }

  // Disciplines that never drop.
  predicate Dropless(d: Disc) {
    d.Delay? || d.DelayMeant? || (d.Band? && (d.rate <= 0 || d.maxDelay == 0)) || (d.RLoss? && d.rloss <= 0)
  }

  lemma {:induction false} DroplessKeeps(d: Disc, time: int, packets: seq<Packet>, draws: seq<int>)
    requires Dropless(d)
    ensures Ask(d, time, packets, draws).drops == [] && Ask(d, time, packets, draws).packets == packets
  {
  }

  lemma {:induction false} DroplessChain(discs: seq<Disc>, i: nat, time: int, packets: seq<Packet>, luck: seq<seq<int>>)
    requires i <= |discs| && forall j :: i <= j < |discs| ==> Dropless(discs[j])
    ensures AskFrom(discs, i, time, packets, luck).drops == []
    decreases |discs| - i
  {
    hide Ask;
    if i < |discs| {
      DroplessKeeps(discs[i], time, packets, LuckOf(luck, i));
      var a := Ask(discs[i], time, packets, LuckOf(luck, i));
      if a.answer == Yes { DroplessChain(discs[i := a.disc], i + 1, time, a.packets, luck); }
    }
  }

  // ---- What one discipline of a chain sees to, and what becomes of it ----

  // The packets discipline k is shown in a call that gets that far.
  function Shown(discs: seq<Disc>, i: nat, k: nat, time: int, packets: seq<Packet>, luck: seq<seq<int>>): seq<Packet>
    requires i <= k < |discs|
    decreases k - i
  {
    if i == k then packets
    else
      var a := Ask(discs[i], time, packets, LuckOf(luck, i));
      Shown(discs[i := a.disc], i + 1, k, time, a.packets, luck)
  }

  // What the disciplines after k drop in the same call.
  function LateDrops(discs: seq<Disc>, i: nat, k: nat, time: int, packets: seq<Packet>,
        luck: seq<seq<int>>): seq<Packet>
    requires i <= k < |discs|
    decreases k - i
  {
    var a := Ask(discs[i], time, packets, LuckOf(luck, i));
    if i == k then AskFrom(discs[i := a.disc], i + 1, time, a.packets, luck).drops
    else LateDrops(discs[i := a.disc], i + 1, k, time, a.packets, luck)
  }

  // When a chain approves, so has discipline k, and what the chain leaves is what k left without the late
  // drops.
  lemma {:induction false} ChainPasses(discs: seq<Disc>, i: nat, k: nat, time: int, packets: seq<Packet>,
        luck: seq<seq<int>>)
    requires i <= k < |discs| && AskFrom(discs, i, time, packets, luck).answer == Yes
    ensures var r, shown := AskFrom(discs, i, time, packets, luck), Shown(discs, i, k, time, packets, luck);
      var a := Ask(discs[k], time, shown, LuckOf(luck, k));
      && a.answer == Yes && a.disc == r.discs[k] && a.packets == LateDrops(discs, i, k, time, packets, luck) + r.packets
      && exists drops :: packets == drops + shown
    decreases |discs| - i
  {
    hide Ask;
    var a := Ask(discs[i], time, packets, LuckOf(luck, i));
    var discs' := discs[i := a.disc];
    if i < k {
      ChainPasses(discs', i + 1, k, time, a.packets, luck);
      var shown := Shown(discs, i, k, time, packets, luck);
      var drops :| a.packets == drops + shown;
      assert packets == (a.drops + drops) + shown;
    } else {
      AskFromDrops(discs', i + 1, time, a.packets, luck);
      DiscsBefore(discs', i + 1, k, time, a.packets, luck);
      assert packets == [] + packets;
    }
  }

  lemma {:induction false} DiscsBefore(discs: seq<Disc>, i: nat, k: nat, time: int, packets: seq<Packet>,
        luck: seq<seq<int>>)
    requires k < i <= |discs|
    ensures AskFrom(discs, i, time, packets, luck).discs[k] == discs[k]
    decreases |discs| - i
  {
    hide Ask;
    if i < |discs| {
      var a := Ask(discs[i], time, packets, LuckOf(luck, i));
      if a.answer == Yes { DiscsBefore(discs[i := a.disc], i + 1, k, time, a.packets, luck); }
    }
  }

  // Disciplines that never drop make no late drops.
  lemma {:induction false} NoLateDrops(discs: seq<Disc>, i: nat, k: nat, time: int, packets: seq<Packet>,
        luck: seq<seq<int>>)
    requires i <= k < |discs| && forall j :: k < j < |discs| ==> Dropless(discs[j])
    ensures LateDrops(discs, i, k, time, packets, luck) == []
    decreases k - i
  {
    hide Ask, Dropless;
    var a := Ask(discs[i], time, packets, LuckOf(luck, i));
    if i == k {
      DroplessChain(discs[i := a.disc], i + 1, time, a.packets, luck);
    } else {
      NoLateDrops(discs[i := a.disc], i + 1, k, time, a.packets, luck);
    }
  }

  // In a call that sends, what is sent is what discipline k approved if no discipline after k drops anything;
  // and only then, the queue being in order.
  lemma {:induction false} SentAsApproved(discs: seq<Disc>, k: nat, time: int, packets: seq<Packet>,
        luck: seq<seq<int>>)
    requires k < |discs|
    requires var r := AskFrom(discs, 0, time, packets, luck); r.answer == Yes && r.packets != []
    ensures var r, late := AskFrom(discs, 0, time, packets, luck), LateDrops(discs, 0, k, time, packets, luck);
      var a := Ask(discs[k], time, Shown(discs, 0, k, time, packets, luck), LuckOf(luck, k));
      && a.answer == Yes && a.packets != []
      && (late == [] ==> r.packets == a.packets)
      && (InOrder(packets) ==> (r.packets[0] == a.packets[0] <==> late == []))
  {
    hide Ask, AskFrom, Shown, LateDrops, InOrder;
    var r, shown := AskFrom(discs, 0, time, packets, luck), Shown(discs, 0, k, time, packets, luck);
    ChainPasses(discs, 0, k, time, packets, luck);
    var a := Ask(discs[k], time, shown, LuckOf(luck, k));
    if InOrder(packets) {
      var drops :| packets == drops + shown;
      NothingBefore(packets, shown, drops);
      NothingBefore(shown, a.packets, a.drops);
      FrontStays(a.packets, LateDrops(discs, 0, k, time, packets, luck), r.packets);
    }
  }

  // The front stays the front just when nothing is dropped before it.
  lemma {:induction false} FrontStays(packets: seq<Packet>, drops: seq<Packet>, rest: seq<Packet>)
    requires InOrder(packets) && packets == drops + rest && rest != []
    ensures packets != [] && packets[0].uid <= rest[0].uid
    ensures rest[0] == packets[0] <==> drops == []
    ensures rest[0].uid == packets[0].uid <==> drops == []
  {
    assert rest[0] == packets[|drops|];
  }

  // The delay meant: whenever the chain sends, the packet it approved has waited long enough, and in an ordered
  // queue that is the packet sent if and only if no later discipline drops.  So it is a minimum where none can.
  lemma {:induction false} MinDelayHolds(discs: seq<Disc>, k: nat, time: int, packets: seq<Packet>, luck: seq<seq<int>>)
    requires k < |discs| && discs[k].DelayMeant? && AskFrom(discs, 0, time, packets, luck).answer == Yes
    ensures var r, shown := AskFrom(discs, 0, time, packets, luck), Shown(discs, 0, k, time, packets, luck);
      && r.packets != [] && shown != [] && time - shown[0].inTime >= discs[k].delay
      && (InOrder(packets) ==> (r.packets[0] == shown[0] <==> LateDrops(discs, 0, k, time, packets, luck) == []))
      && ((forall j :: k < j < |discs| ==> Dropless(discs[j])) ==> time - r.packets[0].inTime >= discs[k].delay)
  {
    hide AskFrom, Shown, LateDrops, InOrder, Dropless;
    ApprovedMeansFull(discs, 0, time, packets, luck);
    SentAsApproved(discs, k, time, packets, luck);
    if forall j :: k < j < |discs| ==> Dropless(discs[j]) { NoLateDrops(discs, 0, k, time, packets, luck); }
  }

  // With a random loss after it, the delay approves one packet and a younger one is sent.
  lemma {:induction false} MinDelayFailsBeforeLoss()
    ensures var stale, young := Packet(1, 0, []), Packet(2, 90, []);
      var r := AskFrom([DelayMeant(100), RLoss(50, 0, [])], 0, 100, [stale, young], [[], [10, 90]]);
      r.answer == Yes && r.packets == [young] && 100 - young.inTime < 100
  {
    var stale, young := Packet(1, 0, []), Packet(2, 90, []);
    LossExample(stale, young);
    var discs := [DelayMeant(100), RLoss(50, 0, [])];
    var a := Ask(RLoss(50, 0, []), 100, [stale, young], [10, 90]);
    assert Ask(discs[0], 100, [stale, young], []) == Asked(Yes, DelayMeant(100), [stale, young], []);
    assert discs[0 := DelayMeant(100)] == discs;
    assert AskFrom(discs[1 := a.disc], 2, 100, a.packets, [[], [10, 90]]).packets == [young];
    assert AskFrom(discs, 1, 100, [stale, young], [[], [10, 90]]).packets == [young];
  }

  lemma {:induction false} LossExample(stale: Packet, young: Packet)
    requires stale.uid == 1 && young.uid == 2
    ensures var a := Ask(RLoss(50, 0, []), 100, [stale, young], [10, 90]); a.answer == Yes && a.packets == [young]
  {
    assert [stale, young][1..] == [young] && [10, 90][1..] == [90];
    assert Unlucky([young], 1, 50, [90]) == 0;
    assert Unlucky([stale, young], 0, 50, [10, 90]) == 1;
  }

  // ---- Random loss tosses once ----

  predicate Increasing(s: seq<int>) {
    forall i, j :: 0 <= i < j < |s| ==> s[i] < s[j]
  }

  // Tosses so far are in order, the last of them is remembered, and no queued packet is older.
  predicate LossOk(d: Disc, packets: seq<Packet>) {
    d.RLoss? ==>
      && Increasing(d.tossed)
      && (forall i :: 0 <= i < |d.tossed| ==> d.tossed[i] <= d.lastUid)
      && (d.lastUid != 0 ==> d.tossed != [] && d.tossed[|d.tossed| - 1] == d.lastUid)
      && (forall i :: 0 <= i < |packets| ==> packets[i].uid >= d.lastUid)
  }

  lemma {:induction false} TossesInOrder(packets: seq<Packet>, n: nat, lastUid: int)
    requires n <= |packets| && InOrder(packets) && forall i :: 0 <= i < |packets| ==> packets[i].uid >= lastUid
    requires n > 0 ==> packets[0].uid != lastUid
    ensures var s := Tossed(packets, n, lastUid);
      && Increasing(s) && (forall i :: 0 <= i < |s| ==> lastUid < s[i])
      && (s != [] ==>
            if n < |packets| then s[|s| - 1] == packets[n].uid else n > 0 && s[|s| - 1] == packets[n - 1].uid)
      && (s == [] ==> n == 0 && (packets == [] || packets[0].uid == lastUid))
    decreases n
  {
    if n > 0 {
      var rest, u := packets[1..], packets[0].uid;
      forall i | 0 <= i < |rest| ensures rest[i].uid > u { assert rest[i] == packets[i + 1]; }
      NothingBefore(packets, rest, packets[..1]);
      TossesInOrder(rest, n - 1, u);
    }
  }

  lemma {:induction false} UnluckyStarts(packets: seq<Packet>, lastUid: int, rloss: int, draws: seq<int>)
    ensures Unlucky(packets, lastUid, rloss, draws) > 0 ==> packets != [] && packets[0].uid != lastUid
  {
  }

  // One call: no packet is tossed for again, and the one left at the front has been tossed for.
  lemma {:induction false} TossedOnce(d: Disc, time: int, packets: seq<Packet>, draws: seq<int>)
    requires d.RLoss? && InOrder(packets) && LossOk(d, packets)
    ensures var a := Ask(d, time, packets, draws);
      && LossOk(a.disc, a.packets)
      && (a.packets != [] ==> a.disc.lastUid == a.packets[0].uid)
      && (a.packets != [] && a.packets[0].uid != d.lastUid ==> a.packets[0].uid in a.disc.tossed)
      && d.tossed <= a.disc.tossed
  {
    hide Unlucky, Tossed, Increasing;
    var n := Unlucky(packets, d.lastUid, d.rloss, draws);
    UnluckyStarts(packets, d.lastUid, d.rloss, draws);
    TossesInOrder(packets, n, d.lastUid);
    TossesJoin(d, packets, n);
  }

  lemma {:induction false} TossesJoin(d: Disc, packets: seq<Packet>, n: nat)
    requires d.RLoss? && n <= |packets| && InOrder(packets) && LossOk(d, packets)
    requires var s := Tossed(packets, n, d.lastUid);
      && Increasing(s) && (forall i :: 0 <= i < |s| ==> d.lastUid < s[i])
      && (s != [] ==>
            if n < |packets| then s[|s| - 1] == packets[n].uid else n > 0 && s[|s| - 1] == packets[n - 1].uid)
      && (s == [] ==> n == 0 && (packets == [] || packets[0].uid == d.lastUid))
    ensures var s := Tossed(packets, n, d.lastUid);
      var last := if s == [] then d.lastUid else s[|s| - 1];
      && LossOk(RLoss(d.rloss, last, d.tossed + s), packets[n..])
      && (n < |packets| ==> last == packets[n].uid)
      && (n < |packets| && packets[n].uid != d.lastUid ==> packets[n].uid in d.tossed + s)
  {
    hide Tossed;
    var s := Tossed(packets, n, d.lastUid);
    var all, rest := d.tossed + s, packets[n..];
    var last := if s == [] then d.lastUid else s[|s| - 1];
    forall i | 0 <= i < |rest| ensures rest[i].uid >= last {
      assert rest[i] == packets[n + i];
    }
    if s != [] { assert all[|all| - 1] == s[|s| - 1]; }
  }

  // In a call that sends, the packet sent has been tossed for if and only if no later discipline drops
  // anything.
  lemma {:induction false} SentWasTossed(discs: seq<Disc>, k: nat, time: int, packets: seq<Packet>, luck: seq<seq<int>>)
    requires k < |discs| && discs[k].RLoss? && InOrder(packets)
    requires (forall i :: 0 <= i < |packets| ==> packets[i].uid > 0) && LossOk(discs[k], packets)
    ensures var r := AskFrom(discs, 0, time, packets, luck);
      r.answer == Yes ==>
        && r.packets != [] && r.discs[k].RLoss?
        && (r.packets[0].uid in r.discs[k].tossed <==> LateDrops(discs, 0, k, time, packets, luck) == [])
  {
    hide Ask, AskFrom, InOrder, LossOk, Shown, LateDrops;
    var r := AskFrom(discs, 0, time, packets, luck);
    if r.answer == Yes {
      var shown := Shown(discs, 0, k, time, packets, luck);
      ChainPasses(discs, 0, k, time, packets, luck);
      ApprovedMeansFull(discs, 0, time, packets, luck);
      var drops :| packets == drops + shown;
      NothingBefore(packets, shown, drops);
      LossSuffix(discs[k], packets, drops, shown);
      TossedOnce(discs[k], time, shown, LuckOf(luck, k));
      forall i | 0 <= i < |shown| ensures shown[i].uid > 0 {
        assert shown[i] == packets[|drops| + i];
      }
      LossFront(discs[k], time, shown, LuckOf(luck, k));
      var a := Ask(discs[k], time, shown, LuckOf(luck, k));
      NothingBefore(shown, a.packets, a.drops);
      FrontStays(a.packets, LateDrops(discs, 0, k, time, packets, luck), r.packets);
      YoungerUntossed(a.disc, a.packets);
    }
  }

  // Nothing younger than the front has been tossed for.
  lemma {:induction false} YoungerUntossed(d: Disc, packets: seq<Packet>)
    requires d.RLoss? && LossOk(d, packets) && packets != [] && d.lastUid == packets[0].uid
    ensures forall u :: u > packets[0].uid ==> u !in d.tossed
  {
  }

  lemma {:induction false} LossSuffix(d: Disc, packets: seq<Packet>, drops: seq<Packet>, rest: seq<Packet>)
    requires d.RLoss? && LossOk(d, packets) && packets == drops + rest
    ensures LossOk(d, rest)
  {
    assert forall i :: 0 <= i < |rest| ==> rest[i] == packets[|drops| + i];
  }

  lemma {:induction false} LossFront(d: Disc, time: int, packets: seq<Packet>, draws: seq<int>)
    requires d.RLoss? && forall i :: 0 <= i < |packets| ==> packets[i].uid > 0
    requires var a := Ask(d, time, packets, draws);
      LossOk(a.disc, a.packets) && (a.packets != [] ==> a.disc.lastUid == a.packets[0].uid)
    ensures var a := Ask(d, time, packets, draws);
      a.disc.RLoss? && (a.answer == Yes ==> a.packets != [] && a.packets[0].uid in a.disc.tossed)
  {
    var a := Ask(d, time, packets, draws);
    if a.packets != [] {
      assert a.packets[0] == packets[|a.drops|];
      assert a.disc.tossed[|a.disc.tossed| - 1] in a.disc.tossed;
    }
  }

  // With a band after it that drops what has waited too long, a packet nobody tossed for is sent.
  lemma {:induction false} SentUntossed()
    ensures var stale, young := Packet(1, 0, []), Packet(2, 90, []);
      var r := AskFrom([RLoss(10, 0, []), Band(1000, 1500, 100, 50, 100)], 0, 100, [stale, young], [[99], []]);
      r.answer == Yes && r.packets == [young] && r.discs[0] == RLoss(10, 1, [1])
  {
    hide Ask;
    var stale, young := Packet(1, 0, []), Packet(2, 90, []);
    var loss, band := RLoss(10, 0, []), Band(1000, 1500, 100, 50, 100);
    var packets, discs, luck := [stale, young], [loss, band], [[99], []];
    UntossedLoss(stale, young);
    UntossedBand(stale, young);
    var a, b := Ask(loss, 100, packets, [99]), Ask(band, 100, packets, []);
    var discs' := [RLoss(10, 1, [1]), band];
    assert discs[0 := a.disc] == discs';
    assert AskFrom(discs'[1 := b.disc], 2, 100, [young], luck) == Chained(Yes, discs'[1 := b.disc], [young], []);
    assert AskFrom(discs', 1, 100, packets, luck).packets == [young];
  }

  lemma {:induction false} UntossedLoss(stale: Packet, young: Packet)
    requires stale.uid == 1
    ensures Ask(RLoss(10, 0, []), 100, [stale, young], [99]) == Asked(Yes, RLoss(10, 1, [1]), [stale, young], [])
  {
    var packets, loss := [stale, young], RLoss(10, 0, []);
    assert Unlucky(packets, 0, 10, [99]) == 0;
    assert Tossed(packets, 0, 0) == [1];
    assert loss.tossed + [1] == [1] && packets[..0] == [] && packets[0..] == packets;
  }

  lemma {:induction false} UntossedBand(stale: Packet, young: Packet)
    requires stale.inTime == 0 && young.inTime == 90
    ensures var b := Ask(Band(1000, 1500, 100, 50, 100), 100, [stale, young], []);
      b.answer == Yes && b.packets == [young] && b.drops == [stale]
  {
    var packets := [stale, young];
    assert packets[1..] == [young] && packets[..1] == [stale];
    assert Overdue([young], 100, 50) == 0 && Overdue(packets, 100, 50) == 1;
  }
}
