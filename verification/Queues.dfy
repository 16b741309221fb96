// One byte-limited queue with its chain of disciplines, and what it keeps.
module Queues {
  import opened Bytes
  import opened Disciplines

  const DEFAULT_LIMIT := 10240

  // An nqueue.  The last four fields are history only: what was sent, dropped by disciplines, lost to
  // the limit, and let in.
  datatype Queue = Queue(packets: seq<Packet>, total: int, limit: int, discs: seq<Disc>,
                         sent: seq<Packet>, dropped: seq<Packet>, lost: seq<Packet>, accepted: seq<Packet>)

  const EMPTY := Queue([], 0, DEFAULT_LIMIT, [], [], [], [], [])

  function SizeSum(packets: seq<Packet>): nat {
    if packets == [] then 0 else |packets[0].data| + SizeSum(packets[1..])
  }

  // packets_raw_queue::push: refused only once the total has passed the limit.
  function Pushed(q: Queue, p: Packet): Queue {
    if q.total > q.limit then q.(lost := q.lost + [p])
    else q.(packets := q.packets + [p], total := q.total + |p.data|, accepted := q.accepted + [p])
  }

  // The first n packets go.
  function DropN(q: Queue, n: nat): Queue
    requires n <= |q.packets|
  {
    q.(packets := q.packets[n..], total := q.total - SizeSum(q.packets[..n]), dropped := q.dropped + q.packets[..n])
  }

  function Popped(q: Queue): Queue
    requires q.packets != []
  {
    q.(packets := q.packets[1..], total := q.total - |q.packets[0].data|, sent := q.sent + [q.packets[0]])
  }

  datatype Outcome = Sent(p: Packet) | Nothing | Broken

  // The queue once its disciplines have been asked.
  function Queried(q: Queue, time: int, luck: seq<seq<int>>): Queue {
    var r := AskFrom(q.discs, 0, time, q.packets, luck);
    DropN(q, if |r.drops| <= |q.packets| then |r.drops| else 0).(discs := r.discs)
  }

  // nqueue::packet_out.  Broken: the front of an empty queue was looked at.
  function PacketOut(q: Queue, time: int, luck: seq<seq<int>>): (Queue, Outcome) {
    if q.discs == [] then (q, Nothing)
    else
      var answer, q' := AskFrom(q.discs, 0, time, q.packets, luck).answer, Queried(q, time, luck);
      if answer == No then (q', Nothing)
      else if answer == Undefined || q'.packets == [] then (q', Broken)
      else (Popped(q'), Sent(q'.packets[0]))
  }

  // ---- When the queue is looked at while empty ----

  // Some discipline of the chain makes sure that there is a packet.
  predicate Guarded(discs: seq<Disc>, i: nat)
    requires i <= |discs|
    decreases |discs| - i
  {
    i < |discs| && (if Careless(discs[i]) then Guarded(discs, i + 1) else !discs[i].Delay?)
  }

  lemma {:induction false} EmptyAsked(discs: seq<Disc>, i: nat, time: int, luck: seq<seq<int>>)
    requires i <= |discs|
    ensures var r := AskFrom(discs, i, time, [], luck);
      r.packets == [] && r.drops == [] && (r.answer == No <==> Guarded(discs, i))
    decreases |discs| - i
  {
    hide Ask;
    if i < |discs| {
      EmptyAnswer(discs[i], time, LuckOf(luck, i));
      var a := Ask(discs[i], time, [], LuckOf(luck, i));
      if Careless(discs[i]) {
        assert discs[i := a.disc] == discs;
        EmptyAsked(discs, i + 1, time, luck);
      }
    }
  }

  lemma {:induction false} EmptyAnswer(d: Disc, time: int, draws: seq<int>)
    ensures var a := Ask(d, time, [], draws);
      && a.packets == [] && a.drops == []
      && a.answer == (if Careless(d) then Yes else if d.Delay? then Undefined else No)
      && (Careless(d) ==> a.disc == d)
  {
    var none: seq<Packet> := [];
    assert none[0..] == [];
  }

  lemma {:induction false} FullAnswers(discs: seq<Disc>, i: nat, time: int, packets: seq<Packet>, luck: seq<seq<int>>)
    requires i <= |discs| && packets != []
    ensures AskFrom(discs, i, time, packets, luck).answer != Undefined
    ensures AskFrom(discs, i, time, packets, luck).answer == Yes ==>
      AskFrom(discs, i, time, packets, luck).packets != []
    decreases |discs| - i
  {
    hide Ask;
    if i < |discs| {
      AskKeepsCare(discs[i], time, packets, LuckOf(luck, i));
      var a := Ask(discs[i], time, packets, LuckOf(luck, i));
      if a.answer == Yes { FullAnswers(discs[i := a.disc], i + 1, time, a.packets, luck); }
    }
  }

  // What the chain leaves is what the queue holds once it has been asked.
  lemma {:induction false} QueriedPackets(q: Queue, time: int, luck: seq<seq<int>>)
    ensures Queried(q, time, luck).packets == AskFrom(q.discs, 0, time, q.packets, luck).packets
  {
    hide AskFrom, SizeSum;
    AskFromDrops(q.discs, 0, time, q.packets, luck);
    var r := AskFrom(q.discs, 0, time, q.packets, luck);
    assert q.packets[|r.drops|..] == r.packets;
  }

  // packet_out pops a queue that has a packet, whatever the disciplines drop on the way; it goes wrong
  // exactly for an empty queue whose chain does not check, or checks with the delay as coded first.
  lemma {:induction false} BrokenIff(q: Queue, time: int, luck: seq<seq<int>>)
    ensures PacketOut(q, time, luck).1 == Broken <==> q.discs != [] && q.packets == [] && !Guarded(q.discs, 0)
  {
    hide AskFrom, Guarded, Popped, Queried;
    if q.discs != [] {
      QueriedPackets(q, time, luck);
      if q.packets == [] {
        EmptyAsked(q.discs, 0, time, luck);
      } else {
        FullAnswers(q.discs, 0, time, q.packets, luck);
      }
    }
  }

  // A queue with the delay as coded in its chain never sends, at any time and with any luck.
  lemma {:induction false} DelayNeverSends(q: Queue, k: nat, time: int, luck: seq<seq<int>>)
    requires k < |q.discs| && q.discs[k].Delay?
    ensures var (q', out) := PacketOut(q, time, luck);
      !out.Sent? && q'.sent == q.sent && |q'.discs| == |q.discs| && q'.discs[k] == q.discs[k]
  {
    hide AskFrom, SizeSum;
    DelayStops(q.discs, 0, k, time, q.packets, luck);
  }

  // ---- Subsequences ----

  // s is t with some elements left out.
  predicate Subseq(s: seq<Packet>, t: seq<Packet>) {
    s == [] ||
    (t != [] &&
      ((s[|s| - 1] == t[|t| - 1] && Subseq(s[..|s| - 1], t[..|t| - 1])) || Subseq(s, t[..|t| - 1])))
  }

  lemma {:induction false} SubseqAppend(s: seq<Packet>, t: seq<Packet>, p: Packet)
    requires Subseq(s, t)
    ensures Subseq(s + [p], t + [p])
  {
    var u, v := s + [p], t + [p];
    assert u[..|u| - 1] == s && v[..|v| - 1] == t;
  }

  // Leaving out more.
  lemma {:induction false} SubseqDrop(a: seq<Packet>, d: seq<Packet>, b: seq<Packet>, t: seq<Packet>)
    requires Subseq(a + d + b, t)
    ensures Subseq(a + b, t)
    decreases |t|
  {
    var s := a + d + b;
    if a + b != [] {
      var t' := t[..|t| - 1];
      if Subseq(s, t') {
        SubseqDrop(a, d, b, t');
      } else if b != [] {
        var b' := b[..|b| - 1];
        assert s[..|s| - 1] == a + d + b' && (a + b)[..|a + b| - 1] == a + b';
        SubseqDrop(a, d, b', t');
      } else if d != [] {
        var d' := d[..|d| - 1];
        assert s[..|s| - 1] == a + d' + b;
        SubseqDrop(a, d', b, t');
      } else {
        assert s == a + b;
      }
    }
  }

  // ---- What every queue keeps ----

  // Let in before uid `next' and time `now'.
  predicate Before(packets: seq<Packet>, next: int, now: int) {
    forall i :: 0 <= i < |packets| ==> 0 < packets[i].uid < next && packets[i].inTime <= now
  }

  predicate DiscsOk(discs: seq<Disc>, packets: seq<Packet>, next: int) {
    forall k :: 0 <= k < |discs| ==> LossOk(discs[k], packets) && (discs[k].RLoss? ==> discs[k].lastUid < next)
  }

  // `top' is the largest limit so far, m the largest packet.
  ghost predicate QueueOk(q: Queue, next: int, now: int, top: int, m: int) {
    // sizes
    && q.total == SizeSum(q.packets) && q.total <= top + m && q.limit <= top
    // order
    && InOrder(q.accepted) && Before(q.accepted, next, now)
    && InOrder(q.packets) && Before(q.packets, next, now)
    && Subseq(q.sent + q.packets, q.accepted)
    // nothing lost or made up
    && multiset(q.accepted) == multiset(q.sent) + multiset(q.dropped) + multiset(q.packets)
    // every packet is tossed for at most once
    && DiscsOk(q.discs, q.packets, next)
  }

  lemma {:induction false} SizeSumTwo(a: seq<Packet>, b: seq<Packet>)
    ensures SizeSum(a + b) == SizeSum(a) + SizeSum(b)
  {
    if a == [] {
      assert a + b == b;
    } else {
      assert (a + b)[1..] == a[1..] + b;
      SizeSumTwo(a[1..], b);
    }
  }

  lemma {:induction false} EmptyOk(next: int, now: int, top: int, m: int)
    requires top >= DEFAULT_LIMIT && m >= 0
    ensures QueueOk(EMPTY, next, now, top, m)
  {
  }

  lemma {:induction false} LaterOk(q: Queue, next: int, now: int, top: int, m: int, next': int, now': int, top': int)
    requires QueueOk(q, next, now, top, m) && next <= next' && now <= now' && top <= top'
    ensures QueueOk(q, next', now', top', m)
  {
    hide Subseq, SizeSum, InOrder, LossOk;
  }

  lemma {:induction false} OrderAppend(packets: seq<Packet>, p: Packet, next: int, now: int)
    requires InOrder(packets) && Before(packets, next, now) && p.uid == next > 0 && p.inTime >= now
    ensures InOrder(packets + [p]) && Before(packets + [p], next + 1, p.inTime)
  {
  }

  lemma {:induction false} DiscsAppend(discs: seq<Disc>, packets: seq<Packet>, p: Packet, next: int)
    requires DiscsOk(discs, packets, next) && p.uid == next
    ensures DiscsOk(discs, packets + [p], next + 1)
  {
    forall k | 0 <= k < |discs| ensures LossOk(discs[k], packets + [p]) {
      assert LossOk(discs[k], packets);
    }
  }

  // Pushing: the newest packet joins at the end, or is lost.
  lemma {:induction false} PushedOk(q: Queue, p: Packet, next: int, now: int, top: int, m: int)
    requires QueueOk(q, next, now, top, m) && p.uid == next > 0 && p.inTime >= now && |p.data| <= m
    ensures QueueOk(Pushed(q, p), next + 1, p.inTime, top, m)
  {
    hide Subseq, InOrder, LossOk, SizeSum, Before, DiscsOk;
    if q.total > q.limit {
      LaterOk(q, next, now, top, m, next + 1, p.inTime, top);
      LostOk(q, p, next + 1, p.inTime, top, m);
    } else {
      SizeSumTwo(q.packets, [p]);
      OneSize(p);
      OrderAppend(q.packets, p, next, now);
      OrderAppend(q.accepted, p, next, now);
      SubseqAppend(q.sent + q.packets, q.accepted, p);
      assert q.sent + (q.packets + [p]) == (q.sent + q.packets) + [p];
      DiscsAppend(q.discs, q.packets, p, next);
    }
  }

  lemma {:induction false} OneSize(p: Packet)
    ensures SizeSum([p]) == |p.data|
  {
    assert [p][1..] == [];
  }

  lemma {:induction false} LostOk(q: Queue, p: Packet, next: int, now: int, top: int, m: int)
    requires QueueOk(q, next, now, top, m)
    ensures QueueOk(q.(lost := q.lost + [p]), next, now, top, m)
  {
    hide Subseq, InOrder, LossOk, SizeSum, Before, DiscsOk;
  }

  // Fewer packets at the front.
  lemma {:induction false} SuffixOk(packets: seq<Packet>, n: nat, discs: seq<Disc>, next: int, now: int)
    requires n <= |packets| && InOrder(packets) && Before(packets, next, now) && DiscsOk(discs, packets, next)
    ensures InOrder(packets[n..]) && Before(packets[n..], next, now) && DiscsOk(discs, packets[n..], next)
  {
    forall k | 0 <= k < |discs| ensures LossOk(discs[k], packets[n..]) {
      assert LossOk(discs[k], packets);
    }
  }

  lemma {:induction false} DropNOk(q: Queue, n: nat, next: int, now: int, top: int, m: int)
    requires QueueOk(q, next, now, top, m) && n <= |q.packets|
    ensures QueueOk(DropN(q, n), next, now, top, m)
  {
    hide Subseq, InOrder, LossOk, SizeSum, Before, DiscsOk;
    var d, rest := q.packets[..n], q.packets[n..];
    assert q.packets == d + rest;
    SizeSumTwo(d, rest);
    SuffixOk(q.packets, n, q.discs, next, now);
    assert q.sent + q.packets == q.sent + d + rest;
    SubseqDrop(q.sent, d, rest, q.accepted);
  }

  lemma {:induction false} PoppedOk(q: Queue, next: int, now: int, top: int, m: int)
    requires QueueOk(q, next, now, top, m) && q.packets != []
    ensures QueueOk(Popped(q), next, now, top, m)
  {
    hide Subseq, InOrder, LossOk, SizeSum, Before, DiscsOk;
    var p, rest := q.packets[0], q.packets[1..];
    assert q.packets == [p] + rest;
    SizeSumTwo([p], rest);
    OneSize(p);
    SuffixOk(q.packets, 1, q.discs, next, now);
    assert (q.sent + [p]) + rest == q.sent + q.packets;
  }

  // Asking the chain keeps the disciplines in step with the queue.
  lemma {:induction false} AskFromOk(discs: seq<Disc>, i: nat, time: int, packets: seq<Packet>, luck: seq<seq<int>>,
        next: int, now: int)
    requires i <= |discs| && InOrder(packets) && Before(packets, next, now) && DiscsOk(discs, packets, next)
    ensures var r := AskFrom(discs, i, time, packets, luck); DiscsOk(r.discs, r.packets, next)
    decreases |discs| - i
  {
    hide Ask, LossOk, InOrder;
    if i < |discs| {
      var a := Ask(discs[i], time, packets, LuckOf(luck, i));
      var n := |a.drops|;
      assert a.packets == packets[n..];
      SuffixOk(packets, n, discs, next, now);
      AskedOk(discs[i], time, packets, LuckOf(luck, i), next, now);
      var discs' := discs[i := a.disc];
      assert DiscsOk(discs', a.packets, next);
      if a.answer == Yes { AskFromOk(discs', i + 1, time, a.packets, luck, next, now); }
    }
  }

  lemma {:induction false} AskedOk(d: Disc, time: int, packets: seq<Packet>, draws: seq<int>, next: int, now: int)
    requires InOrder(packets) && Before(packets, next, now) && LossOk(d, packets) && (d.RLoss? ==> d.lastUid < next)
    ensures var a := Ask(d, time, packets, draws);
      LossOk(a.disc, a.packets) && (a.disc.RLoss? ==> a.disc.lastUid < next)
  {
    if d.RLoss? {
      hide InOrder, LossOk;
      TossedOnce(d, time, packets, draws);
      LastBefore(d, time, packets, draws, next, now);
    }
  }

  lemma {:induction false} LastBefore(d: Disc, time: int, packets: seq<Packet>, draws: seq<int>, next: int, now: int)
    requires d.RLoss? && Before(packets, next, now) && d.lastUid < next
    ensures Ask(d, time, packets, draws).disc.lastUid < next
  {
    hide Unlucky;
    TossedBefore(packets, Unlucky(packets, d.lastUid, d.rloss, draws), d.lastUid, next, now);
  }

  lemma {:induction false} TossedBefore(packets: seq<Packet>, n: nat, lastUid: int, next: int, now: int)
    requires n <= |packets| && Before(packets, next, now)
    ensures forall i :: 0 <= i < |Tossed(packets, n, lastUid)| ==> Tossed(packets, n, lastUid)[i] < next
    decreases n
  {
    if n > 0 { TossedBefore(packets[1..], n - 1, packets[0].uid, next, now); }
  }

  // packet_out keeps all of it.
  lemma {:induction false} PacketOutOk(q: Queue, time: int, luck: seq<seq<int>>, next: int, now: int, top: int, m: int)
    requires QueueOk(q, next, now, top, m)
    ensures QueueOk(PacketOut(q, time, luck).0, next, now, top, m)
  {
    hide QueueOk, Popped, AskFrom, Queried;
    QueriedOk(q, time, luck, next, now, top, m);
    var q' := Queried(q, time, luck);
    if q'.packets != [] { PoppedOk(q', next, now, top, m); }
  }

  lemma {:induction false} QueriedOk(q: Queue, time: int, luck: seq<seq<int>>, next: int, now: int, top: int, m: int)
    requires QueueOk(q, next, now, top, m)
    ensures QueueOk(Queried(q, time, luck), next, now, top, m)
  {
    hide QueueOk, DropN, AskFrom;
    var r := AskFrom(q.discs, 0, time, q.packets, luck);
    AskFromDrops(q.discs, 0, time, q.packets, luck);
    var n := |r.drops|;
    assert n <= |q.packets| && q.packets[n..] == r.packets;
    DropNOk(q, n, next, now, top, m);
    NewDiscsOk(q, n, r, time, luck, next, now, top, m);
  }

  lemma {:induction false} NewDiscsOk(q: Queue, n: nat, r: Chained, time: int, luck: seq<seq<int>>, next: int,
        now: int, top: int, m: int)
    requires n <= |q.packets| && q.packets[n..] == r.packets && r == AskFrom(q.discs, 0, time, q.packets, luck)
    requires QueueOk(q, next, now, top, m) && QueueOk(DropN(q, n), next, now, top, m)
    ensures QueueOk(DropN(q, n).(discs := r.discs), next, now, top, m)
  {
    hide Subseq, InOrder, LossOk, SizeSum, Before, DiscsOk, AskFrom;
    AskFromOk(q.discs, 0, time, q.packets, luck, next, now);
  }

  // ---- Where a queue's packets are ----

  function Account(q: Queue): multiset<Packet> {
    multiset(q.sent) + multiset(q.dropped) + multiset(q.lost) + multiset(q.packets)
  }

  lemma {:induction false} PushedAccount(q: Queue, p: Packet)
    ensures Account(Pushed(q, p)) == Account(q) + multiset{p}
  {
  }

  lemma {:induction false} PacketOutAccount(q: Queue, time: int, luck: seq<seq<int>>)
    ensures Account(PacketOut(q, time, luck).0) == Account(q)
  {
    hide AskFrom, Account, Popped, DropN;
    var r := AskFrom(q.discs, 0, time, q.packets, luck);
    var n := if |r.drops| <= |q.packets| then |r.drops| else 0;
    DropNAccount(q, n, r.discs);
    var q' := DropN(q, n).(discs := r.discs);
    if q'.packets != [] { PoppedAccount(q'); }
  }

  lemma {:induction false} DropNAccount(q: Queue, n: nat, discs: seq<Disc>)
    requires n <= |q.packets|
    ensures Account(DropN(q, n).(discs := discs)) == Account(q)
  {
    assert q.packets == q.packets[..n] + q.packets[n..];
  }

  lemma {:induction false} PoppedAccount(q: Queue)
    requires q.packets != []
    ensures Account(Popped(q)) == Account(q)
  {
    assert q.packets == [q.packets[0]] + q.packets[1..];
  }
}
