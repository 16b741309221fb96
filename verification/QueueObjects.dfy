// The classes of the packet scheduler, updated in place: each method does what the functions of
// Disciplines, Queues and Dispatcher say.
module QueueObjects {
  import opened Bytes
  import opened Disciplines
  import opened Queues
  import opened Decisions

  // packets_raw_queue, with its history.
  class RawQueue {
    var packets: seq<Packet>
    var totalDataSize: int
    var totalLimit: int
    ghost var sent: seq<Packet>
    ghost var dropped: seq<Packet>
    ghost var lost: seq<Packet>
    ghost var accepted: seq<Packet>

    ghost function View(): Queue
      reads this
    {
      Queue(packets, totalDataSize, totalLimit, [], sent, dropped, lost, accepted)
    }

    constructor (queueSize: int)
      ensures View() == EMPTY.(limit := queueSize)
    {
      packets, totalDataSize, totalLimit := [], 0, queueSize;
      sent, dropped, lost, accepted := [], [], [], [];
    }

    method Push(p: Packet)
      modifies this
      ensures View() == Pushed(old(View()), p)
      ensures if old(totalDataSize) <= totalLimit
        then packets == old(packets) + [p] && totalDataSize == old(totalDataSize) + |p.data| && lost == old(lost)
        else packets == old(packets) && totalDataSize == old(totalDataSize) && lost == old(lost) + [p]
    {
      if totalDataSize > totalLimit {
        lost := lost + [p];
        return;
      }
      packets := packets + [p];
      totalDataSize := totalDataSize + |p.data|;
      accepted := accepted + [p];
    }

    // The first packet goes, and is sent.
    method Pop() returns (p: Packet)
      requires packets != []
      modifies this
      ensures View() == Popped(old(View()))
      ensures p == old(packets[0]) && packets == old(packets[1..]) && sent == old(sent) + [p]
      ensures totalDataSize == old(totalDataSize) - |p.data|
    {
      p := packets[0];
      totalDataSize := totalDataSize - |packets[0].data|;
      packets := packets[1..];
      sent := sent + [p];
    }

    // The first packet goes, and is lost.
    method DropFront()
      requires packets != []
      modifies this
      ensures View() == DropN(old(View()), 1)
      ensures packets == old(packets[1..]) && totalDataSize == old(totalDataSize) - |old(packets[0]).data|
    {
      OneSize(packets[0]);
      assert packets[..1] == [packets[0]];
      dropped := dropped + [packets[0]];
      totalDataSize := totalDataSize - |packets[0].data|;
      packets := packets[1..];
    }
  }

  lemma {:induction false} DropMore(q: Queue, n: nat)
    requires n < |q.packets|
    ensures DropN(DropN(q, n), 1) == DropN(q, n + 1)
  {
    hide SizeSum;
    var rest := q.packets[n..];
    assert rest[..1] == [q.packets[n]] && q.packets[..n + 1] == q.packets[..n] + [q.packets[n]];
    SizeSumTwo(q.packets[..n], [q.packets[n]]);
  }

  lemma {:induction false} Dropped(q: Queue, n: nat)
    requires n <= |q.packets|
    ensures DropN(q, n).packets == q.packets[n..] && |q.packets[..n]| == n
    ensures DropN(q, n).dropped == q.dropped + q.packets[..n] && DropN(q, n).sent == q.sent
  {
  }

  lemma {:induction false} DroppedFront(q: Queue)
    requires q.packets != []
    ensures DropN(q, 1).packets == q.packets[1..]
  {
  }

  lemma {:induction false} DropNone(q: Queue)
    ensures DropN(q, 0) == q
  {
  }

  // band_qdisc
  class BandQdisc {
    const rate: int
    const burst: int
    const maxDelay: int
    var quota: int
    var lastTs: int

    ghost function View(): Disc
      reads this
    {
      Band(rate, burst, quota, maxDelay, lastTs)
    }

    // `lastTs' is not initialised: any value.
    constructor (rate: int, burst: int, maxDelay: int, lastTs: int)
      ensures View() == Band(rate, burst, 0, maxDelay, lastTs)
    {
      this.rate, this.burst, this.maxDelay, this.lastTs, quota := rate, burst, maxDelay, lastTs, 0;
    }

    method CanPop(time: int, q: RawQueue) returns (yes: bool)
      modifies this, q
      ensures var a := Ask(old(View()), time, old(q.packets), []);
        View() == a.disc && q.View() == DropN(old(q.View()), |a.drops|) && yes == (a.answer == Yes)
      // said of the packets alone: the late ones at the front go and no others, and one left is approved exactly
      // if there is credit
      ensures BandSays(old(View()), time, old(q.packets), yes, q.packets, View())
    {
      hide SizeSum, Traffic, DropN, Overdue, BandSays, LateFront, Earns, Min;
      BandDecides(View(), time, q.packets, []);
      DropNone(q.View());
      Dropped(q.View(), Overdue(q.packets, time, maxDelay));
      if rate <= 0 { return true; }
      quota := Min(burst, quota + Traffic(time - lastTs, rate));
      lastTs := time;
      DropOverdue(time, q);
      if q.packets != [] && quota > 0 {
        quota := quota - (|q.packets[0].data| - ETHERNET);
        return true;
      }
      return false;
    }

    // Drop the packets at the front that have waited too long.
    method DropOverdue(time: int, q: RawQueue)
      modifies q
      ensures q.View() == DropN(old(q.View()), Overdue(old(q.packets), time, maxDelay))
      ensures var n := |old(q.packets)| - |q.packets|;
        && n >= 0 && LateFront(old(q.packets), n, time, maxDelay) && q.packets == old(q.packets)[n..]
    {
      OverdueIsLate(q.packets, time, maxDelay);
      Dropped(q.View(), Overdue(q.packets, time, maxDelay));
      ghost var was := q.View();
      ghost var n: nat := 0;
      DropNone(was);
      while maxDelay != 0 && q.packets != [] && time - q.packets[0].inTime > maxDelay
        invariant n <= |was.packets| && q.View() == DropN(was, n)
        invariant Overdue(was.packets, time, maxDelay) == n + Overdue(q.packets, time, maxDelay)
        decreases |q.packets|
      {
        DropMore(was, n);
        q.DropFront();
        n := n + 1;
      }
    }
  }

  // delay_qdisc, as coded: `packets.empty() && ...'.
  class DelayQdisc {
    const delay: int

    constructor (delay: int)
      ensures this.delay == delay
    {
      this.delay := delay;
    }

    method CanPop(time: int, q: RawQueue) returns (a: Answer)
      ensures a == Ask(Delay(delay), time, q.packets, []).answer
      ensures a == if q.packets != [] then No else Undefined
    {
      if q.packets != [] { return No; }
      // the right-hand side looks at the front of the empty queue
      return Undefined;
    }
  }

  // rloss_qdisc
  class RlossQdisc {
    const rloss: int
    var lastUid: int
    ghost var tossed: seq<int>

    ghost function View(): Disc
      reads this
    {
      RLoss(rloss, lastUid, tossed)
    }

    constructor (rloss: int)
      ensures View() == RLoss(rloss, 0, [])
    {
      this.rloss, lastUid, tossed := rloss, 0, [];
    }

    method CanPop(time: int, q: RawQueue, draws: seq<int>) returns (yes: bool)
      modifies this, q
      ensures var a := Ask(old(View()), time, old(q.packets), draws);
        View() == a.disc && q.View() == DropN(old(q.View()), |a.drops|) && yes == (a.answer == Yes)
      // said of the packets alone: those at the front that lose their toss go and no others, and one left is
      // approved and remembered
      ensures LossSays(old(View()), old(q.packets), draws, yes, q.packets, View())
    {
      hide SizeSum, DropN, Tossed, Unlucky, LossSays;
      LossDecides(View(), time, q.packets, draws);
      ghost var was, n := q.View(), Unlucky(q.packets, lastUid, rloss, draws);
      Dropped(was, n);
      TossAll(q, draws);
      assert old(View()).tossed == old(tossed);
      return q.packets != [];
    }

    // Toss for each new packet at the front, until one stays.
    method TossAll(q: RawQueue, draws: seq<int>)
      modifies this, q
      ensures var n := Unlucky(old(q.packets), old(lastUid), rloss, draws);
        var tosses := Tossed(old(q.packets), n, old(lastUid));
        && q.View() == DropN(old(q.View()), n) && tossed == old(tossed) + tosses
        && lastUid == if tosses == [] then old(lastUid) else tosses[|tosses| - 1]
    {
      hide SizeSum, DropN;
      ghost var was, first, before := q.View(), lastUid, tossed;
      ghost var n, all := 0, Unlucky(was.packets, lastUid, rloss, draws);
      var left := draws;
      DropNone(was);
      while q.packets != [] && lastUid != q.packets[0].uid
        invariant 0 <= n <= all <= |was.packets| && q.View() == DropN(was, n)
        invariant all == n + Unlucky(q.packets, lastUid, rloss, left)
        invariant before + Tossed(was.packets, all, first) == tossed + Tossed(q.packets, all - n, lastUid)
        invariant |tossed| >= |before| && lastUid == if |tossed| == |before| then first else tossed[|tossed| - 1]
        decreases |q.packets|, lastUid != (if q.packets == [] then lastUid else q.packets[0].uid)
      {
        lastUid := q.packets[0].uid;
        tossed := tossed + [lastUid];
        var draw := Draw(left, 0);
        left := if left == [] then [] else left[1..];
        if draw % 100 < rloss {
          DropMore(was, n);
          DroppedFront(q.View());
          q.DropFront();
          n := n + 1;
        }
      }
      ghost var tosses := Tossed(was.packets, all, first);
      assert tossed + [] == tossed == before + tosses;
      if tosses != [] { assert tossed[|tossed| - 1] == tosses[|tosses| - 1]; }
    }
  }

  // ---- The chain ----

  datatype Qdisc = B(band: BandQdisc) | D(wait: DelayQdisc) | R(loss: RlossQdisc)

  ghost function ObjectOf(d: Qdisc): object {
    match d
    case B(b) => b
    case D(w) => w
    case R(l) => l
  }

  ghost function StateOf(d: Qdisc): Disc
    reads ObjectOf(d)
  {
    match d
    case B(b) => b.View()
    case D(w) => Delay(w.delay)
    case R(l) => l.View()
  }

  ghost function Objects(ds: seq<Qdisc>): set<object> {
    set i | 0 <= i < |ds| :: ObjectOf(ds[i])
  }

  ghost function States(ds: seq<Qdisc>): (s: seq<Disc>)
    reads Objects(ds)
    ensures |s| == |ds| && forall i :: 0 <= i < |ds| ==> s[i] == StateOf(ds[i])
  {
    seq(|ds|, i requires 0 <= i < |ds| reads Objects(ds) => StateOf(ds[i]))
  }

  // No two places of the chain share an object.
  ghost predicate Apart(ds: seq<Qdisc>) {
    forall i, j :: 0 <= i < j < |ds| ==> ObjectOf(ds[i]) != ObjectOf(ds[j])
  }

  // One can_pop, whatever the kind.
  method CanPop(ds: seq<Qdisc>, i: nat, time: int, q: RawQueue, draws: seq<int>) returns (a: Answer)
    requires i < |ds| && Apart(ds) && (q as object) !in Objects(ds)
    modifies ObjectOf(ds[i]), q
    ensures var asked := Ask(old(States(ds))[i], time, old(q.packets), draws);
      && a == asked.answer && States(ds) == old(States(ds))[i := asked.disc]
      && q.View() == DropN(old(q.View()), |asked.drops|)
  {
    hide Ask, DropN, BandSays, LossSays;
    ghost var was := States(ds);
    var d := ds[i];
    AskDraws(was[i], time, q.packets, draws);
    match d {
      case B(b) =>
        var yes := b.CanPop(time, q);
        a := if yes then Yes else No;
      case D(w) =>
        a := w.CanPop(time, q);
        DropNone(q.View());
      case R(l) =>
        var yes := l.CanPop(time, q, draws);
        a := if yes then Yes else No;
    }
    assert forall k :: 0 <= k < |ds| && k != i ==> ObjectOf(ds[k]) != ObjectOf(ds[i]);
  }

  // Only random loss looks at the draws, and only the delay as coded can go wrong.
  lemma {:induction false} AskDraws(d: Disc, time: int, packets: seq<Packet>, draws: seq<int>)
    ensures !d.RLoss? ==> Ask(d, time, packets, draws) == Ask(d, time, packets, [])
    ensures d.Band? || d.RLoss? ==> Ask(d, time, packets, draws).answer != Undefined
    ensures d.Delay? ==> Ask(d, time, packets, draws).drops == [] && Ask(d, time, packets, draws).disc == d
  {
  }

  // nqueue
  class Nqueue {
    const raw: RawQueue
    var discs: seq<Qdisc>

    ghost predicate Valid()
      reads this
    {
      Apart(discs) && (raw as object) !in Objects(discs) && (this as object) !in Objects(discs)
    }

    ghost function View(): Queue
      reads this, raw, Objects(discs)
    {
      raw.View().(discs := States(discs))
    }

    constructor ()
      ensures Valid() && View() == EMPTY && fresh(raw)
    {
      raw := new RawQueue(DEFAULT_LIMIT);
      discs := [];
    }

    method PushBackQdisc(d: Qdisc)
      requires Valid() && ObjectOf(d) !in Objects(discs) && ObjectOf(d) != raw && ObjectOf(d) != this
      modifies this
      ensures Valid() && View() == old(View()).(discs := old(View()).discs + [old(StateOf(d))])
    {
      ghost var was := States(discs);
      discs := discs + [d];
      assert States(discs) == was + [StateOf(d)];
    }

    // packet_in: what the filter accepts is pushed.
    method PacketIn(p: Packet, hit: bool) returns (taken: bool)
      requires Valid()
      modifies raw
      ensures Valid() && taken == hit
      ensures View() == if hit then Pushed(old(View()), p) else old(View())
    {
      if hit { raw.Push(p); }
      return hit;
    }

    // packet_out: every discipline must agree.
    method PacketOut(time: int, luck: seq<seq<int>>) returns (o: Outcome)
      requires Valid()
      modifies raw, Objects(discs)
      ensures Valid() && (View(), o) == Queues.PacketOut(old(View()), time, luck)
    {
      hide AskFrom, DropN, Popped, Ask;
      if discs == [] { return Nothing; }
      ghost var was, whole := View(), AskFrom(View().discs, 0, time, View().packets, luck);
      ghost var gone: seq<Packet> := [];
      DropNone(raw.View());
      var i := 0;
      while i < |discs|
        invariant 0 <= i <= |discs| && discs == old(discs) && Valid() && |gone| <= |was.packets|
        invariant raw.View() == DropN(was.(discs := []), |gone|)
        invariant Rest(whole, gone, AskFrom(States(discs), i, time, raw.packets, luck))
      {
        ghost var states, packets := States(discs), raw.packets;
        var a := CanPop(discs, i, time, raw, LuckOf(luck, i));
        AskedNext(whole, gone, states, i, time, packets, luck);
        Dropped(was.(discs := []), |gone|);
        GoneMore(was.(discs := []), gone, packets, Ask(states[i], time, packets, LuckOf(luck, i)));
        gone := gone + Ask(states[i], time, packets, LuckOf(luck, i)).drops;
        if a != Yes {
          Stopped(was, whole, gone, time, luck, States(discs));
          return if a == No then Nothing else Broken;
        }
        i := i + 1;
      }
      AllAgreed(was, whole, gone, time, luck, States(discs));
      if raw.packets == [] { return Broken; }
      ghost var q' := raw.View();
      var p := raw.Pop();
      PoppedDiscs(q', States(discs));
      return Sent(p);
    }
  }

  // What is left of the chain's answer once `gone' packets have been dropped.
  ghost predicate Rest(whole: Chained, gone: seq<Packet>, r: Chained) {
    whole.answer == r.answer && whole.discs == r.discs && whole.packets == r.packets && whole.drops == gone + r.drops
  }

  lemma {:induction false} AskedNext(whole: Chained, gone: seq<Packet>, states: seq<Disc>, i: nat, time: int,
        packets: seq<Packet>, luck: seq<seq<int>>)
    requires i < |states| && Rest(whole, gone, AskFrom(states, i, time, packets, luck))
    ensures var a := Ask(states[i], time, packets, LuckOf(luck, i));
      && packets == a.drops + a.packets
      && (a.answer == Yes ==> Rest(whole, gone + a.drops, AskFrom(states[i := a.disc], i + 1, time, a.packets, luck)))
      && (a.answer != Yes ==> Rest(whole, gone + a.drops, Chained(a.answer, states[i := a.disc], a.packets, [])))
  {
    hide Ask;
    var a := Ask(states[i], time, packets, LuckOf(luck, i));
    if a.answer == Yes {
      var r := AskFrom(states[i := a.disc], i + 1, time, a.packets, luck);
      assert gone + (a.drops + r.drops) == (gone + a.drops) + r.drops;
    } else {
      assert gone + a.drops + [] == gone + a.drops;
    }
  }

  lemma {:induction false} GoneMore(was: Queue, gone: seq<Packet>, packets: seq<Packet>, a: Asked)
    requires |gone| <= |was.packets| && packets == was.packets[|gone|..] && packets == a.drops + a.packets
    ensures |gone + a.drops| <= |was.packets|
    ensures DropN(DropN(was, |gone|), |a.drops|) == DropN(was, |gone + a.drops|)
    ensures DropN(was, |gone + a.drops|).packets == a.packets
  {
    hide SizeSum;
    var n, m := |gone|, |gone| + |a.drops|;
    assert packets[..|a.drops|] == was.packets[n..m];
    assert was.packets[..m] == was.packets[..n] + was.packets[n..m];
    SizeSumTwo(was.packets[..n], was.packets[n..m]);
    assert was.packets[m..] == packets[|a.drops|..] == a.packets;
  }

  lemma {:induction false} DropDiscs(q: Queue, n: nat, discs: seq<Disc>)
    requires n <= |q.packets|
    ensures DropN(q.(discs := []), n).(discs := discs) == DropN(q, n).(discs := discs)
  {
  }

  lemma {:induction false} PoppedDiscs(q: Queue, discs: seq<Disc>)
    requires q.packets != []
    ensures Popped(q).(discs := discs) == Popped(q.(discs := discs))
  {
  }

  lemma {:induction false} Stopped(was: Queue, whole: Chained, gone: seq<Packet>, time: int, luck: seq<seq<int>>,
        discs: seq<Disc>)
    requires whole == AskFrom(was.discs, 0, time, was.packets, luck) && was.discs != [] && |gone| <= |was.packets|
    requires whole.answer != Yes && Rest(whole, gone, Chained(whole.answer, discs, whole.packets, []))
    ensures Queues.PacketOut(was, time, luck) ==
      (DropN(was.(discs := []), |gone|).(discs := discs), if whole.answer == No then Nothing else Broken)
  {
    hide AskFrom, DropN;
    assert whole.drops == gone;
    DropDiscs(was, |gone|, discs);
  }

  lemma {:induction false} AllAgreed(was: Queue, whole: Chained, gone: seq<Packet>, time: int, luck: seq<seq<int>>,
        discs: seq<Disc>)
    requires whole == AskFrom(was.discs, 0, time, was.packets, luck) && was.discs != [] && |gone| <= |was.packets|
    requires exists packets :: Rest(whole, gone, AskFrom(discs, |discs|, time, packets, luck))
    ensures var q' := DropN(was.(discs := []), |gone|).(discs := discs);
      Queues.PacketOut(was, time, luck) == if q'.packets == [] then (q', Broken) else (Popped(q'), Sent(q'.packets[0]))
  {
    hide DropN;
    var packets :| Rest(whole, gone, AskFrom(discs, |discs|, time, packets, luck));
    AtTheEnd(discs, time, packets, luck);
    assert whole.drops == gone;
    DropDiscs(was, |gone|, discs);
  }

  lemma {:induction false} AtTheEnd(discs: seq<Disc>, time: int, packets: seq<Packet>, luck: seq<seq<int>>)
    ensures AskFrom(discs, |discs|, time, packets, luck) == Chained(Yes, discs, packets, [])
  {
  }
}
