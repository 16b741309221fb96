// What the disciplines of a queue come to over whole runs of the dispatcher.
module DispatcherRuns {
  import opened Bytes
  import opened Disciplines
  import opened Queues
  import opened Dispatcher

  // ---- Waiting times and losses, in every state reached ----

  // Whatever is sent in a service round, by a queue with a positive-rate band that has a maximal delay, has
  // not waited longer.
  lemma {:induction false} SentInTime(cs: seq<Command>, m: int, i: nat, k: nat, time: int, luck: seq<seq<int>>)
    requires m >= 0 && Proper(cs, m) && i < |Run(cs).queues|
    requires var discs := Run(cs).queues[i].queue.discs;
      k < |discs| && discs[k].Band? && discs[k].rate > 0 && discs[k].maxDelay > 0
    ensures var q := Run(cs).queues[i].queue;
      var out := PacketOut(q, time, luck).1;
      out.Sent? ==> time - out.p.inTime <= q.discs[k].maxDelay
  {
    hide Run, Proper, Subseq, InOrder, SizeSum, DiscsOk, Before, AskFrom;
    KeptOk(cs, m, Run(cs).queues[i].queue);
    MaxDelaySent(Run(cs).queues[i].queue, k, time, luck);
  }

  lemma {:induction false} MaxDelaySent(q: Queue, k: nat, time: int, luck: seq<seq<int>>)
    requires k < |q.discs| && q.discs[k].Band? && q.discs[k].rate > 0 && q.discs[k].maxDelay > 0 && InOrder(q.packets)
    ensures var out := PacketOut(q, time, luck).1; out.Sent? ==> time - out.p.inTime <= q.discs[k].maxDelay
  {
    hide AskFrom, InOrder, SizeSum;
    MaxDelayHolds(q.discs, 0, k, time, q.packets, luck);
    AskFromDrops(q.discs, 0, time, q.packets, luck);
    FrontSent(q, time, luck);
  }

  // What is sent is the front of what the chain left.
  lemma {:induction false} FrontSent(q: Queue, time: int, luck: seq<seq<int>>)
    ensures var (q', out) := PacketOut(q, time, luck);
      var r := AskFrom(q.discs, 0, time, q.packets, luck);
      out.Sent? ==> q.discs != [] && r.answer == Yes && r.packets != [] && out.p == r.packets[0] && q'.discs == r.discs
  {
    hide AskFrom, SizeSum;
    AskFromDrops(q.discs, 0, time, q.packets, luck);
    var r := AskFrom(q.discs, 0, time, q.packets, luck);
    assert q.packets[|r.drops|..] == r.packets;
  }

  // Whatever is sent by a queue with a random loss has been tossed for, and once, if and only if no later
  // discipline drops anything in that call.
  lemma {:induction false} SentTossed(cs: seq<Command>, m: int, i: nat, k: nat, time: int, luck: seq<seq<int>>)
    requires m >= 0 && Proper(cs, m) && i < |Run(cs).queues|
    requires var discs := Run(cs).queues[i].queue.discs; k < |discs| && discs[k].RLoss?
    ensures var q := Run(cs).queues[i].queue;
      var (q', out) := PacketOut(q, time, luck);
      out.Sent? ==>
        && k < |q'.discs| && q'.discs[k].RLoss? && Increasing(q'.discs[k].tossed)
        && (out.p.uid in q'.discs[k].tossed <==> LateDrops(q.discs, 0, k, time, q.packets, luck) == [])
  {
    hide Run, Proper, Subseq, InOrder, SizeSum, AskFrom, PacketOut, Increasing, LossOk, LateDrops;
    var s := Run(cs);
    var q := s.queues[i].queue;
    KeptOk(cs, m, q);
    FrontSent(q, time, luck);
    SentWasTossed(q.discs, k, time, q.packets, luck);
    PacketOutOk(q, time, luck, s.nextUid, s.now, s.top, m);
    if PacketOut(q, time, luck).1.Sent? { TossesIncrease(PacketOut(q, time, luck).0, k, s.nextUid); }
  }

  lemma {:induction false} TossesIncrease(q: Queue, k: nat, next: int)
    requires DiscsOk(q.discs, q.packets, next) && k < |q.discs| && q.discs[k].RLoss?
    ensures Increasing(q.discs[k].tossed)
  {
    hide Increasing;
  }

  // ---- The delay as coded, over whole runs ----

  // Entry i of the queues is the one of this key, has the delay in place k, and has sent this much.
  predicate Held(queues: seq<Entry>, i: nat, key: int, k: nat, sent: seq<Packet>) {
    i < |queues| && queues[i].key == key
    && k < |queues[i].queue.discs| && queues[i].queue.discs[k].Delay? && queues[i].queue.sent == sent
  }

  // The command neither erases the queue nor puts another discipline in that place.
  predicate Leaves(c: Command, key: int, k: nat) {
    !(c.Clear? && c.key == key) && !(c.SetDisc? && c.key == key && c.index == k)
  }

  lemma {:induction false} PlaceSplits(queues: seq<Entry>, key: int)
    ensures var i := Place(queues, key);
      && i <= |queues| && (forall k :: 0 <= k < i ==> queues[k].key < key) && (i < |queues| ==> queues[i].key >= key)
  {
  }

  lemma {:induction false} ServedHolds(queues: seq<Entry>, j: nat, time: int, luck: seq<seq<seq<int>>>, i: nat,
        key: int, k: nat, sent: seq<Packet>)
    requires j <= |queues| && Held(queues, i, key, k, sent)
    ensures Held(Served(queues, j, time, luck), i, key, k, sent)
    decreases |queues| - j
  {
    hide PacketOut;
    if j < |queues| {
      var q := queues[j].queue;
      if i == j { DelayNeverSends(q, k, time, LuckFor(luck, j)); }
      ServedHolds(queues[j := Entry(queues[j].key, PacketOut(q, time, LuckFor(luck, j)).0)], j + 1, time, luck, i, key,
        k, sent);
    }
  }

  lemma {:induction false} EnsuredHolds(queues: seq<Entry>, other: int, i: nat, key: int, k: nat,
        sent: seq<Packet>) returns (i': nat)
    requires Held(queues, i, key, k, sent)
    ensures Held(Ensured(queues, other), i', key, k, sent)
  {
    hide Place;
    i' := if Has(queues, other) || i < Place(queues, other) then i else i + 1;
  }

  lemma {:induction false} AtKeyHolds(s: State, c: Command, other: int, i: nat, key: int, k: nat,
        sent: seq<Packet>) returns (i': nat)
    requires Held(s.queues, i, key, k, sent) && Leaves(c, key, k)
    requires (c.SetSize? || c.SetFilter? || c.AddDisc? || c.SetDisc?) && c.key == other
    ensures Held(AtKey(s.queues, other, c), i', key, k, sent)
  {
    hide Place, Ensured, Changed;
    i' := EnsuredHolds(s.queues, other, i, key, k, sent);
    var all := Ensured(s.queues, other);
    EnsuredHas(s.queues, other);
    if i' == Place(all, other) { ChangedHolds(all[i'].queue, c, k); }
  }

  lemma {:induction false} EnsuredHas(queues: seq<Entry>, key: int)
    ensures Has(Ensured(queues, key), key)
  {
    hide Place;
    PlaceSplits(queues, key);
    PlaceSplits(Ensured(queues, key), key);
    if !Has(queues, key) { assert Ensured(queues, key)[Place(queues, key)].key == key; }
  }

  lemma {:induction false} ChangedHolds(q: Queue, c: Command, k: nat)
    requires k < |q.discs| && q.discs[k].Delay? && !(c.SetDisc? && c.index == k)
    ensures var q' := Changed(q, c); q'.sent == q.sent && k < |q'.discs| && q'.discs[k].Delay?
  {
  }

  lemma {:induction false} ClearHolds(queues: seq<Entry>, other: int, i: nat, key: int, k: nat,
        sent: seq<Packet>) returns (i': nat)
    requires Held(queues, i, key, k, sent) && other != key && Has(queues, other)
    ensures var j := Place(queues, other); Held(queues[..j] + queues[j + 1..], i', key, k, sent)
  {
    hide Place;
    i' := if i < Place(queues, other) then i else i - 1;
  }

  lemma {:induction false} StepHolds(s: State, c: Command, i: nat, key: int, k: nat,
        sent: seq<Packet>) returns (i': nat)
    requires Held(s.queues, i, key, k, sent) && Leaves(c, key, k)
    ensures Held(Step(s, c).queues, i', key, k, sent)
  {
    hide Place, FirstHit, Served, AtKey, Has;
    i' := i;
    match c
    case Push(time, data, hits) =>
    case Service(time, luck) => ServedHolds(s.queues, 0, time, luck, i, key, k, sent);
    case Clear(other) => if Has(s.queues, other) { i' := ClearHolds(s.queues, other, i, key, k, sent); }
    case SetSize(other, _) => i' := AtKeyHolds(s, c, other, i, key, k, sent);
    case SetFilter(other) => i' := AtKeyHolds(s, c, other, i, key, k, sent);
    case AddDisc(other, _) => i' := AtKeyHolds(s, c, other, i, key, k, sent);
    case SetDisc(other, _, _) => i' := AtKeyHolds(s, c, other, i, key, k, sent);
  }

  // Once the delay as coded is in the chain of a queue, the queue sends nothing more, whatever is pushed,
  // served and configured, until it is erased or another discipline put in that place.
  lemma {:induction false} DelayHoldsAll(cs: seq<Command>, more: seq<Command>, i: nat, key: int,
        k: nat) returns (i': nat)
    requires i < |Run(cs).queues| && Run(cs).queues[i].key == key
    requires k < |Run(cs).queues[i].queue.discs| && Run(cs).queues[i].queue.discs[k].Delay?
    requires forall c <- more :: Leaves(c, key, k)
    ensures i' < |Run(cs + more).queues| && Run(cs + more).queues[i'].key == key
    ensures Run(cs + more).queues[i'].queue.sent == Run(cs).queues[i].queue.sent
  {
    hide Run;
    i' := DelayHoldsUntil(cs, more, i, key, k);
  }

  lemma {:induction false} DelayHoldsUntil(cs: seq<Command>, more: seq<Command>, i: nat, key: int,
        k: nat) returns (i': nat)
    requires i < |Run(cs).queues| && Run(cs).queues[i].key == key
    requires k < |Run(cs).queues[i].queue.discs| && Run(cs).queues[i].queue.discs[k].Delay?
    requires forall c <- more :: Leaves(c, key, k)
    ensures Held(Run(cs + more).queues, i', key, k, Run(cs).queues[i].queue.sent)
    decreases |more|
  {
    hide Step;
    if more == [] {
      assert cs + more == cs;
      i' := i;
    } else {
      var n := |more| - 1;
      var all, front := cs + more, cs + more[..n];
      assert all[..|all| - 1] == front && all[|all| - 1] == more[n];
      var j := DelayHoldsUntil(cs, more[..n], i, key, k);
      i' := StepHolds(Run(front), more[n], j, key, k, Run(cs).queues[i].queue.sent);
    }
  }
}
