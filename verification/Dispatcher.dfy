// The dispatcher: queues by key, served and pushed to under one lock, each locked section being one
// step; what becomes of every packet over whole runs.
module Dispatcher {
  import opened Bytes
  import opened Disciplines
  import opened Queues

  // Queues in the order of their keys, of which only the order matters.
  datatype Entry = Entry(key: int, queue: Queue)

  // erased, pushed, forwarded, now (the latest time so far) and top (the largest limit so far) are history
  // only.
  datatype State = State(queues: seq<Entry>, nextUid: int, now: int, top: int,
                         erased: seq<Queue>, pushed: seq<Packet>, forwarded: seq<Packet>)

  const START := State([], 1, 0, DEFAULT_LIMIT, [], [], [])

  // One locked section.  `hits' are the keys whose filters accept the packet pushed; `luck' are the
  // random draws of each discipline of each queue.
  datatype Command =
    | Push(time: int, data: seq<byte>, hits: set<int>)
    | Service(time: int, luck: seq<seq<seq<int>>>)
    | SetSize(key: int, size: nat)
    | SetFilter(key: int)
    | Clear(key: int)
    | AddDisc(key: int, disc: Disc)
    | SetDisc(key: int, index: int, disc: Disc)

  // ---- The map of queues ----

  // The place of a key: where it is, or where it would go.
  function Place(queues: seq<Entry>, key: int): (i: nat)
    ensures i <= |queues|
    ensures forall k :: 0 <= k < i ==> queues[k].key < key
    ensures i < |queues| ==> queues[i].key >= key
  {
    if queues == [] || queues[0].key >= key then 0 else 1 + Place(queues[1..], key)
  }

  predicate Has(queues: seq<Entry>, key: int) {
    Place(queues, key) < |queues| && queues[Place(queues, key)].key == key
  }

  // nq_list[key]: a key not there yet gets an empty queue.
  function Ensured(queues: seq<Entry>, key: int): seq<Entry> {
    var i := Place(queues, key);
    if Has(queues, key) then queues else queues[..i] + [Entry(key, EMPTY)] + queues[i..]
  }

  predicate Sorted(queues: seq<Entry>) {
    forall i, j :: 0 <= i < j < |queues| ==> queues[i].key < queues[j].key
  }

  // The first queue whose filter accepts.
  function FirstHit(queues: seq<Entry>, hits: set<int>): (i: nat)
    ensures i <= |queues|
  {
    if queues == [] || queues[0].key in hits then 0 else 1 + FirstHit(queues[1..], hits)
  }

  function LuckFor(luck: seq<seq<seq<int>>>, i: nat): seq<seq<int>> {
    if i < |luck| then luck[i] else []
  }

  // One service round: packet_out once for every queue.
  function Served(queues: seq<Entry>, i: nat, time: int, luck: seq<seq<seq<int>>>): (r: seq<Entry>)
    requires i <= |queues|
    ensures |r| == |queues|
    decreases |queues| - i
  {
    if i == |queues| then queues
    else Served(queues[i := Entry(queues[i].key, PacketOut(queues[i].queue, time, LuckFor(luck, i)).0)], i + 1, time,
      luck)
  }

  // ---- Steps ----

  // A discipline as it is created.
  predicate Fresh(d: Disc) {
    d.RLoss? ==> d.lastUid == 0 && d.tossed == []
  }

  // A push reads the clock under the lock, so it comes after every time read before.  A service round reads
  // it before it takes the lock: pushes can get in between, and its time may be any.
  predicate Allowed(s: State, c: Command, m: int) {
    match c
    case Push(time, data, _) => time >= s.now && |data| <= m
    case AddDisc(_, d) => Fresh(d)
    case SetDisc(_, _, d) => Fresh(d)
    case _ => true
  }

  // What a command for one queue changes in it.
  function Changed(q: Queue, c: Command): Queue {
    match c
    case SetSize(_, size) => q.(limit := size)
    case AddDisc(_, d) => q.(discs := q.discs + [d])
    case SetDisc(_, index, d) => if 0 <= index < |q.discs| then q.(discs := q.discs[index := d]) else q
    case _ => q
  }

  function AtKey(queues: seq<Entry>, key: int, c: Command): seq<Entry> {
    var all := Ensured(queues, key);
    var i := Place(all, key);
    if i < |all| then all[i := Entry(all[i].key, Changed(all[i].queue, c))] else all
  }

  function Step(s: State, c: Command): State {
    match c
    case Push(time, data, hits) =>
      var p := Packet(s.nextUid, time, data);
      var i := FirstHit(s.queues, hits);
      var s' := s.(nextUid := s.nextUid + 1, now := time, pushed := s.pushed + [p]);
      if i < |s.queues| then s'.(queues := s.queues[i := Entry(s.queues[i].key, Pushed(s.queues[i].queue, p))])
      else s'.(forwarded := s.forwarded + [p])
    case Service(time, luck) => s.(queues := Served(s.queues, 0, time, luck), now := Max(s.now, time))
    case Clear(key) =>
      var i := Place(s.queues, key);
      if Has(s.queues, key) then
        s.(queues := s.queues[..i] + s.queues[i + 1..], erased := s.erased + [s.queues[i].queue])
      else s
    case SetSize(key, size) => s.(queues := AtKey(s.queues, key, c), top := if size > s.top then size else s.top)
    case SetFilter(key) => s.(queues := AtKey(s.queues, key, c))
    case AddDisc(key, _) => s.(queues := AtKey(s.queues, key, c))
    case SetDisc(key, _, _) => s.(queues := AtKey(s.queues, key, c))
  }

  // ---- Where all packets are ----

  function AccountAll(queues: seq<Entry>): multiset<Packet> {
    if queues == [] then multiset{} else Account(queues[0].queue) + AccountAll(queues[1..])
  }

  function AccountErased(erased: seq<Queue>): multiset<Packet> {
    if erased == [] then multiset{} else AccountErased(erased[..|erased| - 1]) + Account(erased[|erased| - 1])
  }

  lemma {:induction false} AccountTwo(a: seq<Entry>, b: seq<Entry>)
    ensures AccountAll(a + b) == AccountAll(a) + AccountAll(b)
  {
    hide Account;
    if a == [] {
      assert a + b == b;
    } else {
      assert (a + b)[1..] == a[1..] + b;
      AccountTwo(a[1..], b);
    }
  }

  lemma {:induction false} Cancel(a: multiset<Packet>, b: multiset<Packet>, x: multiset<Packet>)
    requires a + x == b + x
    ensures a == b
  {
    forall p ensures a[p] == b[p] {
      assert (a + x)[p] == a[p] + x[p] && (b + x)[p] == b[p] + x[p];
    }
  }

  // One entry changes.
  lemma {:induction false} AccountAt(queues: seq<Entry>, i: nat, e: Entry)
    requires i < |queues|
    ensures AccountAll(queues[i := e]) + Account(queues[i].queue) == AccountAll(queues) + Account(e.queue)
  {
    hide Account;
    AccountAround(queues, i, queues[i]);
    AccountAround(queues, i, e);
    assert queues[i := queues[i]] == queues;
  }

  lemma {:induction false} AccountAround(queues: seq<Entry>, i: nat, e: Entry)
    requires i < |queues|
    ensures AccountAll(queues[i := e]) == AccountAll(queues[..i]) + Account(e.queue) + AccountAll(queues[i + 1..])
  {
    hide Account;
    assert queues[i := e] == queues[..i] + ([e] + queues[i + 1..]);
    AccountTwo(queues[..i], [e] + queues[i + 1..]);
    assert ([e] + queues[i + 1..])[1..] == queues[i + 1..];
  }

  lemma {:induction false} EmptyAccount()
    ensures Account(EMPTY) == multiset{}
  {
  }

  lemma {:induction false} EnsuredAccount(queues: seq<Entry>, key: int)
    ensures AccountAll(Ensured(queues, key)) == AccountAll(queues)
  {
    hide Account, Place;
    var i := Place(queues, key);
    if !Has(queues, key) {
      var e := Entry(key, EMPTY);
      EmptyAccount();
      assert queues[..i] + [e] + queues[i..] == queues[..i] + ([e] + queues[i..]);
      AccountTwo(queues[..i], [e] + queues[i..]);
      assert ([e] + queues[i..])[1..] == queues[i..];
      AccountTwo(queues[..i], queues[i..]);
      assert queues[..i] + queues[i..] == queues;
    }
  }

  lemma {:induction false} ChangedAccount(q: Queue, c: Command)
    ensures Account(Changed(q, c)) == Account(q)
  {
  }

  lemma {:induction false} AtKeyAccount(queues: seq<Entry>, key: int, c: Command)
    ensures AccountAll(AtKey(queues, key, c)) == AccountAll(queues)
  {
    hide Account, Place, Changed, Ensured;
    var all := Ensured(queues, key);
    var i := Place(all, key);
    EnsuredAccount(queues, key);
    if i < |all| {
      ChangedAccount(all[i].queue, c);
      var e := Entry(all[i].key, Changed(all[i].queue, c));
      AccountAt(all, i, e);
      Cancel(AccountAll(all[i := e]), AccountAll(all), Account(all[i].queue));
    }
  }

  lemma {:induction false} ServedAccount(queues: seq<Entry>, i: nat, time: int, luck: seq<seq<seq<int>>>)
    requires i <= |queues|
    ensures AccountAll(Served(queues, i, time, luck)) == AccountAll(queues)
    decreases |queues| - i
  {
    hide Account, PacketOut;
    if i < |queues| {
      var e := Entry(queues[i].key, PacketOut(queues[i].queue, time, LuckFor(luck, i)).0);
      PacketOutAccount(queues[i].queue, time, LuckFor(luck, i));
      AccountAt(queues, i, e);
      Cancel(AccountAll(queues[i := e]), AccountAll(queues), Account(queues[i].queue));
      ServedAccount(queues[i := e], i + 1, time, luck);
    }
  }

  lemma {:induction false} ClearedAccount(queues: seq<Entry>, i: nat, erased: seq<Queue>)
    requires i < |queues|
    ensures AccountAll(queues[..i] + queues[i + 1..]) + AccountErased(erased + [queues[i].queue])
      == AccountAll(queues) + AccountErased(erased)
  {
    hide Account;
    AccountTwo(queues[..i], queues[i + 1..]);
    AccountAround(queues, i, queues[i]);
    assert queues[i := queues[i]] == queues;
    var more := erased + [queues[i].queue];
    assert more[..|more| - 1] == erased;
  }

  lemma {:induction false} Regroup(a: multiset<Packet>, b: multiset<Packet>, c: multiset<Packet>)
    ensures a + b + c == a + (b + c)
  {
  }

  // Every packet pushed was forwarded, or is accounted for by one queue: conservation, step by step.
  ghost predicate Conserved(s: State) {
    multiset(s.pushed) == multiset(s.forwarded) + AccountAll(s.queues) + AccountErased(s.erased)
  }

  lemma {:induction false} PushConserves(s: State, time: int, data: seq<byte>, hits: set<int>)
    requires Conserved(s)
    ensures Conserved(Step(s, Push(time, data, hits)))
  {
    hide Account, AccountAll, AccountErased, FirstHit, Pushed;
    var p, i := Packet(s.nextUid, time, data), FirstHit(s.queues, hits);
    if i < |s.queues| {
      var q, e := s.queues[i].queue, Entry(s.queues[i].key, Pushed(s.queues[i].queue, p));
      PushedAccount(q, p);
      AccountAt(s.queues, i, e);
      var a, b := AccountAll(s.queues), AccountAll(s.queues[i := e]);
      assert a + (Account(q) + multiset{p}) == (a + multiset{p}) + Account(q);
      Cancel(b, a + multiset{p}, Account(q));
      assert multiset(s.forwarded) + (a + multiset{p}) + AccountErased(s.erased)
        == multiset(s.forwarded) + a + AccountErased(s.erased) + multiset{p};
    }
  }

  lemma {:induction false} StepConserves(s: State, c: Command)
    requires Conserved(s)
    ensures Conserved(Step(s, c))
  {
    hide Account, AccountAll, AccountErased, Place, FirstHit, AtKey, Served, Pushed;
    match c
    case Push(time, data, hits) => PushConserves(s, time, data, hits);
    case Service(time, luck) => ServedAccount(s.queues, 0, time, luck);
    case Clear(key) =>
      if Has(s.queues, key) {
        ClearedAccount(s.queues, Place(s.queues, key), s.erased);
        Regroup(multiset(s.forwarded), AccountAll(s.queues), AccountErased(s.erased));
        Regroup(multiset(s.forwarded), AccountAll(Step(s, c).queues), AccountErased(Step(s, c).erased));
      }
    case SetSize(key, size) => AtKeyAccount(s.queues, key, c);
    case SetFilter(key) => AtKeyAccount(s.queues, key, c);
    case AddDisc(key, _) => AtKeyAccount(s.queues, key, c);
    case SetDisc(key, _, _) => AtKeyAccount(s.queues, key, c);
  }

  // ---- What every step keeps ----

  ghost predicate QueuesOk(queues: seq<Entry>, next: int, now: int, top: int, m: int) {
    forall i :: 0 <= i < |queues| ==> QueueOk(queues[i].queue, next, now, top, m)
  }

  // What was in a queue when it was erased stays as it was.
  ghost predicate ErasedOk(erased: seq<Queue>, next: int, now: int, top: int, m: int) {
    forall i :: 0 <= i < |erased| ==> QueueOk(erased[i], next, now, top, m)
  }

  ghost predicate StateOk(s: State, m: int) {
    && s.nextUid > 0 && s.top >= DEFAULT_LIMIT && m >= 0
    && QueuesOk(s.queues, s.nextUid, s.now, s.top, m) && Sorted(s.queues)
    && ErasedOk(s.erased, s.nextUid, s.now, s.top, m)
    && InOrder(s.pushed) && Before(s.pushed, s.nextUid, s.now)
    && Conserved(s)
  }

  lemma {:induction false} QueuesLater(queues: seq<Entry>, next: int, now: int, top: int, m: int, next': int,
        now': int, top': int)
    requires QueuesOk(queues, next, now, top, m) && next <= next' && now <= now' && top <= top'
    ensures QueuesOk(queues, next', now', top', m)
  {
    hide QueueOk;
    forall i | 0 <= i < |queues| ensures QueueOk(queues[i].queue, next', now', top', m) {
      LaterOk(queues[i].queue, next, now, top, m, next', now', top');
    }
  }

  lemma {:induction false} ErasedLater(erased: seq<Queue>, next: int, now: int, top: int, m: int, next': int,
        now': int, top': int)
    requires ErasedOk(erased, next, now, top, m) && next <= next' && now <= now' && top <= top'
    ensures ErasedOk(erased, next', now', top', m)
  {
    hide QueueOk;
    forall i | 0 <= i < |erased| ensures QueueOk(erased[i], next', now', top', m) {
      LaterOk(erased[i], next, now, top, m, next', now', top');
    }
  }

  lemma {:induction false} ServedOk(queues: seq<Entry>, i: nat, time: int, luck: seq<seq<seq<int>>>, next: int,
        now: int, top: int, m: int)
    requires i <= |queues| && QueuesOk(queues, next, now, top, m) && Sorted(queues)
    ensures QueuesOk(Served(queues, i, time, luck), next, now, top, m) && Sorted(Served(queues, i, time, luck))
    decreases |queues| - i
  {
    hide QueueOk, PacketOut;
    if i < |queues| {
      PacketOutOk(queues[i].queue, time, LuckFor(luck, i), next, now, top, m);
      ServedOk(queues[i := Entry(queues[i].key, PacketOut(queues[i].queue, time, LuckFor(luck, i)).0)], i + 1, time,
        luck, next, now, top, m);
    }
  }

  lemma {:induction false} EnsuredOk(queues: seq<Entry>, key: int, next: int, now: int, top: int, m: int)
    requires QueuesOk(queues, next, now, top, m) && Sorted(queues) && top >= DEFAULT_LIMIT && m >= 0
    ensures QueuesOk(Ensured(queues, key), next, now, top, m) && Sorted(Ensured(queues, key))
    ensures Place(Ensured(queues, key), key) < |Ensured(queues, key)|
  {
    hide QueueOk;
    EmptyOk(next, now, top, m);
    var i, all := Place(queues, key), Ensured(queues, key);
    if !Has(queues, key) {
      forall a, b | 0 <= a < b < |all| ensures all[a].key < all[b].key { }
    }
    assert all[i].key == key;
  }

  // Changing the size limit, or the disciplines.
  lemma {:induction false} ChangedOk(q: Queue, c: Command, next: int, now: int, top: int, m: int)
    requires QueueOk(q, next, now, top, m) && next > 0
    requires (c.SetSize? ==> c.size <= top) && (c.AddDisc? ==> Fresh(c.disc)) && (c.SetDisc? ==> Fresh(c.disc))
    ensures QueueOk(Changed(q, c), next, now, top, m)
  {
    hide Subseq, SizeSum, InOrder, LossOk;
    match c
    case AddDisc(_, d) =>
      FreshOk(d, q.packets, next, now);
    case SetDisc(_, _, d) => FreshOk(d, q.packets, next, now);
    case _ =>
  }

  lemma {:induction false} FreshOk(d: Disc, packets: seq<Packet>, next: int, now: int)
    requires Fresh(d) && Before(packets, next, now) && next > 0
    ensures LossOk(d, packets) && (d.RLoss? ==> d.lastUid < next)
  {
  }

  lemma {:induction false} AtKeyOk(queues: seq<Entry>, key: int, c: Command, next: int, now: int, top: int, m: int)
    requires QueuesOk(queues, next, now, top, m) && Sorted(queues) && top >= DEFAULT_LIMIT && m >= 0 && next > 0
    requires (c.SetSize? ==> c.size <= top) && (c.AddDisc? ==> Fresh(c.disc)) && (c.SetDisc? ==> Fresh(c.disc))
    ensures QueuesOk(AtKey(queues, key, c), next, now, top, m) && Sorted(AtKey(queues, key, c))
  {
    hide QueueOk, Changed, Ensured, Place;
    EnsuredOk(queues, key, next, now, top, m);
    var all := Ensured(queues, key);
    ChangedOk(all[Place(all, key)].queue, c, next, now, top, m);
  }

  lemma {:induction false} PushOk(s: State, time: int, data: seq<byte>, hits: set<int>, m: int)
    requires StateOk(s, m) && time >= s.now && |data| <= m
    ensures var s' := Step(s, Push(time, data, hits));
      && QueuesOk(s'.queues, s'.nextUid, s'.now, s'.top, m) && Sorted(s'.queues)
      && ErasedOk(s'.erased, s'.nextUid, s'.now, s'.top, m)
      && InOrder(s'.pushed) && Before(s'.pushed, s'.nextUid, s'.now)
  {
    hide QueueOk, InOrder, Before, Pushed, Conserved, FirstHit, ErasedOk;
    var p, i := Packet(s.nextUid, time, data), FirstHit(s.queues, hits);
    OrderAppend(s.pushed, p, s.nextUid, s.now);
    QueuesLater(s.queues, s.nextUid, s.now, s.top, m, s.nextUid + 1, time, s.top);
    ErasedLater(s.erased, s.nextUid, s.now, s.top, m, s.nextUid + 1, time, s.top);
    if i < |s.queues| { PushedOk(s.queues[i].queue, p, s.nextUid, s.now, s.top, m); }
  }

  lemma {:induction false} BeforeLater(packets: seq<Packet>, next: int, now: int, now': int)
    requires Before(packets, next, now) && now <= now'
    ensures Before(packets, next, now')
  {
  }

  lemma {:induction false} StepOk(s: State, c: Command, m: int)
    requires StateOk(s, m) && Allowed(s, c, m)
    ensures StateOk(Step(s, c), m)
  {
    hide QueueOk, InOrder, Before, Conserved, AtKey, Served, Place, Sorted, QueuesOk, ErasedOk, FirstHit, Pushed;
    StepConserves(s, c);
    match c
    case Push(time, data, hits) => PushOk(s, time, data, hits, m);
    case Service(time, luck) =>
      var now := Max(s.now, time);
      QueuesLater(s.queues, s.nextUid, s.now, s.top, m, s.nextUid, now, s.top);
      ErasedLater(s.erased, s.nextUid, s.now, s.top, m, s.nextUid, now, s.top);
      ServedOk(s.queues, 0, time, luck, s.nextUid, now, s.top, m);
      BeforeLater(s.pushed, s.nextUid, s.now, now);
    case Clear(key) => ClearOk(s, key, m);
    case SetSize(key, size) =>
      var top := if size > s.top then size else s.top;
      QueuesLater(s.queues, s.nextUid, s.now, s.top, m, s.nextUid, s.now, top);
      ErasedLater(s.erased, s.nextUid, s.now, s.top, m, s.nextUid, s.now, top);
      AtKeyOk(s.queues, key, c, s.nextUid, s.now, top, m);
    case SetFilter(key) => AtKeyOk(s.queues, key, c, s.nextUid, s.now, s.top, m);
    case AddDisc(key, _) => AtKeyOk(s.queues, key, c, s.nextUid, s.now, s.top, m);
    case SetDisc(key, _, _) => AtKeyOk(s.queues, key, c, s.nextUid, s.now, s.top, m);
  }

  lemma {:induction false} ClearOk(s: State, key: int, m: int)
    requires StateOk(s, m)
    ensures var s' := Step(s, Clear(key));
      && QueuesOk(s'.queues, s'.nextUid, s'.now, s'.top, m) && Sorted(s'.queues)
      && ErasedOk(s'.erased, s'.nextUid, s'.now, s'.top, m)
  {
    hide QueueOk, InOrder, Before, Conserved, Place;
  }

  // ---- Runs ----

  function Run(cs: seq<Command>): State {
    if cs == [] then START else Step(Run(cs[..|cs| - 1]), cs[|cs| - 1])
  }

  // The times of pushes do not go back, packets have at most m bytes, and disciplines come as they are created.
  predicate Proper(cs: seq<Command>, m: int) {
    cs == [] || (Proper(cs[..|cs| - 1], m) && Allowed(Run(cs[..|cs| - 1]), cs[|cs| - 1], m))
  }

  lemma {:induction false} StartOk(m: int)
    requires m >= 0
    ensures StateOk(START, m)
  {
  }

  // Over every interleaving of pushes, service rounds and commands.
  lemma {:induction false} RunOk(cs: seq<Command>, m: int)
    requires m >= 0 && Proper(cs, m)
    ensures StateOk(Run(cs), m)
  {
    hide StateOk, Step, Allowed;
    if cs == [] {
      StartOk(m);
    } else {
      RunOk(cs[..|cs| - 1], m);
      StepOk(Run(cs[..|cs| - 1]), cs[|cs| - 1], m);
    }
  }

  // Each packet pushed is in exactly one place: forwarded, or sent, dropped, lost or waiting in exactly
  // one queue, erased ones included (what waited in them was cleared).
  lemma {:induction false} EveryPacketOnce(cs: seq<Command>, m: int, p: Packet)
    requires m >= 0 && Proper(cs, m)
    ensures var s := Run(cs);
      multiset(s.forwarded)[p] + AccountAll(s.queues)[p] + AccountErased(s.erased)[p] ==
        (if p in s.pushed then 1 else 0)
  {
    hide Run, Proper, AccountAll, AccountErased, QueuesOk, Before;
    RunOk(cs, m);
    OncePushed(Run(cs).pushed, p);
  }

  lemma {:induction false} OncePushed(packets: seq<Packet>, p: Packet)
    requires InOrder(packets)
    ensures multiset(packets)[p] == if p in packets then 1 else 0
  {
    if packets != [] {
      var n := |packets| - 1;
      var front := packets[..n];
      assert packets == front + [packets[n]];
      OncePushed(front, p);
      if p in front {
        var i :| 0 <= i < n && front[i] == p;
        assert packets[i].uid < packets[n].uid;
      }
    }
  }

  // A queue of the state, or one that was erased.
  predicate Kept(s: State, q: Queue) {
    q in s.erased || exists i :: 0 <= i < |s.queues| && s.queues[i].queue == q
  }

  lemma {:induction false} KeptOk(cs: seq<Command>, m: int, q: Queue)
    requires m >= 0 && Proper(cs, m) && Kept(Run(cs), q)
    ensures var s := Run(cs); QueueOk(q, s.nextUid, s.now, s.top, m)
  {
    hide Run, Proper, QueueOk, InOrder, Before, Conserved, Sorted;
    RunOk(cs, m);
  }

  // Each queue, erased or not, sends a subsequence of what it let in, in the order of uids, and its total is
  // the size of what waits in it, never more than the largest limit so far and one packet.
  lemma {:induction false} QueuesInOrder(cs: seq<Command>, m: int, q: Queue)
    requires m >= 0 && Proper(cs, m) && Kept(Run(cs), q)
    ensures Subseq(q.sent + q.packets, q.accepted) && InOrder(q.accepted)
    ensures q.total == SizeSum(q.packets) && q.total <= Run(cs).top + m
  {
    hide Run, Proper, Kept, Subseq, InOrder, SizeSum, DiscsOk, Before;
    KeptOk(cs, m, q);
  }

  // Over whole runs, no discipline tosses for a packet twice.
  lemma {:induction false} NeverTossedTwice(cs: seq<Command>, m: int, q: Queue, k: nat)
    requires m >= 0 && Proper(cs, m) && Kept(Run(cs), q) && k < |q.discs|
    ensures q.discs[k].RLoss? ==> Increasing(q.discs[k].tossed)
  {
    hide Run, Proper, Kept, Subseq, InOrder, SizeSum, Before, Increasing;
    KeptOk(cs, m, q);
  }

  // ---- What a step does, queue by queue ----

  // Every queue has had its packet_out, with its own draws.
  ghost predicate EachServed(before: seq<Entry>, time: int, luck: seq<seq<seq<int>>>, after: seq<Entry>) {
    && |after| == |before|
    && forall i :: 0 <= i < |before| ==>
         after[i] ==
           Entry(before[i].key, PacketOut(before[i].queue, time, if i < |luck| then luck[i] else []).0)
  }

  lemma {:induction false} ServedFrom(queues: seq<Entry>, i: nat, time: int, luck: seq<seq<seq<int>>>)
    requires i <= |queues|
    ensures forall k :: 0 <= k < |queues| ==>
      Served(queues, i, time, luck)[k] ==
        if k < i then queues[k] else Entry(queues[k].key, PacketOut(queues[k].queue, time, LuckFor(luck, k)).0)
    decreases |queues| - i
  {
    hide PacketOut;
    if i < |queues| {
      ServedFrom(queues[i := Entry(queues[i].key, PacketOut(queues[i].queue, time, LuckFor(luck, i)).0)], i + 1, time,
        luck);
    }
  }

  // A service round reaches every queue, in the order of the keys, and nothing else.
  lemma {:induction false} RoundServesAll(s: State, time: int, luck: seq<seq<seq<int>>>)
    ensures var s' := Step(s, Service(time, luck));
      && EachServed(s.queues, time, luck, s'.queues)
      && s' == s.(queues := s'.queues, now := s'.now)
  {
    hide PacketOut;
    ServedFrom(s.queues, 0, time, luck);
  }

  // The first queue whose filter accepts has taken the packet: it waits there if the bytes waiting had not passed
  // the limit, and is lost otherwise.  Every other queue is as it was.
  ghost predicate Taken(before: seq<Entry>, hits: set<int>, p: Packet, after: seq<Entry>) {
    exists i :: 0 <= i < |before| == |after| && TakenBy(before, i, hits, p, after)
  }

  ghost predicate TakenBy(before: seq<Entry>, i: nat, hits: set<int>, p: Packet, after: seq<Entry>)
    requires i < |before| == |after|
  {
    var q, q' := before[i].queue, after[i].queue;
    && before[i].key in hits && (forall k :: 0 <= k < i ==> before[k].key !in hits)
    && after[i].key == before[i].key && (forall k :: 0 <= k < |before| && k != i ==> after[k] == before[k])
    && q'.limit == q.limit && q'.discs == q.discs && q'.sent == q.sent && q'.dropped == q.dropped
    && (if q.total <= q.limit
        then q'.packets == q.packets + [p] && q'.accepted == q.accepted + [p] && q'.total == q.total + |p.data|
             && q'.lost == q.lost
        else q'.packets == q.packets && q'.accepted == q.accepted && q'.total == q.total && q'.lost == q.lost + [p])
  }

  lemma {:induction false} FirstHitIs(queues: seq<Entry>, hits: set<int>)
    ensures var i := FirstHit(queues, hits);
      (i < |queues| ==> queues[i].key in hits) && forall k :: 0 <= k < i ==> queues[k].key !in hits
  {
    if queues != [] && queues[0].key !in hits {
      var rest := queues[1..];
      FirstHitIs(rest, hits);
      forall k | 0 <= k < FirstHit(queues, hits) ensures queues[k].key !in hits {
        if k > 0 { assert queues[k] == rest[k - 1]; }
      }
    }
  }

  // A packet pushed gets the next number and the time of the push; it goes to the first queue that accepts it, and
  // straight on exactly if none does.
  lemma {:induction false} FirstTakes(s: State, time: int, data: seq<byte>, hits: set<int>)
    ensures var s', p := Step(s, Push(time, data, hits)), Packet(s.nextUid, time, data);
      && s'.nextUid == s.nextUid + 1 && s'.pushed == s.pushed + [p] && s'.erased == s.erased
      && (if forall e <- s.queues :: e.key !in hits
          then s'.queues == s.queues && s'.forwarded == s.forwarded + [p]
          else Taken(s.queues, hits, p, s'.queues) && s'.forwarded == s.forwarded)
  {
    FirstHitIs(s.queues, hits);
    var s', p, i := Step(s, Push(time, data, hits)), Packet(s.nextUid, time, data), FirstHit(s.queues, hits);
    if i < |s.queues| {
      assert s.queues[i] in s.queues;
      assert TakenBy(s.queues, i, hits, p, s'.queues);
    }
  }

  // In a state reached the bytes waiting are counted right, so a packet is let in exactly if the sizes of the packets
  // that wait add up to the limit at most.
  lemma {:induction false} LetInWhen(cs: seq<Command>, m: int, time: int, data: seq<byte>, hits: set<int>, i: nat)
    requires m >= 0 && Proper(cs, m) && i < |Run(cs).queues| && Run(cs).queues[i].key in hits
    requires forall k :: 0 <= k < i ==> Run(cs).queues[k].key !in hits
    ensures var s := Run(cs);
      var s', p := Step(s, Push(time, data, hits)), Packet(s.nextUid, time, data);
      && |s'.queues| == |s.queues|
      && (p in s'.queues[i].queue.packets <==> SizeSum(s.queues[i].queue.packets) <= s.queues[i].queue.limit)
  {
    hide Run, Proper, SizeSum, Subseq, DiscsOk, Step;
    var s := Run(cs);
    var s', p, q := Step(s, Push(time, data, hits)), Packet(s.nextUid, time, data), s.queues[i].queue;
    FirstTakes(s, time, data, hits);
    assert s.queues[i] in s.queues;
    KeptOk(cs, m, q);
    var j :| 0 <= j < |s.queues| == |s'.queues| && TakenBy(s.queues, j, hits, p, s'.queues);
    assert i == j;
    QueuedBefore(q, s.nextUid, s.now, p);
  }

  lemma {:induction false} QueuedBefore(q: Queue, next: int, now: int, p: Packet)
    requires Before(q.packets, next, now) && p.uid == next
    ensures p !in q.packets
  {
  }

  // What a setting leaves in a queue.
  predicate Reset(q: Queue, c: Command, q': Queue) {
    match c
    case SetSize(_, size) => q' == q.(limit := q'.limit) && q'.limit == size
    case AddDisc(_, d) => q' == q.(discs := q'.discs) && q'.discs == q.discs + [d]
    case SetDisc(_, index, d) =>
      && q' == q.(discs := q'.discs) && |q'.discs| == |q.discs|
      && forall k :: 0 <= k < |q.discs| ==> q'.discs[k] == if k == index then d else q.discs[k]
    case _ => q' == q
  }

  // The queue of a key, a new one with a limit of 10240 bytes where there is none.
  function Lookup(queues: seq<Entry>, key: int): Queue {
    if queues == [] then Queue([], 0, 10240, [], [], [], [], [])
    else if queues[0].key == key then queues[0].queue else Lookup(queues[1..], key)
  }

  // The setting has reached the queue of its key, and no other queue.
  ghost predicate Configured(before: seq<Entry>, key: int, c: Command, after: seq<Entry>) {
    && Sorted(after) && (forall e: Entry :: e.key != key ==> (e in after <==> e in before))
    && exists q :: Entry(key, q) in after && Reset(Lookup(before, key), c, q)
  }

  lemma {:induction false} LookupIs(queues: seq<Entry>, key: int, i: nat)
    requires i < |queues| && queues[i].key == key && forall k :: 0 <= k < i ==> queues[k].key != key
    ensures Lookup(queues, key) == queues[i].queue
  {
    if i > 0 {
      var rest := queues[1..];
      assert rest[i - 1] == queues[i] && forall k :: 0 <= k < i - 1 ==> rest[k] == queues[k + 1];
      LookupIs(rest, key, i - 1);
    }
  }

  lemma {:induction false} LookupNone(queues: seq<Entry>, key: int)
    requires forall k :: 0 <= k < |queues| ==> queues[k].key != key
    ensures Lookup(queues, key) == EMPTY
  {
    if queues != [] {
      var rest := queues[1..];
      assert forall k :: 0 <= k < |rest| ==> rest[k] == queues[k + 1];
      LookupNone(rest, key);
    }
  }

  lemma {:induction false} EnsuredLookup(queues: seq<Entry>, key: int)
    requires Sorted(queues)
    ensures var all := Ensured(queues, key);
      var i := Place(all, key);
      && Sorted(all) && i < |all| && all[i] == Entry(key, Lookup(queues, key))
      && forall e: Entry :: e.key != key ==> (e in all <==> e in queues)
  {
    hide Lookup, Place;
    var i, all := Place(queues, key), Ensured(queues, key);
    if Has(queues, key) {
      LookupIs(queues, key, i);
    } else {
      forall k | 0 <= k < |queues| ensures queues[k].key != key { if k > i { assert queues[k].key > queues[i].key; } }
      LookupNone(queues, key);
      InsertedSorted(queues, i, Entry(key, EMPTY));
      assert all[i] == Entry(key, EMPTY);
    }
    var j := Place(all, key);
    assert all[i].key == key && j == i;
  }

  lemma {:induction false} InsertedSorted(queues: seq<Entry>, i: nat, e: Entry)
    requires Sorted(queues) && i <= |queues|
    requires forall k :: 0 <= k < |queues| ==> if k < i then queues[k].key < e.key else queues[k].key > e.key
    ensures var all := queues[..i] + [e] + queues[i..];
      Sorted(all) && forall x: Entry :: x != e ==> (x in all <==> x in queues)
  {
    assert queues == queues[..i] + queues[i..];
  }

  // set_qsize, set_filter, push_back_qdisc and set take effect on the queue of their key, and on no other.
  lemma {:induction false} SettingTakes(queues: seq<Entry>, key: int, c: Command)
    requires Sorted(queues)
    ensures Configured(queues, key, c, AtKey(queues, key, c))
  {
    hide Ensured, Place, Lookup;
    EnsuredLookup(queues, key);
    var all, after := Ensured(queues, key), AtKey(queues, key, c);
    var i := Place(all, key);
    var e := Entry(key, Changed(all[i].queue, c));
    assert after == all[i := e] && after[i] == e;
    forall x: Entry | x.key != key ensures x in after <==> x in all {
      if x in after {
        var k :| 0 <= k < |after| && after[k] == x;
        assert all[k] == x;
      }
      if x in all {
        var k :| 0 <= k < |all| && all[k] == x;
        assert after[k] == x;
      }
    }
  }

  // clear_queue takes away the queue of its key, and no other.
  lemma {:induction false} ClearTakes(s: State, key: int)
    requires Sorted(s.queues)
    ensures var s' := Step(s, Clear(key));
      && Sorted(s'.queues) && (forall e :: e in s'.queues <==> e in s.queues && e.key != key)
      && s'.erased ==
           s.erased + if exists e :: e in s.queues && e.key == key then [Lookup(s.queues, key)] else []
  {
    hide Lookup;
    var queues, i := s.queues, Place(s.queues, key);
    if Has(queues, key) {
      LookupIs(queues, key, i);
      assert queues[i] in queues;
      assert queues == queues[..i] + [queues[i]] + queues[i + 1..];
      forall e | e in queues[..i] || e in queues[i + 1..] ensures e.key != key { }
    } else {
      forall k | 0 <= k < |queues| ensures queues[k].key != key { if k > i { assert queues[k].key > queues[i].key; } }
      assert s.erased + [] == s.erased;
    }
  }

  // ---- The dispatcher itself ----

  // queue_dispatcher: every method holds the lock from start to end.
  class QueueDispatcher {
    var nqList: seq<Entry>
    var uidBase: int
    ghost var now: int
    ghost var top: int
    ghost var erased: seq<Queue>
    ghost var pushed: seq<Packet>
    ghost var forwarded: seq<Packet>

    ghost function View(): State
      reads this
    {
      State(nqList, uidBase + 1, now, top, erased, pushed, forwarded)
    }

    constructor ()
      ensures View() == START
    {
      nqList, uidBase, now, top := [], 0, 0, DEFAULT_LIMIT;
      erased, pushed, forwarded := [], [], [];
    }

    // The first queue whose filter accepts takes the packet; without one it is sent straight on.
    method PushPacket(time: int, data: seq<byte>, hits: set<int>) returns (sentOn: bool)
      modifies this
      ensures View() == Step(old(View()), Push(time, data, hits))
      ensures sentOn <==> forall e <- old(nqList) :: e.key !in hits
      // the packet is forwarded, or the first queue that accepts it takes it
      ensures var p := Packet(old(uidBase) + 1, time, data);
        if sentOn then nqList == old(nqList) && forwarded == old(forwarded) + [p]
        else Taken(old(nqList), hits, p, nqList) && forwarded == old(forwarded)
    {
      hide Pushed, Taken;
      FirstTakes(View(), time, data, hits);
      uidBase := uidBase + 1;
      var packet := Packet(uidBase, time, data);
      now, pushed := time, pushed + [packet];
      var i := 0;
      while i < |nqList|
        invariant 0 <= i <= |nqList| && nqList == old(nqList) && forwarded == old(forwarded)
        invariant FirstHit(nqList, hits) == i + FirstHit(nqList[i..], hits)
        invariant forall k :: 0 <= k < i ==> nqList[k].key !in hits
      {
        if nqList[i].key in hits {
          nqList := nqList[i := Entry(nqList[i].key, Pushed(nqList[i].queue, packet))];
          return false;
        }
        assert nqList[i..][1..] == nqList[i + 1..];
        i := i + 1;
      }
      forwarded := forwarded + [packet];
      return true;
    }

    // One round of the service loop: each queue gets one chance, whatever the others do.
    method ServiceRound(time: int, luck: seq<seq<seq<int>>>)
      modifies this
      ensures View() == Step(old(View()), Service(time, luck))
      ensures EachServed(old(nqList), time, luck, nqList) && forwarded == old(forwarded)
    {
      hide PacketOut, EachServed;
      RoundServesAll(View(), time, luck);
      var i := 0;
      while i < |nqList|
        invariant 0 <= i <= |nqList|
        invariant Served(nqList, i, time, luck) == Served(old(nqList), 0, time, luck)
        invariant uidBase == old(uidBase) && now == old(now) && top == old(top) && erased == old(erased)
        invariant pushed == old(pushed) && forwarded == old(forwarded)
      {
        var out := PacketOut(nqList[i].queue, time, LuckFor(luck, i));
        nqList := nqList[i := Entry(nqList[i].key, out.0)];
        i := i + 1;
      }
      if time > now { now := time; }
    }

    method ClearQueue(key: int)
      modifies this
      ensures View() == Step(old(View()), Clear(key))
      ensures Sorted(old(nqList)) ==> forall e :: e in nqList <==> e in old(nqList) && e.key != key
    {
      if Sorted(nqList) { ClearTakes(View(), key); }
      var i := Find(key);
      if i < |nqList| && nqList[i].key == key {
        erased := erased + [nqList[i].queue];
        nqList := nqList[..i] + nqList[i + 1..];
      }
    }

    // Where a key is, or belongs.
    method Find(key: int) returns (i: nat)
      ensures i == Place(nqList, key)
    {
      i := 0;
      while i < |nqList| && nqList[i].key < key
        invariant i <= |nqList| && Place(nqList, key) == i + Place(nqList[i..], key)
      {
        assert nqList[i..][1..] == nqList[i + 1..];
        i := i + 1;
      }
    }

    // nq_list[key]
    method At(key: int) returns (i: nat)
      modifies this`nqList
      ensures nqList == Ensured(old(nqList), key) && i == Place(nqList, key)
    {
      i := Find(key);
      if i == |nqList| || nqList[i].key != key {
        nqList := nqList[..i] + [Entry(key, EMPTY)] + nqList[i..];
        i := Find(key);
      }
    }

    // set_qsize, set_filter, push_back_qdisc, set: a new key makes a new queue first.
    method Configure(key: int, c: Command)
      requires c.SetSize? || c.SetFilter? || c.AddDisc? || c.SetDisc?
      requires c.key == key
      modifies this
      ensures View() == Step(old(View()), c)
      ensures Sorted(old(nqList)) ==> Configured(old(nqList), key, c, nqList)
    {
      hide Changed, Place, Ensured, Configured, Sorted;
      if Sorted(nqList) { SettingTakes(nqList, key, c); }
      var i := At(key);
      if i < |nqList| {
        nqList := nqList[i := Entry(nqList[i].key, Changed(nqList[i].queue, c))];
      }
      if c.SetSize? && c.size > top { top := c.size; }
    }
  }
}
