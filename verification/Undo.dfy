/** An error ack or a timeout undoes the send, whatever happened in between. */
module Undo {
  import opened Types
  import opened Handlers
  import opened Invariants
  import opened Cw721
  import opened Chain
  import opened Effects
  import opened Network
  import opened Views
  import opened Simulation
  import opened Reachable
  import opened Records
  import C = Custody

  // ---------- Open packets stay what they are ----------

  lemma FlightPersists(T: Topology, n: Network, act: Move, i: nat)
    requires i < n.next && i in Apply(T, n, act).flights
    ensures i in n.flights && n.next <= Apply(T, n, act).next
    ensures Apply(T, n, act).flights[i] == n.flights[i].(status := Apply(T, n, act).flights[i].status)
    ensures n.flights[i].status == Acked(AckSuccess) ==> Apply(T, n, act).flights[i].status == Acked(AckSuccess)
  {
    ApplyIs(T, n, act);
  }

  lemma NextGrows(T: Topology, n: Network, act: Move)
    ensures n.next <= Apply(T, n, act).next
  {
  }

  lemma {:induction false} RunNextGrows(T: Topology, n: Network, acts: seq<Move>)
    ensures n.next <= ApplyAll(T, n, acts).next
  {
    if acts != [] {
      RunNextGrows(T, n, acts[..|acts| - 1]);
      NextGrows(T, ApplyAll(T, n, acts[..|acts| - 1]), acts[|acts| - 1]);
    }
  }

  /** The packet has not been settled, and has not succeeded. */
  predicate Pending(n: Network, i: nat) {
    i in n.flights && n.flights[i].status != Acked(AckSuccess)
  }

  lemma FreezesOne(T: Topology, n: Network, held: Held, act: Move, i: nat) returns (held': Held)
    requires i < n.next && Pending(Apply(T, n, act), i)
    requires ValidTopology(T) && NetInv(T, n, held)
    ensures var n' := Apply(T, n, act);
            && NetInv(T, n', held') && ContractsAreKept(n.chains, n'.chains)
            && Pending(n, i)
            && OneToken(n.flights[i].data)
            && n'.flights[i] == n.flights[i].(status := n'.flights[i].status)
            && C.Frozen(ViewOf(n, held), ViewOf(n', held'), LocOf(n.flights[i]))
  {
    var n' := Apply(T, n, act);
    FlightPersists(T, n, act, i);
    var step;
    step, held' := MoveIsStep(T, n, held, act);
    StepsKeepInv(T, n, held, step, UserLoc(n, act), n', held');
    PendingIsHeld(GraphOf(T), n, held, i);
    PendingIsHeld(GraphOf(T), n', held', i);
    GraphIsValid(T);
    C.HoldFreezes(GraphOf(T), ViewOf(n, held), step, LocOf(n.flights[i]));
  }

  lemma PendingIsHeld(G: C.Graph, n: Network, held: Held, i: nat)
    requires Pending(n, i) && HeldAgrees(G, n.flights, held)
    ensures OneToken(n.flights[i].data) && C.CanRefund(ViewOf(n, held), LocOf(n.flights[i]))
  {
  }

  lemma FrozenTwice(u: C.View, v: C.View, w: C.View, l: Loc)
    requires C.Frozen(u, v, l) && C.Frozen(v, w, l)
    ensures C.Frozen(u, w, l)
  {
  }

  lemma KeptTwice(a: Chains, b: Chains, c: Chains)
    requires ContractsAreKept(a, b) && ContractsAreKept(b, c)
    ensures ContractsAreKept(a, c)
  {
    forall x | x in a ensures x in c && KeepsContracts(a[x], c[x]) {
      assert KeepsContracts(a[x], b[x]) && KeepsContracts(b[x], c[x]);
    }
  }

  lemma FreezesNone(T: Topology, n: Network, held: Held, i: nat)
    requires Pending(n, i) && HeldAgrees(GraphOf(T), n.flights, held)
    ensures ContractsAreKept(n.chains, n.chains) && OneToken(n.flights[i].data)
    ensures C.Frozen(ViewOf(n, held), ViewOf(n, held), LocOf(n.flights[i]))
  {
    PendingIsHeld(GraphOf(T), n, held, i);
  }

  /** While a packet is pending, its NFT stays as the send left it. */
  lemma {:induction false} Freezes(T: Topology, n: Network, held: Held, acts: seq<Move>, i: nat) returns (held': Held)
    requires i < n.next && Pending(ApplyAll(T, n, acts), i)
    requires ValidTopology(T) && NetInv(T, n, held)
    ensures var n' := ApplyAll(T, n, acts);
            && NetInv(T, n', held') && ContractsAreKept(n.chains, n'.chains)
            && Pending(n, i)
            && OneToken(n.flights[i].data)
            && n'.flights[i] == n.flights[i].(status := n'.flights[i].status)
            && C.Frozen(ViewOf(n, held), ViewOf(n', held'), LocOf(n.flights[i]))
    decreases |acts|, 1
  {
    if acts == [] {
      held' := held;
      FreezesNone(T, n, held, i);
    } else {
      var init, act := acts[..|acts| - 1], acts[|acts| - 1];
      held' := FreezesMore(T, n, held, init, act, i);
    }
  }

  lemma {:induction false} FreezesMore(
      T: Topology, n: Network, held: Held, init: seq<Move>, act: Move, i: nat)
    returns (held': Held)
    requires i < n.next && Pending(Apply(T, ApplyAll(T, n, init), act), i)
    requires ValidTopology(T) && NetInv(T, n, held)
    ensures var n' := Apply(T, ApplyAll(T, n, init), act);
            && NetInv(T, n', held') && ContractsAreKept(n.chains, n'.chains)
            && Pending(n, i)
            && OneToken(n.flights[i].data)
            && n'.flights[i] == n.flights[i].(status := n'.flights[i].status)
            && C.Frozen(ViewOf(n, held), ViewOf(n', held'), LocOf(n.flights[i]))
    decreases |init| + 1, 0
  {
    var m := ApplyAll(T, n, init);
    RunNextGrows(T, n, init);
    FlightPersists(T, m, act, i);
    var held1 := Freezes(T, n, held, init, i);
    held' := FreezesOne(T, m, held1, act, i);
    KeptTwice(n.chains, m.chains, Apply(T, m, act).chains);
    FrozenTwice(ViewOf(n, held), ViewOf(m, held1), ViewOf(Apply(T, m, act), held'), LocOf(n.flights[i]));
  }

  // ---------- Refunds ----------

  /** Two states of a chain agree on what is recorded about a key. */
  ghost predicate SameRecord(s: Storage, s': Storage, k: Key) {
    && (k in s'.incoming <==> k in s.incoming) && (k in s.incoming ==> s'.incoming[k] == s.incoming[k])
    && (k in s'.metadata <==> k in s.metadata) && (k in s.metadata ==> s'.metadata[k] == s.metadata[k])
  }

  lemma FrozenChain(n: Network, held: Held, n': Network, held': Held, a: ChainId, k: Key)
    requires a in n.chains && a in n'.chains && C.Frozen(ViewOf(n, held), ViewOf(n', held'), At(a, k))
    ensures NftAt(n'.chains[a], k) == NftAt(n.chains[a], k) && SameRecord(n.chains[a].s, n'.chains[a].s, k)
  {
    NftIs(n, held, a, k);
    NftIs(n', held', a, k);
    IncomingIs(n, held, a, k);
    IncomingIs(n', held', a, k);
    MetadataValue(n, held, a, k);
    MetadataValue(n', held', a, k);
  }

  lemma MetadataValue(n: Network, held: Held, b: ChainId, k: Key)
    requires b in n.chains
    ensures k in n.chains[b].s.metadata <==> At(b, k) in ViewOf(n, held).metadata
    ensures k in n.chains[b].s.metadata ==> n.chains[b].s.metadata[k] == ViewOf(n, held).metadata[At(b, k)]
  {
  }

  /** The contract an NFT was sent from is the contract of its class. */
  lemma SendRegisters(env: Env, c: Chain, id: NftId, actor: Addr, msg: OutgoingMsg)
    requires ValidChain(env, c) && UserSend(env, c, id, actor, msg).Some?
    ensures var c' := UserSend(env, c, id, actor, msg).value.0;
            var x := ClassOf(c.s, id.contract);
            x in c'.s.classToNft && c'.s.classToNft[x] == id.contract
  {
    UserSendStorage(env, c, id, actor, msg);
    RegisterEffect(env, c, id.contract);
    if id.contract !in c.s.nftToClass && id.contract in c.s.classToNft {
      NativeIsItself(env, c.s, id.contract);
    }
  }

  lemma ClassIsKept(env: Env, c: Chain, contract: Addr, x: ClassId)
    requires ValidChain(env, c) && x in c.s.classToNft && c.s.classToNft[x] == contract
    ensures ClassOf(c.s, contract) == x
  {
  }

  /** The data of a sent packet, in full. */
  lemma SentData(env: Env, c: Chain, id: NftId, actor: Addr, msg: OutgoingMsg)
    requires ValidChain(env, c) && PlainStorage(c.s) && UserSend(env, c, id, actor, msg).Some?
    ensures var k := KeyOf(c.s, id);
            && id in c.ledger.nfts && NftAt(c, k) == Some(c.ledger.nfts[id])
            && UserSend(env, c, id, actor, msg).value.1.data
               == OutgoingData(Class(k.classId, None, None), k.tokenId, c.ledger.nfts[id].uri,
                               FlatLookup(c.s.metadata, k), actor, msg.receiver)
  {
    UserSendIsSendNft(env, c, id, actor, msg);
    UserSendEffect(env, c, id, actor, msg);
    RegisterKeepsValid(env, c.s, id.contract);
  }

  /** What the chain looks like once the refund went through. */
  ghost predicate Undone(env: Env, c: Chain, id: NftId, actor: Addr, msg: OutgoingMsg, data: PacketData, c': Chain) {
    var k := KeyOf(c.s, id);
    && id in c.ledger.nfts
    && KeyOf(c'.s, id) == k
    && NftAt(c', k) == Some(c.ledger.nfts[id].(owner := actor))
    && (NftAt(c', k) == NftAt(c, k) <==> actor == c.ledger.nfts[id].owner)
    && k.classId in c'.s.classToNft && k !in c'.s.outgoing
    && SameRecord(c.s, c'.s, k)
    && (!c'.s.po.paused && (c'.s.proxy.None? || env.valid(id.contract)) ==> UserSend(env, c', id, actor, msg).Some?)
    && (UserSend(env, c', id, actor, msg).Some? ==> UserSend(env, c', id, actor, msg).value.1.data == data)
  }

  /** An owner can send an NFT whenever the bridge is not paused. */
  lemma OwnerCanSend(env: Env, c: Chain, id: NftId, actor: Addr, msg: OutgoingMsg)
    requires ValidChain(env, c) && id in c.ledger.nfts && c.ledger.nfts[id].owner != env.self && env.valid(actor)
    requires !c.s.po.paused && (c.s.proxy.None? || env.valid(id.contract))
    ensures UserSend(env, c, id, actor, msg).Some?
  {
    RegisterKeepsValid(env, c.s, id.contract);
  }

  lemma NftOfKey(env: Env, c: Chain, id: NftId)
    requires ValidChain(env, c) && id.contract in c.s.nftToClass && NftAt(c, KeyOf(c.s, id)).Some?
    ensures id in c.ledger.nfts && NftAt(c, KeyOf(c.s, id)) == Some(c.ledger.nfts[id])
  {
    KeyOfContract(env, c, id);
  }

  /** The same NFT with the same record makes the same packet. */
  lemma SameAgain(env: Env, c: Chain, id: NftId, actor: Addr, msg: OutgoingMsg, c': Chain)
    requires ValidChain(env, c) && PlainStorage(c.s) && UserSend(env, c, id, actor, msg).Some?
    requires
      && ValidChain(env, c')
      && PlainStorage(c'.s)
      && KeyOf(c'.s, id) == KeyOf(c.s, id)
      && SameRecord(c.s, c'.s, KeyOf(c.s, id))
    requires id in c.ledger.nfts && NftAt(c', KeyOf(c.s, id)) == Some(c.ledger.nfts[id].(owner := actor))
    ensures UserSend(env, c', id, actor, msg).Some? ==>
              UserSend(env, c', id, actor, msg).value.1.data == UserSend(env, c, id, actor, msg).value.1.data
  {
    SentData(env, c, id, actor, msg);
    if UserSend(env, c', id, actor, msg).Some? {
      SentData(env, c', id, actor, msg);
    }
  }

  /** From the state right after the send to the state after the refund. */
  lemma RefundUndoes(
      env: Env, c0: Chain, id: NftId, actor: Addr, msg: OutgoingMsg, c1: Chain, data: PacketData, c2: Chain, c3: Chain)
    requires ValidChain(env, c0) && PlainStorage(c0.s) && actor != env.self
    requires UserSend(env, c0, id, actor, msg) == Some((c1, SendPacket(msg.channel, data)))
    requires var k := KeyOf(c0.s, id);
             && NftAt(c2, k) == NftAt(c1, k) && SameRecord(c1.s, c2.s, k) && KeepsContracts(c1, c2)
             && NftAt(c2, k).Some? && NftAt(c3, k) == Some(NftAt(c2, k).value.(owner := actor))
             && c3.s == c2.s.(outgoing := c2.s.outgoing - {k})
    requires ValidChain(env, c3) && PlainStorage(c3.s)
    ensures Undone(env, c0, id, actor, msg, data, c3)
  {
    var k := KeyOf(c0.s, id);
    UserSendIsSendNft(env, c0, id, actor, msg);
    UserSendEffect(env, c0, id, actor, msg);
    SendRegisters(env, c0, id, actor, msg);
    ClassIsKept(env, c3, id.contract, k.classId);
    NftOfKey(env, c3, id);
    SameAgain(env, c0, id, actor, msg, c3);
    if !c3.s.po.paused && (c3.s.proxy.None? || env.valid(id.contract)) {
      OwnerCanSend(env, c3, id, actor, msg);
    }
  }

  /** Where the refund of a pending packet leaves the network. */
  function Settle(T: Topology, n: Network, i: nat): Network
    requires Pending(n, i)
  {
    if n.flights[i].status == Undelivered then ApplyTimeout(T, n, i) else ApplyAck(T, n, i)
  }

  lemma CanBeRelayed(T: Topology, n: Network, i: nat)
    requires ValidTopology(T) && i in n.flights && ChainsAreValid(T, n.chains) && FlightsAreGood(T, n)
    ensures CanRelay(T, n, i) && OneToken(n.flights[i].data)
  {
    assert FlightIsGood(T, n.chains, n.flights, n.next, i);
  }

  lemma SettleRefunds(T: Topology, n: Network, held: Held, i: nat)
    requires Pending(n, i) && ValidTopology(T) && NetInv(T, n, held)
    ensures OneToken(n.flights[i].data) && n.flights[i].src.chain in n.chains
    ensures var a := n.flights[i].src.chain;
            var n' := Settle(T, n, i);
            && i !in n'.flights
            && a in n'.chains
            && Refunds(n, i, n'.chains[a])
            && a in T.envs
            && ValidChain(T.envs[a], n'.chains[a])
  {
    CanBeRelayed(T, n, i);
    OpenPacket(T, n, i);
    RefundIsReady(T, n, held, i);
    SettleIs(T, n, i, Refunded(T, n, i).value);
  }

  lemma SettleIsPlain(T: Topology, n: Network, i: nat)
    requires Pending(n, i) && PlainNetwork(n)
    ensures PlainNetwork(Settle(T, n, i))
  {
    PlainSettle(T, n, i);
  }

  /** The state of the network at the end of: a run, a send, and another run. */
  function AfterSending(T: Topology, n: Network, before: seq<Move>, send: Move, between: seq<Move>): Network {
    ApplyAll(T, Apply(T, ApplyAll(T, n, before), send), between)
  }

  /**
   After any run, a send, and any further run in which its packet does not succeed, the refund gives
   the NFT to its sender, who may have been the owner or someone the owner approved. OUTGOING forgets it,
   a stale entry included; INCOMING and the metadata are as before the send; its class stays registered;
   and sending it again the same way makes the same packet.
   */
  lemma RefundIsUndo(
      T: Topology, n: Network, before: seq<Move>, a: ChainId, id: NftId,
      actor: Addr, msg: OutgoingMsg, between: seq<Move>)
    requires ValidTopology(T) && Genesis(T, n) && SendOutcome(T, ApplyAll(T, n, before), a, id, actor, msg).Some?
    requires Pending(AfterSending(T, n, before, SendOut(a, id, actor, msg), between), ApplyAll(T, n, before).next)
    ensures var m := ApplyAll(T, n, before);
            var m' := Settle(T, AfterSending(T, n, before, SendOut(a, id, actor, msg), between), m.next);
            && m.next !in m'.flights && a in m'.chains
            && Undone(T.envs[a], m.chains[a], id, actor, msg,
                      SendOutcome(T, m, a, id, actor, msg).value.1.data, m'.chains[a])
  {
    var m0 := ApplyAll(T, n, before);
    var send := SendOut(a, id, actor, msg);
    var m1 := Apply(T, m0, send);
    var m2 := ApplyAll(T, m1, between);
    var held0 := ReachableInv(T, n, before);
    var step, held1 := MoveIsStep(T, m0, held0, send);
    StepsKeepInv(T, m0, held0, step, UserLoc(m0, send), m1, held1);
    GenesisIsPlain(T, n);
    PlainRun(T, n, before);
    PlainStep(T, m0, send);
    PlainRun(T, m1, between);
    SendMoveIs(T, m0, a, id, actor, msg);
    ApplyIs(T, m0, send);
    var held2 := Freezes(T, m1, held1, between, m0.next);
    RefundFrom(T, m0, held0, a, id, actor, msg, m1, held1, m2, held2);
  }

  lemma RefundFrom(
      T: Topology, m0: Network, held0: Held, a: ChainId, id: NftId, actor: Addr, msg: OutgoingMsg,
      m1: Network, held1: Held, m2: Network, held2: Held)
    requires ValidTopology(T) && SendOutcome(T, m0, a, id, actor, msg).Some?
    requires var (c', f) := SendOutcome(T, m0, a, id, actor, msg).value; m1 == AfterSend(m0, a, c', f)
    requires Pending(m2, m0.next) && m2.flights[m0.next] == m1.flights[m0.next].(status := m2.flights[m0.next].status)
    requires OneToken(m1.flights[m0.next].data)
    requires
      && C.Frozen(ViewOf(m1, held1), ViewOf(m2, held2), LocOf(m1.flights[m0.next]))
      && ContractsAreKept(m1.chains, m2.chains)
    requires PlainNetwork(m0) && PlainNetwork(m2)
    requires ChainsAreValid(T, m0.chains) && NetInv(T, m2, held2)
    ensures var m' := Settle(T, m2, m0.next);
            && m0.next !in m'.flights && a in m'.chains
            && Undone(T.envs[a], m0.chains[a], id, actor, msg,
                      SendOutcome(T, m0, a, id, actor, msg).value.1.data, m'.chains[a])
  {
    var (c', f) := SendOutcome(T, m0, a, id, actor, msg).value;
    var m' := Settle(T, m2, m0.next);
    assert ChainIsValid(T, m0.chains, a);
    SendMoveIs(T, m0, a, id, actor, msg);
    SendFlight(T.envs[a], m0.chains[a], a, id, actor, msg, m0.next);
    FrozenChain(m1, held1, m2, held2, a, KeyOf(m0.chains[a].s, id));
    SettleRefunds(T, m2, held2, m0.next);
    SettleIsPlain(T, m2, m0.next);
    RefundUndoes(T.envs[a], m0.chains[a], id, actor, msg, c', f.data, m2.chains[a], m'.chains[a]);
  }
}
