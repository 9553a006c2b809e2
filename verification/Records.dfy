/**
 In a network of honest bridges over cw721 contracts, class records never hold a uri or data: a
 native class has none, and a voucher class gets those of the class it stands for.
 */
module Records {
  import opened Types
  import opened Receive
  import opened Handlers
  import opened Invariants
  import opened Chain
  import opened Delivery
  import opened Effects
  import opened Cw721
  import opened Network
  import opened Reachable

  predicate PlainClass(c: Class) {
    c.uri == None && c.data == None
  }

  predicate PlainStorage(s: Storage) {
    forall x | x in s.classes :: PlainClass(s.classes[x])
  }

  predicate PlainPacket(d: PacketData) {
    d.classUri == None && d.classData == None
  }

  predicate PlainNetwork(n: Network) {
    && (forall a | a in n.chains :: PlainStorage(n.chains[a].s))
    && (forall i | i in n.flights :: PlainPacket(n.flights[i].data))
  }

  lemma PlainSend(env: Env, c: Chain, id: NftId, actor: Addr, msg: OutgoingMsg)
    requires PlainStorage(c.s) && UserSend(env, c, id, actor, msg).Some?
    ensures var (c', p) := UserSend(env, c, id, actor, msg).value; PlainStorage(c'.s) && PlainPacket(p.data)
  {
    UserSendIsSendNft(env, c, id, actor, msg);
  }

  lemma PlainDeliver(env: Env, c: Chain, packet: Packet, newAddr: Addr)
    requires PlainStorage(c.s) && packet.data.Some? && PlainPacket(packet.data.value)
    ensures PlainStorage(Deliver(env, c, packet, newAddr).0.s)
  {
    if ReceiveIbcPacket(env, c.s, packet).Success? {
      var s1 := ReceiveIbcPacket(env, c.s, packet).value.0;
      var redeemed, created := Redeemed(Actions(c.s, packet)), Created(Actions(c.s, packet));
      DeliverSides(env, c, packet, newAddr);
      if RunSides(env, s1, packet, redeemed, created, newAddr).Success? {
        SidesEffect(env, s1, packet, redeemed, created, newAddr);
      }
    }
  }

  lemma SettlingKeepsClasses(env: Env, c: Chain, packet: Packet, ack: Option<Ack>)
    ensures Acknowledge(env, c, packet, ack).Some? ==> Acknowledge(env, c, packet, ack).value.s.classes == c.s.classes
    ensures TimeOut(env, c, packet).Some? ==> TimeOut(env, c, packet).value.s.classes == c.s.classes
  {
  }

  lemma PlainStep(T: Topology, n: Network, act: Move)
    requires PlainNetwork(n)
    ensures PlainNetwork(Apply(T, n, act))
  {
    ApplyIs(T, n, act);
    match act {
      case SendOut(a, id, actor, msg) => PlainSendMove(T, n, a, id, actor, msg);
      case Relay(i, newAddr) => PlainRelay(T, n, i, newAddr);
      case RelayAck(i) => PlainSettle(T, n, i);
      case RelayTimeout(i) => PlainSettle(T, n, i);
      case PauseBridge(_, _) => PlainGovernance(T, n, act);
      case MigrateBridge(_, _, _) => PlainGovernance(T, n, act);
      case _ => PlainUser(T, n, act);
    }
  }

  lemma PlainUser(T: Topology, n: Network, act: Move)
    requires PlainNetwork(n) && (act.Give? || act.Destroy? || act.Issue? || act.Found?)
    ensures PlainNetwork(ApplyUser(T, n, act))
  {
  }

  lemma PlainGovernance(T: Topology, n: Network, act: Move)
    requires PlainNetwork(n) && (act.PauseBridge? || act.MigrateBridge?)
    ensures PlainNetwork(ApplyGovernance(T, n, act))
  {
  }

  lemma PlainSendMove(T: Topology, n: Network, a: ChainId, id: NftId, actor: Addr, msg: OutgoingMsg)
    requires PlainNetwork(n)
    ensures PlainNetwork(ApplySend(T, n, a, id, actor, msg))
  {
    SendMoveIs(T, n, a, id, actor, msg);
    if SendOutcome(T, n, a, id, actor, msg).Some? {
      PlainSend(T.envs[a], n.chains[a], id, actor, msg);
    }
  }

  lemma PlainRelay(T: Topology, n: Network, i: nat, newAddr: Addr)
    requires PlainNetwork(n)
    ensures PlainNetwork(ApplyRelay(T, n, i, newAddr))
  {
    if CanRelay(T, n, i) && n.flights[i].status == Undelivered {
      var b := T.peer[n.flights[i].src].chain;
      PlainDeliver(T.envs[b], n.chains[b], PacketOf(T, n.flights[i]), newAddr);
    }
  }

  lemma PlainSettle(T: Topology, n: Network, i: nat)
    requires PlainNetwork(n)
    ensures PlainNetwork(ApplyAck(T, n, i)) && PlainNetwork(ApplyTimeout(T, n, i))
  {
    if CanRelay(T, n, i) {
      var f := n.flights[i];
      var ack := if f.status == Undelivered then AckFail else f.status.ack;
      SettlingKeepsClasses(T.envs[f.src.chain], n.chains[f.src.chain], PacketOf(T, f), Some(ack));
    }
  }

  lemma {:induction false} PlainRun(T: Topology, n: Network, acts: seq<Move>)
    requires PlainNetwork(n)
    ensures PlainNetwork(ApplyAll(T, n, acts))
  {
    if acts != [] {
      PlainRun(T, n, acts[..|acts| - 1]);
      PlainStep(T, ApplyAll(T, n, acts[..|acts| - 1]), acts[|acts| - 1]);
    }
  }

  lemma GenesisIsPlain(T: Topology, n: Network)
    requires Genesis(T, n)
    ensures PlainNetwork(n)
  {
  }
}
