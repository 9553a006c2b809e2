/** A bridge together with the cw721 contracts of its chain, one transaction at a time. */
module Chain {
  import opened Types
  import opened Receive
  import opened Handlers
  import opened Invariants
  import opened Cw721

  datatype Chain = Chain(s: Storage, ledger: Ledger)

  /** Registered contracts exist, and a voucher contract is the bridge's, under the name of its class. */
  predicate ValidChain(env: Env, c: Chain) {
    && ValidStorage(env, c.s)
    && ValidLedger(c.ledger)
    && env.self !in c.ledger.collections
    && (forall a | a in c.s.nftToClass ::
          && a in c.ledger.collections
          && (c.s.nftToClass[a] != a ==> c.ledger.collections[a] == Collection(c.s.nftToClass[a], env.self)))
  }

  // ---------- Transactions ----------

  /**
   A user (the owner, or someone the owner approved) calls `SendNft` on a cw721: the bridge becomes
   the owner and is told, directly or through its proxy. `None` when the transaction reverts.
   */
  function UserSend(env: Env, c: Chain, id: NftId, actor: Addr, msg: OutgoingMsg): Option<(Chain, SendPacket)> {
    if id !in c.ledger.nfts || c.ledger.nfts[id].owner == env.self then None
    else
      var nft := c.ledger.nfts[id];
      var world := World(Some(nft.uri), "");
      var r := if c.s.proxy.None? then Execute(env, c.s, id.contract, ReceiveNft(id.token, actor, Some(msg)), world)
               else Execute(env, c.s, c.s.proxy.value, ReceiveProxyNft(id.contract, id.token, actor, Some(msg)), world);
      if r.Failure? || |r.value.1.packets| != 1 then None
      else
        var l := c.ledger.(nfts := c.ledger.nfts[id := nft.(owner := env.self)]);
        Some((Chain(r.value.0, l), r.value.1.packets[0]))
  }

  /** `ibc_packet_receive`, its submessage, and the ack that `reply` sets: only the submessage rolls back. */
  function Deliver(env: Env, c: Chain, packet: Packet, newAddr: Addr): (Chain, Ack) {
    match ReceiveIbcPacket(env, c.s, packet)
    case Failure(_) => (c, AckFail)
    case Success((s1, cb)) =>
      match Execute(env, s1, env.self, SelfCall(cb), World(None, newAddr))
      case Failure(_) => (c.(s := s1), AckFail)
      case Success((s2, response)) =>
        match PerformAll(env.self, c.ledger, response.messages)
        case None => (c.(s := s1), AckFail)
        case Some(l2) => (Chain(s2, l2), AckSuccess)
  }

  function Settle(env: Env, c: Chain, r: Result<(Storage, seq<NftMsg>)>): Option<Chain> {
    if r.Failure? then None
    else
      match PerformAll(env.self, c.ledger, r.value.1)
      case None => None
      case Some(l) => Some(Chain(r.value.0, l))
  }

  function Acknowledge(env: Env, c: Chain, packet: Packet, ack: Option<Ack>): Option<Chain> {
    Settle(env, c, IbcPacketAck(env, c.s, packet, ack))
  }

  function TimeOut(env: Env, c: Chain, packet: Packet): Option<Chain> {
    Settle(env, c, HandlePacketFail(env, c.s, packet))
  }

  // ---------- Arbitrary packets ----------

  /** A self-call of a bridge that is not paused runs the callback. */
  lemma SelfCallRuns(env: Env, s: Storage, cb: Callback, newAddr: Addr)
    requires !s.po.paused
    ensures Execute(env, s, env.self, SelfCall(cb), World(None, newAddr)) ==
            match RunCallback(env, s, cb, newAddr)
            case Success((s1, messages)) => Success((s1, Response([], messages)))
            case Failure(e) => Failure(e)
  {
  }

  /** What a successful delivery did, side by side. */
  lemma DeliverSides(env: Env, c: Chain, packet: Packet, newAddr: Addr)
    requires ReceiveIbcPacket(env, c.s, packet).Success?
    ensures var s1 := ReceiveIbcPacket(env, c.s, packet).value.0;
            var actions := Actions(c.s, packet);
            && (Redeemed(actions) != [] ==> PacketRoute(packet).local.Some?)
            && var r := RunSides(env, s1, packet, Redeemed(actions), Created(actions), newAddr);
            Deliver(env, c, packet, newAddr) ==
              if r.Success? && PerformAll(env.self, c.ledger, r.value.1).Some?
              then (Chain(r.value.0, PerformAll(env.self, c.ledger, r.value.1).value), AckSuccess)
              else (c.(s := s1), AckFail)
  {
    var (s1, cb) := ReceiveIbcPacket(env, c.s, packet).value;
    SubmessageRuns(env, c.s, packet, s1, newAddr);
    SelfCallRuns(env, s1, cb, newAddr);
  }

  /** A failed packet: nothing but the handler's own OUTGOING and INCOMING writes remains. */
  lemma FailedAckRollsBack(env: Env, c: Chain, packet: Packet, newAddr: Addr)
    requires Deliver(env, c, packet, newAddr).1 == AckFail
    ensures var c' := Deliver(env, c, packet, newAddr).0;
            && c'.ledger == c.ledger
            && c'.s == c.s.(outgoing := c'.s.outgoing, incoming := c'.s.incoming)
            && (ReceiveIbcPacket(env, c.s, packet).Failure? ==> c' == c)
  {
  }
}
