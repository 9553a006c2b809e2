/** How packets end, in every reachable state of the network. */
module Settlement {
  import opened Types
  import opened ClassIds
  import opened Receive
  import opened Handlers
  import opened Chain
  import opened Effects
  import opened Network
  import opened Views
  import opened Simulation
  import opened Reachable
  import C = Custody

  /** An open packet passes validation and has its sender's class mapped and its channel in place. */
  lemma PacketsAreWellFormed(T: Topology, n: Network, acts: seq<Move>, i: nat)
    requires ValidTopology(T) && Genesis(T, n) && i in ApplyAll(T, n, acts).flights
    ensures var m := ApplyAll(T, n, acts);
            && CanRelay(T, m, i) && WellFormed(m.flights[i].data)
            && m.flights[i].data.classId in m.chains[m.flights[i].src.chain].s.classToNft
            && T.envs[m.flights[i].src.chain].valid(m.flights[i].data.sender)
  {
    var m := ApplyAll(T, n, acts);
    var held := ReachableInv(T, n, acts);
    OpenIsWellFormed(T, m, i);
  }

  lemma OpenIsWellFormed(T: Topology, n: Network, i: nat)
    requires ValidTopology(T) && i in n.flights && ChainsAreValid(T, n.chains) && FlightsAreGood(T, n)
    ensures
      && CanRelay(T, n, i) && WellFormed(n.flights[i].data)
      && n.flights[i].data.classId in n.chains[n.flights[i].src.chain].s.classToNft
      && T.envs[n.flights[i].src.chain].valid(n.flights[i].data.sender)
  {
    assert FlightIsGood(T, n.chains, n.flights, n.next, i);
    ValidateIs(n.flights[i].data);
  }

  // ---------- Deliveries ----------

  /** The receiving bridge is not paused and knows the receiver's address. */
  predicate Welcomes(T: Topology, n: Network, i: nat)
    requires CanRelay(T, n, i)
  {
    var b := T.peer[n.flights[i].src].chain;
    !n.chains[b].s.po.paused && T.envs[b].valid(n.flights[i].data.receiver)
  }

  lemma WelcomeIsAccepted(T: Topology, n: Network, i: nat, status: FlightStatus)
    requires InFlight(T, n, i, status)
    ensures Accepted(T, n, i) <==> Welcomes(T, n, i)
  {
  }

  /** A voucher on its way home is redeemed if the home bridge is not paused and the receiver is valid. */
  lemma ReturnsAreRedeemed(T: Topology, n: Network, acts: seq<Move>, i: nat, newAddr: Addr)
    requires ValidTopology(T) && Genesis(T, n)
    requires var m := ApplyAll(T, n, acts);
             && InFlight(T, m, i, Undelivered) && Welcomes(T, m, i)
             && PacketRoute(PacketOf(T, m.flights[i])).local.Some?
    ensures var m := ApplyAll(T, n, acts);
            var f, b := m.flights[i], T.peer[m.flights[i].src].chain;
            var m' := ApplyRelay(T, m, i, newAddr);
            && i in m'.flights && m'.flights[i].status == Acked(AckSuccess)
            && b in m'.chains && HomeKey(T, f) !in m'.chains[b].s.outgoing
            && NftAt(m'.chains[b], HomeKey(T, f)).Some?
            && NftAt(m'.chains[b], HomeKey(T, f)).value.owner == f.data.receiver
  {
    var m := ApplyAll(T, n, acts);
    var held := ReachableInv(T, n, acts);
    WelcomeIsAccepted(T, m, i, Undelivered);
    RedeemsIn(T, m, held, i, newAddr);
    RelayIs(T, m, i, newAddr);
  }

  lemma RedeemsIn(T: Topology, n: Network, held: Held, i: nat, newAddr: Addr)
    requires InFlight(T, n, i, Undelivered) && Accepted(T, n, i) && PacketRoute(PacketOf(T, n.flights[i])).local.Some?
    requires ValidTopology(T) && NetInv(T, n, held)
    ensures
      && Delivered(T, n, i, newAddr).1 == AckSuccess
      && Redeems(T, n, i, HomeKey(T, n.flights[i]), Delivered(T, n, i, newAddr).0)
  {
    assert ChainIsValid(T, n.chains, T.peer[n.flights[i].src].chain);
    ReturnIsHonoured(T, n, held, i);
    DeliveryRedeems(T, n, i, newAddr);
  }

  /** A voucher that exists although its parent is in transit was redeemed, and its burning ack is on the way. */
  lemma LeftoverVoucher(G: C.Graph, v: C.View, l: Loc)
    requires C.ValidGraph(G) && C.Inv(G, v) && l in v.held && C.Voucher(G, v.held[l].src, l) in v.nfts
    ensures C.Dead(v.held, C.Voucher(G, v.held[l].src, l))
  {
    var e := v.held[l].src;
    assert C.Edge(G, G.peer[e], C.Voucher(G, e, l), l);
  }

  /** The packet behind a hold. */
  lemma HoldIsFlight(G: C.Graph, flights: map<nat, Flight>, held: Held, l: Loc)
    requires HeldAgrees(G, flights, held) && l in held
    ensures held[l].id in flights && OneToken(flights[held[l].id].data) && LocOf(flights[held[l].id]) == l
    ensures held[l] == HoldOf(held[l].id, flights[held[l].id]) && Holds(G, flights[held[l].id])
  {
  }

  lemma LeftoverIsDead(T: Topology, n: Network, held: Held, i: nat)
    requires InFlight(T, n, i, Undelivered)
    requires var b := T.peer[n.flights[i].src].chain; NftAt(n.chains[b], VoucherKey(T, n.flights[i])).Some?
    requires ValidTopology(T) && C.Inv(GraphOf(T), ViewOf(n, held)) && HeldAgrees(GraphOf(T), n.flights, held)
    ensures C.Dead(held, At(T.peer[n.flights[i].src].chain, VoucherKey(T, n.flights[i])))
  {
    var f := n.flights[i];
    FlightIsHeld(T, n, held, i);
    RouteIsEdge(T, f);
    GraphIsValid(T);
    VoucherInView(n, held, T.peer[f.src].chain, VoucherKey(T, f));
    LeftoverVoucher(GraphOf(T), ViewOf(n, held), LocOf(f));
  }

  /** The packet of a voucher that waits to be burned. */
  lemma DeadIsFlight(G: C.Graph, flights: map<nat, Flight>, held: Held, l: Loc) returns (j: nat)
    requires HeldAgrees(G, flights, held) && C.Dead(held, l)
    ensures
      && j in flights
      && OneToken(flights[j].data)
      && LocOf(flights[j]) == l
      && flights[j].status == Acked(AckSuccess)
    ensures C.CameOver(G, flights[j].src, l)
  {
    j := held[l].id;
    HoldIsFlight(G, flights, held, l);
  }

  lemma VoucherInView(n: Network, held: Held, b: ChainId, k: Key)
    requires b in n.chains && NftAt(n.chains[b], k).Some?
    ensures At(b, k) in ViewOf(n, held).nfts
  {
  }

  lemma CreatesIff(T: Topology, n: Network, i: nat, newAddr: Addr)
    requires InFlight(T, n, i, Undelivered) && Accepted(T, n, i) && PacketRoute(PacketOf(T, n.flights[i])).local.None?
    requires var b := T.peer[n.flights[i].src].chain;
             ValidChain(T.envs[b], n.chains[b]) && FreshAddress(T.envs[b], n.chains[b], newAddr)
    ensures var c := n.chains[T.peer[n.flights[i].src].chain];
            Delivered(T, n, i, newAddr).1 == AckSuccess <==> NftAt(c, VoucherKey(T, n.flights[i])) == None
  {
    var f, b := n.flights[i], T.peer[n.flights[i].src].chain;
    TokensAre(f.data);
    if NftAt(n.chains[b], VoucherKey(T, f)) == None {
      CreateSucceeds(T.envs[b], n.chains[b], PacketOf(T, f), TokenOf(f.data), newAddr);
    } else if Delivered(T, n, i, newAddr).1 == AckSuccess {
      CreateEffect(T.envs[b], n.chains[b], PacketOf(T, f), TokenOf(f.data), newAddr);
    }
  }

  /**
   Where the receiving bridge is not paused and the receiver is valid, an outbound packet creates its
   voucher exactly when no voucher from the NFT's last trip is left; and one is left only while the
   success ack that burns it has not been relayed.
   */
  lemma OutboundCreates(T: Topology, n: Network, acts: seq<Move>, i: nat, newAddr: Addr) returns (j: nat)
    requires ValidTopology(T) && Genesis(T, n)
    requires var m := ApplyAll(T, n, acts);
             && InFlight(T, m, i, Undelivered) && Welcomes(T, m, i)
             && PacketRoute(PacketOf(T, m.flights[i])).local.None?
             && FreshAddress(T.envs[T.peer[m.flights[i].src].chain], m.chains[T.peer[m.flights[i].src].chain], newAddr)
    ensures var m := ApplyAll(T, n, acts);
            var f := m.flights[i];
            var b := T.peer[f.src].chain;
            && (Delivered(T, m, i, newAddr).1 == AckSuccess <==> NftAt(m.chains[b], VoucherKey(T, f)) == None)
            && (NftAt(m.chains[b], VoucherKey(T, f)) != None ==>
                  && j in m.flights && m.flights[j].status == Acked(AckSuccess)
                  && OneToken(m.flights[j].data) && LocOf(m.flights[j]) == At(b, VoucherKey(T, f)))
  {
    var m := ApplyAll(T, n, acts);
    var held := ReachableInv(T, n, acts);
    var b := T.peer[m.flights[i].src].chain;
    WelcomeIsAccepted(T, m, i, Undelivered);
    assert ChainIsValid(T, m.chains, b);
    CreatesIff(T, m, i, newAddr);
    j := 0;
    if NftAt(m.chains[b], VoucherKey(T, m.flights[i])) != None {
      LeftoverIsDead(T, m, held, i);
      j := DeadIsFlight(GraphOf(T), m.flights, held, At(b, VoucherKey(T, m.flights[i])));
    }
  }

  // ---------- Acks and timeouts ----------

  /** A packet that was not delivered, or not accepted, is refunded without fail. */
  lemma RefundsGoThrough(T: Topology, n: Network, acts: seq<Move>, i: nat)
    requires ValidTopology(T) && Genesis(T, n)
    requires var m := ApplyAll(T, n, acts);
             InFlight(T, m, i, Undelivered) || InFlight(T, m, i, Acked(AckFail))
    ensures var m := ApplyAll(T, n, acts);
            var m' := if m.flights[i].status == Undelivered then ApplyTimeout(T, m, i) else ApplyAck(T, m, i);
            var a, k := m.flights[i].src.chain, KeyAt(LocOf(m.flights[i]));
            && i !in m'.flights && a in m'.chains && k !in m'.chains[a].s.outgoing
            && NftAt(m'.chains[a], k).Some? && NftAt(m'.chains[a], k).value.owner == m.flights[i].data.sender
  {
    var m := ApplyAll(T, n, acts);
    var held := ReachableInv(T, n, acts);
    OpenPacket(T, m, i);
    RefundIsReady(T, m, held, i);
    SettleIs(T, m, i, Refunded(T, m, i).value);
  }

  lemma HeldIsOut(T: Topology, n: Network, held: Held, i: nat)
    requires CanRelay(T, n, i) && OneToken(n.flights[i].data) && Holds(GraphOf(T), n.flights[i])
    requires C.Inv(GraphOf(T), ViewOf(n, held)) && HeldAgrees(GraphOf(T), n.flights, held)
    ensures var f := n.flights[i];
            var s, k := n.chains[f.src.chain].s, KeyAt(LocOf(f));
            k in s.outgoing && s.outgoing[k] == f.src.channel
  {
    var f := n.flights[i];
    FlightIsHeld(T, n, held, i);
    HoldIsOut(GraphOf(T), ViewOf(n, held), LocOf(f));
    OutgoingIs(n, held, f.src.chain, KeyAt(LocOf(f)));
  }

  lemma HoldIsOut(G: C.Graph, v: C.View, l: Loc)
    requires C.Inv(G, v) && l in v.held
    ensures l in v.outgoing && v.held[l].src == C.End(l.chain, v.outgoing[l])
  {
  }

  /**
   A success ack goes through: it burns the token exactly when the packet left on the channel its class
   ID names. The burned voucher's OUTGOING entry stays.
   */
  lemma AcksGoThrough(T: Topology, n: Network, acts: seq<Move>, i: nat)
    requires ValidTopology(T) && Genesis(T, n) && InFlight(T, ApplyAll(T, n, acts), i, Acked(AckSuccess))
    ensures var m := ApplyAll(T, n, acts);
            var m' := ApplyAck(T, m, i);
            var f := m.flights[i];
            var a, k := f.src.chain, KeyAt(LocOf(f));
            && i !in m'.flights && a in m'.chains
            && if TryPopSourcePrefix(EndpointOf(T, f.src), f.data.classId).Some?
               then
                 && NftAt(m'.chains[a], k) == None && k !in m'.chains[a].s.incoming && k !in m'.chains[a].s.metadata
                 && k in m'.chains[a].s.outgoing && m'.chains[a].s.outgoing[k] == f.src.channel
               else m'.chains[a] == m.chains[a]
  {
    var m := ApplyAll(T, n, acts);
    var held := ReachableInv(T, n, acts);
    OpenPacket(T, m, i);
    AckIsReady(T, m, held, i);
    AckIs(T, m, i, Burned(T, m, i).value);
    RouteIsEdge(T, m.flights[i]);
    if TryPopSourcePrefix(EndpointOf(T, m.flights[i].src), m.flights[i].data.classId).Some? {
      HeldIsOut(T, m, held, i);
    }
  }
}
