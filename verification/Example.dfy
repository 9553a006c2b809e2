/**
 Two chains that share a port name, one channel, one NFT: all assumptions of the theorems hold together
 here, and two things the design does not intend happen here.
 */
module Example {
  import opened Types
  import opened ClassIds
  import opened Receive
  import opened Handlers
  import opened Invariants
  import opened Runs
  import opened Cw721
  import opened Chain
  import opened Delivery
  import opened Outcome
  import opened Effects
  import opened Network
  import opened Views
  import opened Simulation
  import opened Reachable
  import opened Settlement
  import opened Undo
  import opened Journeys
  import C = Custody

  function ChainEnv(): Env {
    Env("bridge", "port", (a: Addr) => IsAddress(a))
  }

  function TwoChains(): Topology {
    Topology(map[0 := ChainEnv(), 1 := ChainEnv()],
             map[C.End(0, "left") := C.End(1, "right"), C.End(1, "right") := C.End(0, "left")])
  }

  function EmptyChain(): Chain {
    Chain(Storage(None, PauseState(None, false), map[], map[], map[], map[], map[], map[]), Ledger(map[], map[]))
  }

  function Start(): Network {
    var c := EmptyChain();
    Network(map[0 := c.(ledger := Ledger(map["art" := Collection("art", "alice")],
                                         map[NftId("art", "1") := Nft("alice", None)])),
                1 := c],
            map[], 0, {})
  }

  lemma EnvIsValid()
    ensures ValidEnv(ChainEnv()) && SlashFree(ChainEnv().port)
  {
  }

  lemma TopologyIsValid()
    ensures ValidTopology(TwoChains())
  {
    var T := TwoChains();
    EnvIsValid();
    EndsAreValid();
    forall a | a in T.envs ensures SlashFree(T.envs[a].port) && ValidEnv(T.envs[a]) {
      assert T.envs[a] == ChainEnv();
    }
  }

  lemma EndsAreValid()
    ensures forall e | e in TwoChains().peer ::
              && e.chain in TwoChains().envs && SlashFree(e.channel)
              && TwoChains().peer[e] in TwoChains().peer && TwoChains().peer[TwoChains().peer[e]] == e
  {
    assert SlashFree("left") && SlashFree("right");
  }

  lemma BlankIsInstantiated(env: Env)
    ensures Instantiated(env, None) == Success(EmptyChain().s)
  {
  }

  lemma LedgersAreValid()
    ensures forall a | a in Start().chains ::
              && ValidLedger(Start().chains[a].ledger) && "bridge" !in Start().chains[a].ledger.collections
              && forall id | id in Start().chains[a].ledger.nfts :: Start().chains[a].ledger.nfts[id].owner != "bridge"
  {
    assert SlashFree("art");
  }

  lemma StartIsGenesis()
    ensures Genesis(TwoChains(), Start())
  {
    var T, n := TwoChains(), Start();
    LedgersAreValid();
    forall a | a in n.chains
      ensures exists pauser :: Instantiated(T.envs[a], pauser) == Success(n.chains[a].s.(proxy := None))
    {
      BlankIsInstantiated(T.envs[a]);
    }
  }

  // ---------- A journey ----------

  /** Moves other than pauses and migrations leave every bridge's settings alone. */
  ghost predicate SameSettings(chains: Chains, chains': Chains) {
    forall a {:trigger chains[a]} {:trigger chains'[a]} | a in chains ::
      a in chains' && chains'[a].s.po == chains[a].s.po && chains'[a].s.proxy == chains[a].s.proxy
  }

  lemma SendKeepsSettings(env: Env, c: Chain, id: NftId, actor: Addr, msg: OutgoingMsg)
    requires UserSend(env, c, id, actor, msg).Some?
    ensures var c' := UserSend(env, c, id, actor, msg).value.0; c'.s.po == c.s.po && c'.s.proxy == c.s.proxy
  {
    UserSendIsSendNft(env, c, id, actor, msg);
  }

  lemma DeliverKeepsSettings(env: Env, c: Chain, packet: Packet, newAddr: Addr)
    ensures var c' := Deliver(env, c, packet, newAddr).0; c'.s.po == c.s.po && c'.s.proxy == c.s.proxy
  {
    if ReceiveIbcPacket(env, c.s, packet).Success? {
      var s1 := ReceiveIbcPacket(env, c.s, packet).value.0;
      var redeemed, created := Redeemed(Actions(c.s, packet)), Created(Actions(c.s, packet));
      DeliverSides(env, c, packet, newAddr);
      if RunSides(env, s1, packet, redeemed, created, newAddr).Success? {
        SidesEffect(env, s1, packet, redeemed, created, newAddr);
      }
    }
  }

  lemma SettleKeepsSettings(env: Env, c: Chain, packet: Packet, ack: Option<Ack>)
    ensures Acknowledge(env, c, packet, ack).Some? ==>
              && Acknowledge(env, c, packet, ack).value.s.po == c.s.po
              && Acknowledge(env, c, packet, ack).value.s.proxy == c.s.proxy
  {
  }

  lemma SendOutKeepsSettings(T: Topology, n: Network, a: ChainId, id: NftId, actor: Addr, msg: OutgoingMsg)
    ensures SameSettings(n.chains, ApplySend(T, n, a, id, actor, msg).chains)
  {
    SendMoveIs(T, n, a, id, actor, msg);
    if SendOutcome(T, n, a, id, actor, msg).Some? {
      SendKeepsSettings(T.envs[a], n.chains[a], id, actor, msg);
    }
  }

  lemma RelayKeepsSettings(T: Topology, n: Network, i: nat, newAddr: Addr)
    ensures SameSettings(n.chains, ApplyRelay(T, n, i, newAddr).chains)
  {
    if CanRelay(T, n, i) {
      var b := T.peer[n.flights[i].src].chain;
      DeliverKeepsSettings(T.envs[b], n.chains[b], PacketOf(T, n.flights[i]), newAddr);
    }
  }

  lemma AckKeepsSettings(T: Topology, n: Network, i: nat)
    ensures SameSettings(n.chains, ApplyAck(T, n, i).chains)
  {
    if CanRelay(T, n, i) && n.flights[i].status.Acked? {
      var a := n.flights[i].src.chain;
      SettleKeepsSettings(T.envs[a], n.chains[a], PacketOf(T, n.flights[i]), Some(n.flights[i].status.ack));
    }
  }

  lemma MoveKeepsSettings(T: Topology, n: Network, act: Move)
    requires act.SendOut? || act.Relay? || act.RelayAck?
    ensures SameSettings(n.chains, Apply(T, n, act).chains)
  {
    ApplyIs(T, n, act);
    match act {
      case SendOut(a, id, actor, msg) => SendOutKeepsSettings(T, n, a, id, actor, msg);
      case Relay(i, newAddr) => RelayKeepsSettings(T, n, i, newAddr);
      case RelayAck(i) => AckKeepsSettings(T, n, i);
    }
  }

  function Direct(receiver: Addr, newAddr: Addr): Plan {
    Plan(receiver, newAddr, [], [])
  }

  lemma HopKeepsSettings(T: Topology, n: Network, l: Loc, e: End, receiver: Addr, newAddr: Addr)
    ensures var p := Direct(receiver, newAddr);
            && SameSettings(n.chains, AtDelivery(T, n, l, e, p).chains)
            && SameSettings(n.chains, Hop(T, n, l, e, p).chains)
  {
    var p := Direct(receiver, newAddr);
    var n1 := Apply(T, n, Sending(n, l, e, receiver));
    MoveKeepsSettings(T, n, Sending(n, l, e, receiver));
    MoveKeepsSettings(T, n1, Relay(n.next, newAddr));
    assert AtDelivery(T, n, l, e, p) == n1 && Hop(T, n, l, e, p) == Apply(T, n1, Relay(n.next, newAddr));
  }

  function Art(): Loc {
    C.Loc(0, "art", "1")
  }

  /** To bob on the other chain, and back to alice. */
  function Tour(): Leg {
    Leg(C.End(0, "left"), Direct("bob", "voucher"), Direct("alice", ""))
  }

  predicate Unpaused(n: Network) {
    forall a | a in {0, 1} ::
      a in n.chains && n.chains[a].s.po == PauseState(None, false) && n.chains[a].s.proxy == None
  }

  lemma ArtCanTravel()
    ensures HasNft(TwoChains(), Start(), Art(), Nft("alice", None)) && Unpaused(Start())
    ensures IsPath(TwoChains(), Art().chain, [Tour()]) && Popped(TwoChains(), Tour().e, Art()).None?
  {
    var T := TwoChains();
    assert IsPath(T, 1, [Tour()][1..]);
    PopIsInverse(EndpointOf(T, Tour().e), "art", "");
    assert EndpointPrefix(EndpointOf(T, Tour().e))[0] == 'p';
  }

  lemma StaysUnpaused(n: Network, n': Network)
    requires Unpaused(n) && SameSettings(n.chains, n'.chains)
    ensures Unpaused(n')
  {
    assert 0 in n.chains && 1 in n.chains;
    assert n.chains[0].s == n.chains[0].s && n.chains[1].s == n.chains[1].s;
  }

  lemma DirectIsSmooth(n: Network, l: Loc, e: End, receiver: Addr, newAddr: Addr)
    requires e in TwoChains().peer && l.chain in {0, 1} && Unpaused(n)
    requires var b := TwoChains().peer[e].chain;
             var n1 := AtDelivery(TwoChains(), n, l, e, Direct(receiver, newAddr));
             Popped(TwoChains(), e, l).None? && b in n1.chains ==> FreshAddress(ChainEnv(), n1.chains[b], newAddr)
    ensures
      && Smooth(TwoChains(), n, l, e, Direct(receiver, newAddr))
      && Unpaused(Hop(TwoChains(), n, l, e, Direct(receiver, newAddr)))
  {
    var T, p := TwoChains(), Direct(receiver, newAddr);
    HopKeepsSettings(T, n, l, e, receiver, newAddr);
    StaysUnpaused(n, AtDelivery(T, n, l, e, p));
    StaysUnpaused(n, Hop(T, n, l, e, p));
    OpenAtSend(n, l);
    assert T.peer[e].chain in {0, 1};
    assert AtSend(T, n, p) == n;
    assert Spare(T, n, p.first, l);
  }

  lemma OpenAtSend(n: Network, l: Loc)
    requires l.chain in {0, 1} && Unpaused(n)
    ensures CanSendFrom(TwoChains(), n, l)
  {
  }

  lemma VoucherIsFresh()
    ensures var n1 := AtDelivery(TwoChains(), Start(), Art(), Tour().e, Tour().out);
            1 in n1.chains && FreshAddress(ChainEnv(), n1.chains[1], "voucher")
  {
    var T, n := TwoChains(), Start();
    var send := Sending(n, Art(), Tour().e, "bob");
    ApplyIs(T, n, send);
    SendMoveIs(T, n, 0, send.id, send.actor, send.msg);
    assert AtDelivery(T, n, Art(), Tour().e, Tour().out) == Apply(T, n, send);
    assert SlashFree("voucher");
  }

  lemma TourIsSmooth()
    ensures SmoothTrip(TwoChains(), Start(), Art(), [Tour()])
  {
    var T, n, e := TwoChains(), Start(), Tour().e;
    var c := VoucherOf(T, e, Art());
    var there := Hop(T, n, Art(), e, Tour().out);
    ArtCanTravel();
    VoucherIsFresh();
    DirectIsSmooth(n, Art(), e, "bob", "voucher");
    TopologyIsValid();
    VoucherPops(T, e, Art());
    DirectIsSmooth(there, c, T.peer[e], "alice", "");
    assert [Tour()][1..] == [];
  }

  /** All assumptions of the theorems about journeys hold together here. */
  lemma AssumptionsHold()
    ensures ValidTopology(TwoChains()) && Genesis(TwoChains(), Start())
    ensures HasNft(TwoChains(), Start(), Art(), Nft("alice", None)) && LeadsOut(TwoChains(), Art(), [Tour()])
    ensures NoReturns(TwoChains(), Start().flights, Vouchers(TwoChains(), Art(), [Tour()]))
    ensures SmoothTrip(TwoChains(), Start(), Art(), [Tour()])
  {
    TopologyIsValid();
    StartIsGenesis();
    ArtCanTravel();
    TourIsSmooth();
  }

  // ---------- A burned voucher stays in OUTGOING ----------

  /** The voucher of the tour. */
  function Copy(): Loc {
    VoucherOf(TwoChains(), Tour().e, Art())
  }

  /** After the hop out. */
  function There(): Network {
    Hop(TwoChains(), Start(), Art(), Tour().e, Tour().out)
  }

  /** After the hop back; the packet of the hop back is the network's latest. */
  function Back(): Network {
    Hop(TwoChains(), There(), Copy(), TwoChains().peer[Tour().e], Tour().back)
  }

  lemma TourLands() returns (held: Held)
    ensures ValidTopology(TwoChains()) && NetInv(TwoChains(), There(), held)
    ensures HasNft(TwoChains(), There(), Copy(), Nft("bob", None))
  {
    var T := TwoChains();
    AssumptionsHold();
    GenesisInv(T, Start());
    held := FirstHop(T, Start(), imap[], Art(), Nft("alice", None), [Tour()]);
  }

  lemma TourIsThereAndBack()
    ensures RoundTrip(TwoChains(), Start(), Art(), [Tour()]) == Back()
    ensures SmoothTrip(TwoChains(), Start(), Art(), [Tour()]) ==>
              && Smooth(TwoChains(), Start(), Art(), Tour().e, Tour().out)
              && Smooth(TwoChains(), There(), Copy(), TwoChains().peer[Tour().e], Tour().back)
  {
    assert [Tour()][1..] == [];
  }

  lemma BobSendsItBack() returns (held: Held)
    ensures var T, e := TwoChains(), Tour().e;
            ValidTopology(T) && AwaitsBurn(T, Back(), There().next, Copy(), T.peer[e]) && NetInv(T, Back(), held)
  {
    var T, e := TwoChains(), Tour().e;
    held := TourLands();
    ArtCanTravel();
    TourIsSmooth();
    TourIsThereAndBack();
    LandsThereAndBack(T, e, Art());
    held := HopBack(T, There(), held, Copy(), T.peer[e], Nft("bob", None), Tour().back);
  }

  lemma TourIsRun()
    ensures ApplyAll(TwoChains(), Start(), TripMoves(TwoChains(), Start(), Art(), [Tour()])) == Back()
  {
    TripIsRun(TwoChains(), Start(), Art(), [Tour()]);
    TourIsThereAndBack();
  }

  /** The ack of a hop back burns the voucher, and leaves its entry. */
  lemma AckBurns(T: Topology, n: Network, trip: seq<Move>, m: Network, i: nat, c: Loc, e: End)
    requires ValidTopology(T) && Genesis(T, n) && ApplyAll(T, n, trip) == m && AwaitsBurn(T, m, i, c, e)
    ensures var m' := ApplyAll(T, n, trip + [RelayAck(i)]);
            && c.chain in m'.chains
            && KeyAt(c) in m'.chains[c.chain].s.outgoing
            && NftAt(m'.chains[c.chain], KeyAt(c)) == None
  {
    RunAppend(T, n, trip, [RelayAck(i)]);
    RunOne(T, m, RelayAck(i));
    ApplyIs(T, m, RelayAck(i));
    AcksGoThrough(T, n, trip, i);
  }

  lemma BackIsUnacked()
    ensures ValidTopology(TwoChains()) && Genesis(TwoChains(), Start())
    ensures AwaitsBurn(TwoChains(), Back(), There().next, Copy(), TwoChains().peer[Tour().e])
  {
    StartIsGenesis();
    var held := BobSendsItBack();
  }

  /** A run after which OUTGOING has an entry for an NFT that does not exist: the voucher that went home. */
  lemma StaleOutgoing() returns (acts: seq<Move>, k: Key)
    ensures Genesis(TwoChains(), Start())
    ensures var m := ApplyAll(TwoChains(), Start(), acts);
            1 in m.chains && k in m.chains[1].s.outgoing && NftAt(m.chains[1], k) == None
  {
    var trip := TripMoves(TwoChains(), Start(), Art(), [Tour()]);
    acts, k := trip + [RelayAck(There().next)], KeyAt(Copy());
    TourIsRun();
    BackIsUnacked();
    AckBurns(TwoChains(), Start(), trip, Back(), There().next, Copy(), TwoChains().peer[Tour().e]);
  }

  // ---------- A packet that strands a token ----------

  /** Chain 0 after alice sent her NFT out. */
  function Sent(): Option<(Chain, SendPacket)> {
    UserSend(ChainEnv(), Start().chains[0], NftId("art", "1"), "alice", OutgoingMsg("bob", "left"))
  }

  /** The other end returns it together with another token, named twice. */
  function Malformed(): Packet {
    Packet(Endpoint("port", "right"), Endpoint("port", "left"),
           Some(PacketData("port/right/art", None, None, ["1", "2", "2"], Some(["a", "b", "c"]), None,
                           "mallory", "alice")))
  }

  function ArtKey(): Key {
    Key("art", "1")
  }

  lemma ArtIsOut()
    ensures Sent().Some?
    ensures var c := Sent().value.0;
            && ValidChain(ChainEnv(), c) && c.s.outgoing == map[ArtKey() := "left"] && !c.s.po.paused
            && NftAt(c, ArtKey()) == Some(Nft("bridge", None)) && FreshAddress(ChainEnv(), c, "voucher")
  {
    var c := Start().chains[0];
    LedgersAreValid();
    BlankChain(ChainEnv(), c);
    EnvIsValid();
    assert IsAddress("art") && IsAddress("alice");
    OwnerCanSend(ChainEnv(), c, NftId("art", "1"), "alice", OutgoingMsg("bob", "left"));
    SentStorage();
  }

  lemma SentStorage()
    requires Sent().Some? && ValidChain(ChainEnv(), Start().chains[0])
    ensures var c := Sent().value.0;
            && ValidChain(ChainEnv(), c) && c.s.outgoing == map[ArtKey() := "left"] && !c.s.po.paused
            && NftAt(c, ArtKey()) == Some(Nft("bridge", None)) && FreshAddress(ChainEnv(), c, "voucher")
  {
    var c := Start().chains[0];
    assert SlashFree("voucher");
    UserSendStorage(ChainEnv(), c, NftId("art", "1"), "alice", OutgoingMsg("bob", "left"));
    UserSendEffect(ChainEnv(), c, NftId("art", "1"), "alice", OutgoingMsg("bob", "left"));
  }

  lemma MalformedPasses(s: Storage)
    requires !s.po.paused
    ensures PacketError(ChainEnv(), s, Malformed()).None? && PacketRoute(Malformed()).local == Some("art")
    ensures var ts := Tokens(Malformed().data.value); |ts| == 3 && ts[0].id == "1" && ts[1].id == "2" && ts[2].id == "2"
  {
    var d := Malformed().data.value;
    assert d.classId == EndpointPrefix(Malformed().src) + "art";
    PopIsInverse(Malformed().src, d.classId, "art");
    TokensOfValid(d);
  }

  /** Instantiation, one send and one packet: an error ack, and the bridge keeps an NFT it no longer knows it owes. */
  lemma Stranding()
    ensures Instantiated(ChainEnv(), None) == Success(Start().chains[0].s) && Sent().Some?
    ensures var c := Sent().value.0;
            var (c', ack) := Deliver(ChainEnv(), c, Malformed(), "voucher");
            && ArtKey() in c.s.outgoing && ack == AckFail && c'.ledger == c.ledger && Stranded(ChainEnv(), c', ArtKey())
  {
    BlankIsInstantiated(ChainEnv());
    ArtIsOut();
    MalformedPasses(Sent().value.0.s);
    MalformedStrands(Sent().value.0);
    StrandsFor(ChainEnv(), Sent().value.0, Malformed(), "voucher", ArtKey());
  }

  lemma StrandsFor(env: Env, c: Chain, packet: Packet, newAddr: Addr, k: Key)
    requires ValidChain(env, c) && FreshAddress(env, c, newAddr)
    requires k in c.s.outgoing && NftAt(c, k).Some? && NftAt(c, k).value.owner == env.self
    requires PacketError(env, c.s, packet).None? && RedeemsKey(c.s, packet, k) && !Deliverable(env, c, packet)
    ensures var (c', ack) := Deliver(env, c, packet, newAddr);
            ack == AckFail && c'.ledger == c.ledger && Stranded(env, c', k)
  {
    PassesIff(env, c.s, packet);
    SucceedsIff(env, c, packet, newAddr);
    StrandedIff(env, c, packet, newAddr, k);
    FailedAckRollsBack(env, c, packet, newAddr);
  }

  lemma MalformedStrands(c: Chain)
    requires c.s.outgoing == map[ArtKey() := "left"] && !c.s.po.paused
    ensures RedeemsKey(c.s, Malformed(), ArtKey()) && !Deliverable(ChainEnv(), c, Malformed())
  {
    MalformedPasses(c.s);
    var r, ts := PacketRoute(Malformed()), Tokens(Malformed().data.value);
    assert Returns(r, c.s.outgoing, "1") && Occurs(ts, "1");
    assert !IsRedeemed(r, c.s.outgoing, ts, 1) && !IsRedeemed(r, c.s.outgoing, ts, 2) && ts[1].id == ts[2].id;
  }
}
