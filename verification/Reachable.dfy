/** The custody invariant in every reachable state of the network. */
module Reachable {
  import opened Types
  import opened ClassIds
  import opened Handlers
  import opened Cw721
  import opened Chain
  import opened Effects
  import opened Network
  import opened Views
  import opened Simulation
  import C = Custody

  function UserAt(n: Network, a: ChainId, id: NftId): Option<Loc> {
    if a in n.chains then Some(At(a, KeyOf(n.chains[a].s, id))) else None
  }

  /** The NFT that a user's move is about. */
  function UserLoc(n: Network, act: Move): Option<Loc> {
    if act.Give? || act.Destroy? || act.Issue? || act.SendOut? then UserAt(n, act.chain, act.id) else None
  }

  lemma UserLocIs(n: Network, act: Move)
    ensures match act
            case Give(a, id, _) => UserLoc(n, act) == UserAt(n, a, id)
            case Destroy(a, id) => UserLoc(n, act) == UserAt(n, a, id)
            case Issue(a, id, _) => UserLoc(n, act) == UserAt(n, a, id)
            case SendOut(a, id, _, _) => UserLoc(n, act) == UserAt(n, a, id)
            case _ => UserLoc(n, act) == None
  {
  }

  // ---------- One step ----------

  /** What a delivery does to the network. */
  lemma RelayIs(T: Topology, n: Network, i: nat, newAddr: Addr)
    requires InFlight(T, n, i, Undelivered)
    ensures var (c', ack) := Delivered(T, n, i, newAddr);
            && (ack == AckSuccess ==> Accepted(T, n, i))
            && (ack == AckSuccess && PacketRoute(PacketOf(T, n.flights[i])).local.Some? ==>
                  ApplyRelay(T, n, i, newAddr) == AfterRedeem(T, n, i, c'))
            && (ack == AckSuccess && PacketRoute(PacketOf(T, n.flights[i])).local.None? ==>
                  ApplyRelay(T, n, i, newAddr) == AfterCreate(T, n, i, c'))
            && (ack == AckFail ==> ApplyRelay(T, n, i, newAddr) == AfterRelay(T, n, i, c', AckFail, n.retired))
  {
  }

  lemma RelaySteps(T: Topology, n: Network, held: Held, i: nat, newAddr: Addr) returns (step: C.Step, held': Held)
    requires InFlight(T, n, i, Undelivered)
    requires ValidTopology(T) && NetInv(T, n, held)
    ensures Steps(T, n, held, step, None, ApplyRelay(T, n, i, newAddr), held')
  {
    RelayIs(T, n, i, newAddr);
    if Accepted(T, n, i) && PacketRoute(PacketOf(T, n.flights[i])).local.Some? {
      step, held' := RedemptionSteps(T, n, held, i, newAddr);
    } else {
      match Delivered(T, n, i, newAddr).1 {
        case AckSuccess => step, held' := CreationSteps(T, n, held, i, newAddr);
        case AckFail => step, held' := RejectionSteps(T, n, held, i, newAddr);
      }
    }
  }

  lemma RedemptionSteps(T: Topology, n: Network, held: Held, i: nat, newAddr: Addr) returns (step: C.Step, held': Held)
    requires InFlight(T, n, i, Undelivered) && Accepted(T, n, i) && PacketRoute(PacketOf(T, n.flights[i])).local.Some?
    requires ValidTopology(T) && NetInv(T, n, held)
    ensures Delivered(T, n, i, newAddr).1 == AckSuccess
    ensures Steps(T, n, held, step, None, AfterRedeem(T, n, i, Delivered(T, n, i, newAddr).0), held')
  {
    var f := n.flights[i];
    RedeemSteps(T, n, held, i, newAddr);
    step := C.Redeems(LocOf(f), At(T.peer[f.src].chain, HomeKey(T, f)), f.data.receiver);
    held' := held[LocOf(f) := held[LocOf(f)].(status := C.Redeemed)];
  }

  lemma CreationSteps(T: Topology, n: Network, held: Held, i: nat, newAddr: Addr) returns (step: C.Step, held': Held)
    requires InFlight(T, n, i, Undelivered) && Accepted(T, n, i) && PacketRoute(PacketOf(T, n.flights[i])).local.None?
    requires Delivered(T, n, i, newAddr).1 == AckSuccess && InShape(T, n, held)
    ensures Steps(T, n, held, step, None, AfterCreate(T, n, i, Delivered(T, n, i, newAddr).0), held')
  {
    assert ChainIsValid(T, n.chains, T.peer[n.flights[i].src].chain);
    DeliveryCreates(T, n, i, newAddr);
    CreateSteps(T, n, held, i, Delivered(T, n, i, newAddr).0);
    step := C.Creates(LocOf(n.flights[i]), n.flights[i].data.receiver);
    held' := held - {LocOf(n.flights[i])};
  }

  lemma RejectionSteps(T: Topology, n: Network, held: Held, i: nat, newAddr: Addr) returns (step: C.Step, held': Held)
    requires InFlight(T, n, i, Undelivered) && Delivered(T, n, i, newAddr).1 == AckFail
    requires Accepted(T, n, i) ==> PacketRoute(PacketOf(T, n.flights[i])).local.None?
    requires InShape(T, n, held)
    ensures Steps(T, n, held, step, None, AfterRelay(T, n, i, Delivered(T, n, i, newAddr).0, AckFail, n.retired), held')
  {
    assert ChainIsValid(T, n.chains, T.peer[n.flights[i].src].chain);
    DeliveryRejects(T, n, i, newAddr);
    RejectingGrows(T, n, i, newAddr);
    RejectSteps(T, n, held, i, Accepted(T, n, i));
    step := C.Rejects(LocOf(n.flights[i]), Accepted(T, n, i));
    held' := held[LocOf(n.flights[i]) := held[LocOf(n.flights[i])].(status := C.Failed)];
  }

  /** A timeout or error ack, as the source chain sees it. */
  function Refunded(T: Topology, n: Network, i: nat): Option<Chain>
    requires CanRelay(T, n, i)
  {
    TimeOut(T.envs[n.flights[i].src.chain], n.chains[n.flights[i].src.chain], PacketOf(T, n.flights[i]))
  }

  /** What the invariant says about one open packet and the chain that sent it. */
  lemma OpenPacket(T: Topology, n: Network, i: nat)
    requires CanRelay(T, n, i)
    requires ChainsAreValid(T, n.chains) && FlightsAreGood(T, n)
    ensures
      && ValidChain(T.envs[n.flights[i].src.chain], n.chains[n.flights[i].src.chain])
      && GoodFlight(T, n.chains, n.flights[i])
  {
    assert ChainIsValid(T, n.chains, n.flights[i].src.chain) && FlightIsGood(T, n.chains, n.flights, n.next, i);
  }

  lemma RefundIsReady(T: Topology, n: Network, held: Held, i: nat)
    requires CanRelay(T, n, i) && OneToken(n.flights[i].data) && n.flights[i].status != Acked(AckSuccess)
    requires
      && ValidChain(T.envs[n.flights[i].src.chain], n.chains[n.flights[i].src.chain])
      && GoodFlight(T, n.chains, n.flights[i])
    requires C.Inv(GraphOf(T), ViewOf(n, held)) && HeldAgrees(GraphOf(T), n.flights, held)
    ensures var a := n.flights[i].src.chain;
            && Refunded(T, n, i).Some?
            && Acknowledge(T.envs[a], n.chains[a], PacketOf(T, n.flights[i]), Some(AckFail)) == Refunded(T, n, i)
            && Grows(T.envs[a], n.chains[a], Refunded(T, n, i).value) && Refunds(n, i, Refunded(T, n, i).value)
  {
    HeldIsOwned(T, n, held, i);
    RefundGoesThrough(T, n, i);
  }

  lemma SettleIs(T: Topology, n: Network, i: nat, c': Chain)
    requires CanRelay(T, n, i) && n.flights[i].status != Acked(AckSuccess) && Refunded(T, n, i) == Some(c')
    requires var a := n.flights[i].src.chain;
             Acknowledge(T.envs[a], n.chains[a], PacketOf(T, n.flights[i]), Some(AckFail)) == Some(c')
    ensures var f := n.flights[i];
            var n' := AfterSettle(n, i, c', Retire(T, n, LocOf(f), f.data.sender));
            if f.status == Undelivered then ApplyTimeout(T, n, i) == n' else ApplyAck(T, n, i) == n'
  {
  }

  lemma RefundingSteps(T: Topology, n: Network, held: Held, i: nat, n': Network) returns (step: C.Step, held': Held)
    requires CanRelay(T, n, i) && OneToken(n.flights[i].data) && n.flights[i].status != Acked(AckSuccess)
    requires n' == if n.flights[i].status == Undelivered then ApplyTimeout(T, n, i) else ApplyAck(T, n, i)
    requires NetInv(T, n, held)
    ensures Steps(T, n, held, step, None, n', held')
  {
    step := C.Refunds(LocOf(n.flights[i]));
    held' := held - {LocOf(n.flights[i])};
    OpenPacket(T, n, i);
    RefundIsReady(T, n, held, i);
    SettleIs(T, n, i, Refunded(T, n, i).value);
    RefundSteps(T, n, held, i, Refunded(T, n, i).value);
  }

  /** A success ack, as the source chain sees it. */
  function Burned(T: Topology, n: Network, i: nat): Option<Chain>
    requires CanRelay(T, n, i)
  {
    var f := n.flights[i];
    Acknowledge(T.envs[f.src.chain], n.chains[f.src.chain], PacketOf(T, f), Some(AckSuccess))
  }

  lemma AckIsReady(T: Topology, n: Network, held: Held, i: nat)
    requires InFlight(T, n, i, Acked(AckSuccess))
    requires
      && ValidChain(T.envs[n.flights[i].src.chain], n.chains[n.flights[i].src.chain])
      && GoodFlight(T, n.chains, n.flights[i])
    requires ValidTopology(T) && C.Inv(GraphOf(T), ViewOf(n, held)) && HeldAgrees(GraphOf(T), n.flights, held)
    ensures var f := n.flights[i];
            && Burned(T, n, i).Some?
            && Grows(T.envs[f.src.chain], n.chains[f.src.chain], Burned(T, n, i).value)
            && if C.CameOver(GraphOf(T), f.src, LocOf(f)) then Burns(n, i, Burned(T, n, i).value)
               else Burned(T, n, i).value == n.chains[f.src.chain]
  {
    var returned := C.CameOver(GraphOf(T), n.flights[i].src, LocOf(n.flights[i]));
    BurnsExactlyReturns(T, n, held, i);
    if returned {
      HeldIsOwned(T, n, held, i);
    }
    AckGoesThrough(T, n, i, returned);
  }

  lemma AckIs(T: Topology, n: Network, i: nat, c': Chain)
    requires InFlight(T, n, i, Acked(AckSuccess)) && Burned(T, n, i) == Some(c')
    ensures ApplyAck(T, n, i) == AfterSettle(n, i, c', n.retired)
  {
  }

  lemma SuccessAckSteps(T: Topology, n: Network, held: Held, i: nat) returns (step: C.Step, held': Held)
    requires InFlight(T, n, i, Acked(AckSuccess))
    requires ValidTopology(T) && NetInv(T, n, held)
    ensures Steps(T, n, held, step, None, ApplyAck(T, n, i), held')
  {
    OpenPacket(T, n, i);
    AckIsReady(T, n, held, i);
    AckIs(T, n, i, Burned(T, n, i).value);
    if C.CameOver(GraphOf(T), n.flights[i].src, LocOf(n.flights[i])) {
      BurnSteps(T, n, held, i, Burned(T, n, i).value);
      step, held' := C.BurnsReturned(LocOf(n.flights[i])), held - {LocOf(n.flights[i])};
    } else {
      ForgetSteps(T, n, held, i);
      step, held' := C.Stutter, held;
    }
  }

  // ---------- Any step ----------

  /** A move that is not possible. */
  lemma NoStep(T: Topology, n: Network, held: Held, user: Option<Loc>)
    requires InShape(T, n, held)
    ensures Steps(T, n, held, C.Stutter, user, n, held)
  {
  }

  lemma OwnerMove(T: Topology, n: Network, held: Held, a: ChainId, id: NftId, to: Option<Addr>) returns (step: C.Step)
    requires InShape(T, n, held)
    ensures var act := if to.Some? then Give(a, id, to.value) else Destroy(a, id);
            Steps(T, n, held, step, UserAt(n, a, id), ApplyUser(T, n, act), held)
  {
    UserActions(T, n, a, id, Nft("", None), if to.Some? then to.value else "");
    if UserOwned(T, n, a, id) {
      var nft := if to.Some? then Some(n.chains[a].ledger.nfts[id].(owner := to.value)) else None;
      OwnerSteps(T, n, held, a, id, nft);
      step := C.UserActs(At(a, KeyOf(n.chains[a].s, id)), nft);
    } else {
      NoStep(T, n, held, UserAt(n, a, id));
      step := C.Stutter;
    }
  }

  lemma IssueMove(T: Topology, n: Network, held: Held, a: ChainId, id: NftId, nft: Nft) returns (step: C.Step)
    requires ValidTopology(T) && InShape(T, n, held)
    ensures Steps(T, n, held, step, UserAt(n, a, id), ApplyUser(T, n, Issue(a, id, nft)), held)
  {
    UserActions(T, n, a, id, nft, "");
    if CanIssue(T, n, a, id) {
      MinterSteps(T, n, held, a, id, nft);
      step := C.UserActs(At(a, KeyOf(n.chains[a].s, id)), Some(nft));
    } else {
      NoStep(T, n, held, UserAt(n, a, id));
      step := C.Stutter;
    }
  }

  lemma GovernanceMove(T: Topology, n: Network, held: Held, act: Move)
    requires InShape(T, n, held) && (act.PauseBridge? || act.MigrateBridge?)
    ensures Steps(T, n, held, C.Stutter, None, ApplyGovernance(T, n, act), held)
  {
    GovernanceActs(T, n, act);
    if ApplyGovernance(T, n, act) != n {
      var a := act.chain;
      var po, proxy :| ApplyGovernance(T, n, act) == WithStorage(n, a, n.chains[a].s.(po := po, proxy := proxy));
      SettingsSteps(T, n, held, a, n.chains[a].s.(po := po, proxy := proxy));
    } else {
      NoStep(T, n, held, None);
    }
  }

  /** The committed send of a `SendOut`, if there is one. */
  function SendOutcome(
      T: Topology, n: Network, a: ChainId, id: NftId, actor: Addr, msg: OutgoingMsg): Option<(Chain, Flight)> {
    if a !in n.chains || a !in T.envs || actor == T.envs[a].self || C.End(a, msg.channel) !in T.peer then None
    else
      match UserSend(T.envs[a], n.chains[a], id, actor, msg)
      case None => None
      case Some((c', p)) => Some((c', Flight(C.End(a, msg.channel), p.data, Undelivered)))
  }

  lemma SendMoveIs(T: Topology, n: Network, a: ChainId, id: NftId, actor: Addr, msg: OutgoingMsg)
    ensures match SendOutcome(T, n, a, id, actor, msg)
            case None => ApplySend(T, n, a, id, actor, msg) == n
            case Some((c', f)) =>
              && ApplySend(T, n, a, id, actor, msg) == AfterSend(n, a, c', f)
              && UserSend(T.envs[a], n.chains[a], id, actor, msg) == Some((c', SendPacket(msg.channel, f.data)))
  {
    if SendOutcome(T, n, a, id, actor, msg).Some? {
      UserSendIsSendNft(T.envs[a], n.chains[a], id, actor, msg);
    }
  }

  lemma SendMove(
      T: Topology, n: Network, held: Held, a: ChainId, id: NftId, actor: Addr, msg: OutgoingMsg)
    returns (step: C.Step, held': Held)
    requires NetInv(T, n, held)
    ensures Steps(T, n, held, step, UserAt(n, a, id), ApplySend(T, n, a, id, actor, msg), held')
  {
    SendMoveIs(T, n, a, id, actor, msg);
    match SendOutcome(T, n, a, id, actor, msg) {
      case None =>
        NoStep(T, n, held, UserAt(n, a, id));
        step, held' := C.Stutter, held;
      case Some((c', f)) =>
        SendSteps(T, n, held, a, id, actor, msg, c', f);
        step, held' := C.Sends(n.next, f.src, LocOf(f), f.data.sender), held[LocOf(f) := HoldOf(n.next, f)];
    }
  }

  /** Packets that are not open, or not in the right stage, are left alone. */
  lemma NoPacketNoMove(T: Topology, n: Network, i: nat, newAddr: Addr)
    ensures !CanRelay(T, n, i) || n.flights[i].status != Undelivered ==>
              ApplyRelay(T, n, i, newAddr) == n && ApplyTimeout(T, n, i) == n
    ensures !CanRelay(T, n, i) || n.flights[i].status == Undelivered ==> ApplyAck(T, n, i) == n
  {
  }

  lemma RelayMove(T: Topology, n: Network, held: Held, i: nat, newAddr: Addr) returns (step: C.Step, held': Held)
    requires ValidTopology(T) && NetInv(T, n, held)
    ensures Steps(T, n, held, step, None, ApplyRelay(T, n, i, newAddr), held')
  {
    NoPacketNoMove(T, n, i, newAddr);
    if CanRelay(T, n, i) && n.flights[i].status == Undelivered {
      assert FlightIsGood(T, n.chains, n.flights, n.next, i);
      step, held' := RelaySteps(T, n, held, i, newAddr);
    } else {
      NoStep(T, n, held, None);
      step, held' := C.Stutter, held;
    }
  }

  lemma TimeoutMove(T: Topology, n: Network, held: Held, i: nat) returns (step: C.Step, held': Held)
    requires ValidTopology(T) && NetInv(T, n, held)
    ensures Steps(T, n, held, step, None, ApplyTimeout(T, n, i), held')
  {
    NoPacketNoMove(T, n, i, "");
    if CanRelay(T, n, i) && n.flights[i].status == Undelivered {
      assert FlightIsGood(T, n.chains, n.flights, n.next, i);
      step, held' := RefundingSteps(T, n, held, i, ApplyTimeout(T, n, i));
    } else {
      NoStep(T, n, held, None);
      step, held' := C.Stutter, held;
    }
  }

  lemma AckMove(T: Topology, n: Network, held: Held, i: nat) returns (step: C.Step, held': Held)
    requires ValidTopology(T) && NetInv(T, n, held)
    ensures Steps(T, n, held, step, None, ApplyAck(T, n, i), held')
  {
    NoPacketNoMove(T, n, i, "");
    if CanRelay(T, n, i) && n.flights[i].status.Acked? {
      step, held' := AckedMove(T, n, held, i);
    } else {
      NoStep(T, n, held, None);
      step, held' := C.Stutter, held;
    }
  }

  lemma AckedMove(T: Topology, n: Network, held: Held, i: nat) returns (step: C.Step, held': Held)
    requires CanRelay(T, n, i) && n.flights[i].status.Acked?
    requires ValidTopology(T) && NetInv(T, n, held)
    ensures Steps(T, n, held, step, None, ApplyAck(T, n, i), held')
  {
    assert FlightIsGood(T, n.chains, n.flights, n.next, i);
    match n.flights[i].status.ack {
      case AckSuccess => step, held' := SuccessAckSteps(T, n, held, i);
      case AckFail => step, held' := RefundingSteps(T, n, held, i, ApplyAck(T, n, i));
    }
  }

  lemma ApplyIs(T: Topology, n: Network, act: Move)
    ensures match act
            case SendOut(a, id, actor, msg) => Apply(T, n, act) == ApplySend(T, n, a, id, actor, msg)
            case Relay(i, newAddr) => Apply(T, n, act) == ApplyRelay(T, n, i, newAddr)
            case RelayAck(i) => Apply(T, n, act) == ApplyAck(T, n, i)
            case RelayTimeout(i) => Apply(T, n, act) == ApplyTimeout(T, n, i)
            case PauseBridge(_, _) => Apply(T, n, act) == ApplyGovernance(T, n, act)
            case MigrateBridge(_, _, _) => Apply(T, n, act) == ApplyGovernance(T, n, act)
            case _ => Apply(T, n, act) == ApplyUser(T, n, act)
  {
  }

  lemma UserMove(T: Topology, n: Network, held: Held, act: Move) returns (step: C.Step)
    requires act.Give? || act.Destroy? || act.Issue? || act.Found?
    requires ValidTopology(T) && InShape(T, n, held)
    ensures Steps(T, n, held, step, UserLoc(n, act), ApplyUser(T, n, act), held)
  {
    UserLocIs(n, act);
    match act {
      case Give(a, id, to) => step := OwnerMove(T, n, held, a, id, Some(to));
      case Destroy(a, id) => step := OwnerMove(T, n, held, a, id, None);
      case Issue(a, id, nft) => step := IssueMove(T, n, held, a, id, nft);
      case Found(a, contract, collection) =>
        step := C.Stutter;
        FoundSteps(T, n, held, a, contract, collection);
    }
  }

  lemma LocalMove(T: Topology, n: Network, held: Held, act: Move) returns (step: C.Step)
    requires !act.SendOut? && !act.Relay? && !act.RelayAck? && !act.RelayTimeout?
    requires ValidTopology(T) && InShape(T, n, held)
    ensures Steps(T, n, held, step, UserLoc(n, act), Apply(T, n, act), held)
  {
    ApplyIs(T, n, act);
    UserLocIs(n, act);
    if act.PauseBridge? || act.MigrateBridge? {
      step := C.Stutter;
      GovernanceMove(T, n, held, act);
    } else {
      step := UserMove(T, n, held, act);
    }
  }

  lemma PacketMove(T: Topology, n: Network, held: Held, act: Move) returns (step: C.Step, held': Held)
    requires act.Relay? || act.RelayAck? || act.RelayTimeout?
    requires ValidTopology(T) && NetInv(T, n, held)
    ensures Steps(T, n, held, step, UserLoc(n, act), Apply(T, n, act), held')
  {
    ApplyIs(T, n, act);
    UserLocIs(n, act);
    if act.Relay? {
      step, held' := RelayMove(T, n, held, act.packet, act.newAddr);
    } else if act.RelayAck? {
      step, held' := AckMove(T, n, held, act.packet);
    } else {
      step, held' := TimeoutMove(T, n, held, act.packet);
    }
  }

  lemma SendOutMove(T: Topology, n: Network, held: Held, act: Move) returns (step: C.Step, held': Held)
    requires act.SendOut? && NetInv(T, n, held)
    ensures Steps(T, n, held, step, UserLoc(n, act), Apply(T, n, act), held')
  {
    ApplyIs(T, n, act);
    UserLocIs(n, act);
    step, held' := SendMove(T, n, held, act.chain, act.id, act.actor, act.msg);
  }

  /** Every move of the network is a step of the custody protocol. */
  lemma MoveIsStep(T: Topology, n: Network, held: Held, act: Move) returns (step: C.Step, held': Held)
    requires ValidTopology(T) && NetInv(T, n, held)
    ensures Steps(T, n, held, step, UserLoc(n, act), Apply(T, n, act), held')
  {
    if act.SendOut? {
      step, held' := SendOutMove(T, n, held, act);
    } else if act.Relay? || act.RelayAck? || act.RelayTimeout? {
      step, held' := PacketMove(T, n, held, act);
    } else {
      held' := held;
      step := LocalMove(T, n, held, act);
    }
  }

  lemma StepsKeepInv(T: Topology, n: Network, held: Held, step: C.Step, user: Option<Loc>, n': Network, held': Held)
    requires ValidTopology(T) && NetInv(T, n, held) && Steps(T, n, held, step, user, n', held')
    ensures NetInv(T, n', held')
  {
    GraphIsValid(T);
    C.StepKeepsInv(GraphOf(T), ViewOf(n, held), step);
  }

  // ---------- Whole runs ----------

  predicate BlankStorage(s: Storage) {
    && s.classToNft == map[] && s.nftToClass == map[] && s.classes == map[]
    && s.outgoing == map[] && s.incoming == map[] && s.metadata == map[]
  }

  lemma GenesisIsBlank(T: Topology, n: Network, a: ChainId)
    requires Genesis(T, n) && a in n.chains
    ensures BlankStorage(n.chains[a].s)
  {
    var pauser :| Instantiated(T.envs[a], pauser) == Success(n.chains[a].s.(proxy := None));
  }

  lemma BlankChain(env: Env, c: Chain)
    requires BlankStorage(c.s) && ValidLedger(c.ledger) && env.self !in c.ledger.collections
    ensures ValidChain(env, c)
    ensures forall k :: NftAt(c, k).Some? ==> SlashFree(k.classId) && NftId(k.classId, k.tokenId) in c.ledger.nfts
    ensures forall k :: NftAt(c, k).Some? ==> NftAt(c, k).value == c.ledger.nfts[NftId(k.classId, k.tokenId)]
  {
  }

  lemma GenesisChain(T: Topology, n: Network, a: ChainId)
    requires Genesis(T, n) && a in n.chains
    ensures ValidChain(T.envs[a], n.chains[a])
    ensures forall k :: NftAt(n.chains[a], k).Some? ==>
              SlashFree(k.classId) && NftAt(n.chains[a], k).value.owner != T.envs[a].self
    ensures n.chains[a].s.outgoing == map[] && n.chains[a].s.incoming == map[] && n.chains[a].s.metadata == map[]
  {
    GenesisIsBlank(T, n, a);
    BlankChain(T.envs[a], n.chains[a]);
  }

  lemma GenesisMaps(T: Topology, n: Network)
    requires Genesis(T, n)
    ensures var v := ViewOf(n, imap[]); v.outgoing == imap[] && v.incoming == imap[] && v.metadata == imap[]
  {
    forall a | a in n.chains
      ensures n.chains[a].s.outgoing == map[] && n.chains[a].s.incoming == map[] && n.chains[a].s.metadata == map[]
    {
      GenesisIsBlank(T, n, a);
    }
  }

  lemma GenesisNft(T: Topology, n: Network, l: Loc)
    requires ValidTopology(T) && Genesis(T, n) && l in ViewOf(n, imap[]).nfts
    ensures C.Native(GraphOf(T), l) && !C.Locked(GraphOf(T), ViewOf(n, imap[]).nfts, l)
  {
    NftIs(n, imap[], l.chain, KeyAt(l));
    GenesisChain(T, n, l.chain);
    NativeLoc(T, l);
  }

  lemma GenesisView(T: Topology, n: Network)
    requires ValidTopology(T) && Genesis(T, n)
    ensures var v := ViewOf(n, imap[]);
            && v.outgoing == imap[] && v.incoming == imap[] && v.metadata == imap[]
            && forall l | l in v.nfts :: C.Native(GraphOf(T), l) && !C.Locked(GraphOf(T), v.nfts, l)
  {
    GenesisMaps(T, n);
    forall l | l in ViewOf(n, imap[]).nfts
      ensures C.Native(GraphOf(T), l) && !C.Locked(GraphOf(T), ViewOf(n, imap[]).nfts, l)
    {
      GenesisNft(T, n, l);
    }
  }

  lemma EmptyInv(G: C.Graph, v: C.View)
    requires v.outgoing == imap[] && v.incoming == imap[] && v.metadata == imap[] && v.held == imap[]
    requires forall l | l in v.nfts :: C.Native(G, l) && !C.Locked(G, v.nfts, l)
    ensures C.Inv(G, v)
  {
  }

  lemma GenesisInv(T: Topology, n: Network)
    requires ValidTopology(T) && Genesis(T, n)
    ensures NetInv(T, n, imap[])
  {
    GenesisView(T, n);
    EmptyInv(GraphOf(T), ViewOf(n, imap[]));
    forall a | a in n.chains ensures ChainIsValid(T, n.chains, a) {
      GenesisChain(T, n, a);
    }
  }

  /** Whatever users, relayers, pausers and governance do, in whatever order, the custody invariant holds. */
  lemma {:induction false} ReachableInv(T: Topology, n: Network, acts: seq<Move>) returns (held: Held)
    requires ValidTopology(T) && Genesis(T, n)
    ensures NetInv(T, ApplyAll(T, n, acts), held)
  {
    if acts == [] {
      held := imap[];
      GenesisInv(T, n);
    } else {
      var m := ApplyAll(T, n, acts[..|acts| - 1]);
      var before := ReachableInv(T, n, acts[..|acts| - 1]);
      var step;
      step, held := MoveIsStep(T, m, before, acts[|acts| - 1]);
      StepsKeepInv(T, m, before, step, UserLoc(m, acts[|acts| - 1]), ApplyAll(T, n, acts), held);
    }
  }
}
