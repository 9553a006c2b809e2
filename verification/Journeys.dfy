/**
 Journeys of an NFT: out along any path and back, while users, relayers, pausers and governance do what
 they like with everything else.
 */
module Journeys {
  import opened Types
  import opened ClassIds
  import opened Handlers
  import opened Cw721
  import opened Chain
  import opened Effects
  import opened Network
  import opened Views
  import opened Simulation
  import opened Reachable
  import opened Settlement
  import opened Guarantees
  import opened Undo
  import C = Custody
  import Claims

  // ---------- The token and its packets ----------

  /** A user has the NFT at `l`. */
  predicate HasNft(T: Topology, n: Network, l: Loc, nft: Nft) {
    && l.chain in n.chains && l.chain in T.envs && NftAt(n.chains[l.chain], KeyAt(l)) == Some(nft)
    && nft.owner != T.envs[l.chain].self && T.envs[l.chain].valid(nft.owner)
  }

  predicate CanReceive(T: Topology, a: ChainId, receiver: Addr) {
    a in T.envs && T.envs[a].valid(receiver) && receiver != T.envs[a].self
  }

  /** The packet takes a voucher back by the channel end it came in on. */
  ghost predicate IsReturn(T: Topology, f: Flight) {
    |f.data.tokenIds| == 1 && Popped(T, f.src, LocOf(f)).Some?
  }

  /** None of these vouchers is in an open packet on its way back. */
  ghost predicate NoReturns(T: Topology, flights: map<nat, Flight>, cs: set<Loc>) {
    forall j | j in flights && IsReturn(T, flights[j]) :: LocOf(flights[j]) !in cs
  }

  /** Other places of the NFT at `l`, or of its vouchers. */
  ghost predicate Kin(T: Topology, l: Loc, cs: set<Loc>)
    requires ValidTopology(T)
  {
    l !in cs && forall c | c in cs :: Origin(T, c) == Origin(T, l)
  }

  // ---------- Moves on the side ----------

  predicate IsAbout(act: Move, i: nat) {
    (act.Relay? || act.RelayAck? || act.RelayTimeout?) && act.packet == i
  }

  /** A move about another packet leaves a packet as it is. */
  lemma PacketStays(T: Topology, n: Network, act: Move, i: nat)
    requires i in n.flights && i < n.next && !IsAbout(act, i)
    ensures i in Apply(T, n, act).flights && Apply(T, n, act).flights[i] == n.flights[i]
  {
    ApplyIs(T, n, act);
  }

  /** Where a new packet comes from: a user sent an NFT that was the user's. */
  lemma NewPacket(T: Topology, n: Network, held: Held, act: Move, j: nat)
    requires j in Apply(T, n, act).flights && j !in n.flights
    requires ChainsAreValid(T, n.chains)
    ensures var f := Apply(T, n, act).flights[j];
            && OneToken(f.data) && UserLoc(n, act) == Some(LocOf(f))
            && LocOf(f) in ViewOf(n, held).nfts && !C.Locked(GraphOf(T), ViewOf(n, held).nfts, LocOf(f))
  {
    ApplyIs(T, n, act);
    assert act.SendOut?;
    var a := act.chain;
    SendMoveIs(T, n, a, act.id, act.actor, act.msg);
    assert ChainIsValid(T, n.chains, a);
    SendFlight(T.envs[a], n.chains[a], a, act.id, act.actor, act.msg, n.next);
    UserSendEffect(T.envs[a], n.chains[a], act.id, act.actor, act.msg);
    UserLocIs(n, act);
    NftIs(n, held, a, KeyOf(n.chains[a].s, act.id));
  }

  /** An open packet was open before, about the same token, or is new. */
  lemma OldPacket(T: Topology, n: Network, act: Move, j: nat)
    requires FlightsAreGood(T, n) && j in Apply(T, n, act).flights && j in n.flights
    ensures Apply(T, n, act).flights[j].data == n.flights[j].data && Apply(T, n, act).flights[j].src == n.flights[j].src
  {
    assert FlightIsGood(T, n.chains, n.flights, n.next, j);
    FlightPersists(T, n, act, j);
  }

  /** The claim on a token is the only one: a free NFT of the same origin is the same NFT. */
  lemma OnlyClaim(T: Topology, v: C.View, l: Loc, k: Loc)
    requires ValidTopology(T) && Origin(T, k) == Origin(T, l)
    requires Claims.IsClaim(GraphOf(T), v, l) && k in v.nfts && !C.Locked(GraphOf(T), v.nfts, k)
    requires C.Inv(GraphOf(T), v)
    ensures k == l
  {
    GraphIsValid(T);
    Claims.AtMostOneClaim(GraphOf(T), v, l, k);
  }

  /** While someone holds the claim, no packet takes another place of the token back. */
  lemma NoNewReturn(T: Topology, n: Network, held: Held, act: Move, l: Loc, cs: set<Loc>)
    requires ValidTopology(T) && Kin(T, l, cs) && NoReturns(T, n.flights, cs)
    requires Claims.IsClaim(GraphOf(T), ViewOf(n, held), l)
    requires NetInv(T, n, held)
    ensures NoReturns(T, Apply(T, n, act).flights, cs)
  {
    var flights := Apply(T, n, act).flights;
    forall j | j in flights && IsReturn(T, flights[j]) ensures LocOf(flights[j]) !in cs {
      if j in n.flights {
        OldPacket(T, n, act, j);
        assert IsReturn(T, n.flights[j]);
      } else {
        NewPacket(T, n, held, act, j);
        if LocOf(flights[j]) in cs {
          OnlyClaim(T, ViewOf(n, held), l, LocOf(flights[j]));
        }
      }
    }
  }

  lemma HasNftView(T: Topology, n: Network, held: Held, l: Loc, nft: Nft)
    requires l.chain in n.chains && l.chain in T.envs
    ensures NftAt(n.chains[l.chain], KeyAt(l)) == Some(nft) <==>
              && l in ViewOf(n, held).nfts
              && ViewOf(n, held).nfts[l] == nft
    ensures HasNft(T, n, l, nft) ==> !C.Locked(GraphOf(T), ViewOf(n, held).nfts, l)
  {
    NftIs(n, held, l.chain, KeyAt(l));
    LockedIs(GraphOf(T), ViewOf(n, held).nfts, l);
  }

  lemma FreeStays(
      T: Topology, n: Network, held: Held, step: C.Step, user: Option<Loc>, n': Network, held': Held, l: Loc, nft: Nft)
    requires HasNft(T, n, l, nft) && user != Some(l) && Steps(T, n, held, step, user, n', held') && l.chain in n'.chains
    requires ValidTopology(T) && C.Inv(GraphOf(T), ViewOf(n, held))
    ensures HasNft(T, n', l, nft)
  {
    HasNftView(T, n, held, l, nft);
    HasNftView(T, n', held', l, nft);
    GraphIsValid(T);
    FreeInView(GraphOf(T), ViewOf(n, held), step, user, l);
  }

  lemma FreeInView(G: C.Graph, v: C.View, step: C.Step, user: Option<Loc>, l: Loc)
    requires
      && l in v.nfts
      && !C.Locked(G, v.nfts, l)
      && user != Some(l)
      && (step.UserActs? || step.Sends? ==> user == Some(step.l))
    requires C.ValidGraph(G) && C.Enabled(G, v, step) && C.Inv(G, v)
    ensures var v' := C.Do(G, v, step); l in v'.nfts && v'.nfts[l] == v.nfts[l]
  {
    C.FreedomFreezes(G, v, step, l);
  }

  lemma SameChains(T: Topology, n: Network, n': Network)
    requires ChainsAreValid(T, n.chains) && ChainsAreValid(T, n'.chains)
    ensures n'.chains.Keys == n.chains.Keys
  {
  }

  /** A move that does not act on a user's NFT leaves it with its owner. */
  lemma RestStep(T: Topology, n: Network, held: Held, act: Move, l: Loc, nft: Nft, cs: set<Loc>) returns (held': Held)
    requires HasNft(T, n, l, nft) && UserLoc(n, act) != Some(l)
    requires ValidTopology(T) && Kin(T, l, cs) && NoReturns(T, n.flights, cs) && NetInv(T, n, held)
    ensures HasNft(T, Apply(T, n, act), l, nft)
    ensures NoReturns(T, Apply(T, n, act).flights, cs) && NetInv(T, Apply(T, n, act), held')
  {
    var step;
    step, held' := MoveIsStep(T, n, held, act);
    SameChains(T, n, Apply(T, n, act));
    FreeStays(T, n, held, step, UserLoc(n, act), Apply(T, n, act), held', l, nft);
    HasNftView(T, n, held, l, nft);
    NoNewReturn(T, n, held, act, l, cs);
    StepsKeepInv(T, n, held, step, UserLoc(n, act), Apply(T, n, act), held');
  }

  /** None of the moves acts on the NFT at `l`. */
  predicate Spare(T: Topology, n: Network, acts: seq<Move>, l: Loc) {
    acts != [] ==>
      var init, act := acts[..|acts| - 1], acts[|acts| - 1];
      Spare(T, n, init, l) && UserLoc(ApplyAll(T, n, init), act) != Some(l)
  }

  lemma {:induction false} RestRun(T: Topology, n: Network, held: Held, acts: seq<Move>, l: Loc, nft: Nft, cs: set<Loc>)
    returns (held': Held)
    requires HasNft(T, n, l, nft) && Spare(T, n, acts, l)
    requires ValidTopology(T) && Kin(T, l, cs) && NoReturns(T, n.flights, cs) && NetInv(T, n, held)
    ensures HasNft(T, ApplyAll(T, n, acts), l, nft)
    ensures NoReturns(T, ApplyAll(T, n, acts).flights, cs) && NetInv(T, ApplyAll(T, n, acts), held')
  {
    if acts == [] {
      held' := held;
    } else {
      var init, act := acts[..|acts| - 1], acts[|acts| - 1];
      held' := RestRun(T, n, held, init, l, nft, cs);
      held' := RestStep(T, ApplyAll(T, n, init), held', act, l, nft, cs);
    }
  }

  /** A move that is not about a pending packet leaves it as it is. */
  lemma FlyStep(T: Topology, n: Network, held: Held, act: Move, i: nat, cs: set<Loc>) returns (held': Held)
    requires Pending(n, i) && OneToken(n.flights[i].data) && !IsAbout(act, i)
    requires ValidTopology(T) && Kin(T, LocOf(n.flights[i]), cs) && NoReturns(T, n.flights, cs) && NetInv(T, n, held)
    ensures i in Apply(T, n, act).flights && Apply(T, n, act).flights[i] == n.flights[i]
    ensures NoReturns(T, Apply(T, n, act).flights, cs) && NetInv(T, Apply(T, n, act), held')
  {
    var step;
    step, held' := MoveIsStep(T, n, held, act);
    assert FlightIsGood(T, n.chains, n.flights, n.next, i);
    PacketStays(T, n, act, i);
    PendingIsHeld(GraphOf(T), n, held, i);
    NoNewReturn(T, n, held, act, LocOf(n.flights[i]), cs);
    StepsKeepInv(T, n, held, step, UserLoc(n, act), Apply(T, n, act), held');
  }

  lemma {:induction false} FlyRun(
      T: Topology, n: Network, held: Held, acts: seq<Move>, i: nat, cs: set<Loc>)
    returns (held': Held)
    requires Pending(n, i) && OneToken(n.flights[i].data) && forall act | act in acts :: !IsAbout(act, i)
    requires ValidTopology(T) && Kin(T, LocOf(n.flights[i]), cs) && NoReturns(T, n.flights, cs) && NetInv(T, n, held)
    ensures i in ApplyAll(T, n, acts).flights && ApplyAll(T, n, acts).flights[i] == n.flights[i]
    ensures NoReturns(T, ApplyAll(T, n, acts).flights, cs) && NetInv(T, ApplyAll(T, n, acts), held')
  {
    if acts == [] {
      held' := held;
    } else {
      var init, act := acts[..|acts| - 1], acts[|acts| - 1];
      held' := FlyRun(T, n, held, init, i, cs);
      assert act in acts;
      held' := FlyStep(T, ApplyAll(T, n, init), held', act, i, cs);
    }
  }

  // ---------- Sending ----------

  function IdAt(n: Network, l: Loc): NftId {
    if l.chain in n.chains && ContractOf(n.chains[l.chain].s, l.classId).Some?
    then NftId(ContractOf(n.chains[l.chain].s, l.classId).value, l.tokenId) else NftId("", "")
  }

  function OwnerAt(n: Network, l: Loc): Addr {
    if l.chain in n.chains && NftAt(n.chains[l.chain], KeyAt(l)).Some?
    then NftAt(n.chains[l.chain], KeyAt(l)).value.owner
    else ""
  }

  /** The owner sends the NFT at `l` out by `e`. */
  function Sending(n: Network, l: Loc, e: End, receiver: Addr): Move {
    SendOut(l.chain, IdAt(n, l), OwnerAt(n, l), OutgoingMsg(receiver, e.channel))
  }

  /** The bridge is not paused, and its proxy, if it has one, can forward the contract's tokens. */
  predicate CanSendFrom(T: Topology, n: Network, l: Loc) {
    && l.chain in n.chains && l.chain in T.envs && !n.chains[l.chain].s.po.paused
    && (n.chains[l.chain].s.proxy.None? || T.envs[l.chain].valid(IdAt(n, l).contract))
  }

  lemma IdAtIs(env: Env, n: Network, l: Loc)
    requires l.chain in n.chains && ValidChain(env, n.chains[l.chain]) && NftAt(n.chains[l.chain], KeyAt(l)).Some?
    ensures var c := n.chains[l.chain];
            && IdAt(n, l) in c.ledger.nfts && c.ledger.nfts[IdAt(n, l)] == NftAt(c, KeyAt(l)).value
            && KeyOf(c.s, IdAt(n, l)) == KeyAt(l)
  {
    var c := n.chains[l.chain];
    KeyOfContract(env, c, IdAt(n, l));
    ContractsDiffer(env, c.s, l.classId, ClassOf(c.s, IdAt(n, l).contract));
  }

  /** The packet that a send puts on the wire. */
  ghost predicate IsSent(T: Topology, n: Network, i: nat, l: Loc, e: End, nft: Nft, receiver: Addr) {
    && InFlight(T, n, i, Undelivered) && n.flights[i].src == e && LocOf(n.flights[i]) == l
    && n.flights[i].data.receiver == receiver && TokenOf(n.flights[i].data).uri == nft.uri
  }

  /** The send of an owner is a committed send. */
  lemma SendGoesThrough(T: Topology, n: Network, l: Loc, e: End, nft: Nft, receiver: Addr)
    requires HasNft(T, n, l, nft) && e in T.peer && e.chain == l.chain && CanSendFrom(T, n, l)
    requires ValidChain(T.envs[l.chain], n.chains[l.chain])
    ensures var o := SendOutcome(T, n, l.chain, IdAt(n, l), nft.owner, OutgoingMsg(receiver, e.channel));
            && o.Some? && o.value.1.src == e && o.value.1.status == Undelivered
            && UserSend(T.envs[l.chain], n.chains[l.chain], IdAt(n, l), nft.owner, OutgoingMsg(receiver, e.channel))
               == Some((o.value.0, SendPacket(e.channel, o.value.1.data)))
            && Apply(T, n, Sending(n, l, e, receiver)) == AfterSend(n, l.chain, o.value.0, o.value.1)
  {
    var msg := OutgoingMsg(receiver, e.channel);
    IdAtIs(T.envs[l.chain], n, l);
    OwnerCanSend(T.envs[l.chain], n.chains[l.chain], IdAt(n, l), nft.owner, msg);
    SendMoveIs(T, n, l.chain, IdAt(n, l), nft.owner, msg);
    ApplyIs(T, n, Sending(n, l, e, receiver));
  }

  /** What the packet of a send holds. */
  lemma SentHolds(T: Topology, n: Network, l: Loc, e: End, nft: Nft, receiver: Addr, c': Chain, data: PacketData)
    requires HasNft(T, n, l, nft) && e.chain == l.chain && ValidChain(T.envs[l.chain], n.chains[l.chain])
    requires UserSend(T.envs[l.chain], n.chains[l.chain], IdAt(n, l), nft.owner, OutgoingMsg(receiver, e.channel))
             == Some((c', SendPacket(e.channel, data)))
    ensures var f := Flight(e, data, Undelivered);
            && OneToken(data) && LocOf(f) == l && data.receiver == receiver && TokenOf(data).uri == nft.uri
  {
    var env, c, msg := T.envs[l.chain], n.chains[l.chain], OutgoingMsg(receiver, e.channel);
    IdAtIs(env, n, l);
    UserSendStorage(env, c, IdAt(n, l), nft.owner, msg);
    SendFlight(env, c, l.chain, IdAt(n, l), nft.owner, msg, n.next);
  }

  lemma SentIsOpen(
      T: Topology, n: Network, n': Network, a: ChainId, c': Chain, f: Flight, l: Loc, e: End, nft: Nft, receiver: Addr)
    requires
      && n' == AfterSend(n, a, c', f)
      && f.src == e
      && OneToken(f.data)
      && LocOf(f) == l
      && f.data.receiver == receiver
    requires TokenOf(f.data).uri == nft.uri && f.status == Undelivered && ValidTopology(T)
    requires ChainsAreValid(T, n'.chains) && FlightsAreGood(T, n')
    ensures n.next in n'.flights && IsSent(T, n', n.next, l, e, nft, receiver)
  {
    CanBeRelayed(T, n', n.next);
  }

  lemma SentNoReturn(T: Topology, flights: map<nat, Flight>, cs: set<Loc>, i: nat, f: Flight)
    requires NoReturns(T, flights, cs) && OneToken(f.data) && LocOf(f) !in cs
    ensures NoReturns(T, flights[i := f], cs)
  {
  }

  /** From a user's hands into a packet. */
  lemma SendHop(
      T: Topology, n: Network, held: Held, l: Loc, e: End, nft: Nft, receiver: Addr, cs: set<Loc>)
    returns (held': Held)
    requires HasNft(T, n, l, nft) && e in T.peer && e.chain == l.chain && CanSendFrom(T, n, l)
    requires ValidTopology(T) && Kin(T, l, cs) && NoReturns(T, n.flights, cs) && NetInv(T, n, held)
    ensures var n' := Apply(T, n, Sending(n, l, e, receiver));
            && IsSent(T, n', n.next, l, e, nft, receiver) && n.next in n'.flights
            && NoReturns(T, n'.flights, cs) && NetInv(T, n', held')
  {
    var n' := Apply(T, n, Sending(n, l, e, receiver));
    assert ChainIsValid(T, n.chains, l.chain);
    SendGoesThrough(T, n, l, e, nft, receiver);
    var (c', f) := SendOutcome(T, n, l.chain, IdAt(n, l), nft.owner, OutgoingMsg(receiver, e.channel)).value;
    SentHolds(T, n, l, e, nft, receiver, c', f.data);
    var step;
    step, held' := MoveIsStep(T, n, held, Sending(n, l, e, receiver));
    StepsKeepInv(T, n, held, step, UserLoc(n, Sending(n, l, e, receiver)), n', held');
    SentIsOpen(T, n, n', l.chain, c', f, l, e, nft, receiver);
    SentNoReturn(T, n.flights, cs, n.next, f);
  }

  // ---------- Where a hop lands ----------

  /** The voucher that `l` becomes when it leaves by `e`. */
  function VoucherOf(T: Topology, e: End, l: Loc): Loc
    requires e in T.peer
  {
    C.Loc(T.peer[e].chain, EndpointPrefix(EndpointOf(T, T.peer[e])) + l.classId, l.tokenId)
  }

  /**
   What the receiver gets: what the voucher `l` stands for, if it goes back where it came from, or a voucher
   for `l`.
   */
  function Landing(T: Topology, e: End, l: Loc): Loc
    requires e in T.peer
  {
    var home := Popped(T, e, l);
    if home.Some? then C.Loc(T.peer[e].chain, home.value, l.tokenId) else VoucherOf(T, e, l)
  }

  lemma VoucherPops(T: Topology, e: End, l: Loc)
    requires ValidTopology(T) && e in T.peer && e.chain == l.chain
    ensures var c := VoucherOf(T, e, l);
            && Popped(T, T.peer[e], c) == Some(l.classId) && C.Voucher(GraphOf(T), e, l) == c
            && C.Edge(GraphOf(T), T.peer[e], c, l)
            && forall f | f in T.peer && f.chain == c.chain && f != T.peer[e] :: Popped(T, f, c).None?
  {
    var c := VoucherOf(T, e, l);
    PopIsInverse(EndpointOf(T, T.peer[e]), c.classId, l.classId);
    forall f | f in T.peer && f.chain == c.chain && f != T.peer[e] ensures Popped(T, f, c).None? {
      if Popped(T, f, c).Some? {
        PopIsUnique(EndpointOf(T, f), EndpointOf(T, T.peer[e]), c.classId);
      }
    }
  }

  lemma LandingKeepsOrigin(T: Topology, e: End, l: Loc)
    requires ValidTopology(T) && e in T.peer && e.chain == l.chain
    ensures Origin(T, Landing(T, e, l)) == Origin(T, l)
  {
    GraphIsValid(T);
    if Popped(T, e, l).Some? {
      Claims.OneUp(GraphOf(T), e, l, Landing(T, e, l));
    } else {
      VoucherPops(T, e, l);
      Claims.OneUp(GraphOf(T), T.peer[e], Landing(T, e, l), l);
    }
  }

  lemma LandingIs(T: Topology, f: Flight)
    requires f.src in T.peer && OneToken(f.data)
    ensures var r := PacketRoute(PacketOf(T, f));
            && r.local == Popped(T, f.src, LocOf(f))
            && Landing(T, f.src, LocOf(f)) ==
                 At(T.peer[f.src].chain, if r.local.Some? then HomeKey(T, f) else VoucherKey(T, f))
  {
  }

  // ---------- Relaying ----------

  lemma NotDead(T: Topology, flights: map<nat, Flight>, held: Held, c: Loc, cs: set<Loc>)
    requires NoReturns(T, flights, cs) && c in cs && HeldAgrees(GraphOf(T), flights, held)
    ensures !C.Dead(held, c)
  {
    if C.Dead(held, c) {
      var j := DeadIsFlight(GraphOf(T), flights, held, c);
      assert IsReturn(T, flights[j]);
    }
  }

  /** No voucher is left from an earlier trip. */
  lemma NothingLeftOver(T: Topology, n: Network, held: Held, i: nat, cs: set<Loc>)
    requires InFlight(T, n, i, Undelivered) && At(T.peer[n.flights[i].src].chain, VoucherKey(T, n.flights[i])) in cs
    requires ValidTopology(T) && NoReturns(T, n.flights, cs) && NetInv(T, n, held)
    ensures NftAt(n.chains[T.peer[n.flights[i].src].chain], VoucherKey(T, n.flights[i])) == None
  {
    var f := n.flights[i];
    NotDead(T, n.flights, held, At(T.peer[f.src].chain, VoucherKey(T, f)), cs);
    if NftAt(n.chains[T.peer[f.src].chain], VoucherKey(T, f)).Some? {
      LeftoverIsDead(T, n, held, i);
    }
  }

  /** The NFT landed, and its packet awaits its success ack. */
  ghost predicate IsDelivered(T: Topology, n: Network, i: nat, f: Flight, nft: Nft) {
    && InFlight(T, n, i, Acked(AckSuccess)) && n.flights[i] == f.(status := Acked(AckSuccess)) && f.src in T.peer
    && HasNft(T, n, Landing(T, f.src, LocOf(f)), nft)
  }

  lemma CreationLands(T: Topology, n: Network, i: nat, c': Chain)
    requires
      && InFlight(T, n, i, Undelivered)
      && CreatesAt(T, n, i, c')
      && PacketRoute(PacketOf(T, n.flights[i])).local.None?
    requires CanReceive(T, T.peer[n.flights[i].src].chain, n.flights[i].data.receiver)
    ensures var f := n.flights[i];
            IsDelivered(T, AfterCreate(T, n, i, c'), i, f, Nft(f.data.receiver, TokenOf(f.data).uri))
  {
    LandingIs(T, n.flights[i]);
  }

  lemma RedemptionLands(T: Topology, n: Network, i: nat, c': Chain)
    requires InFlight(T, n, i, Undelivered) && PacketRoute(PacketOf(T, n.flights[i])).local.Some?
    requires Redeems(T, n, i, HomeKey(T, n.flights[i]), c')
    requires CanReceive(T, T.peer[n.flights[i].src].chain, n.flights[i].data.receiver)
    requires NftAt(n.chains[T.peer[n.flights[i].src].chain], HomeKey(T, n.flights[i])).value.uri ==
               TokenOf(n.flights[i].data).uri
    ensures var f := n.flights[i];
            IsDelivered(T, AfterRedeem(T, n, i, c'), i, f, Nft(f.data.receiver, TokenOf(f.data).uri))
  {
    LandingIs(T, n.flights[i]);
  }

  lemma OutDelivers(T: Topology, n: Network, held: Held, i: nat, newAddr: Addr, cs: set<Loc>)
    requires InFlight(T, n, i, Undelivered) && PacketRoute(PacketOf(T, n.flights[i])).local.None? && Welcomes(T, n, i)
    requires CanReceive(T, T.peer[n.flights[i].src].chain, n.flights[i].data.receiver)
    requires var b := T.peer[n.flights[i].src].chain; FreshAddress(T.envs[b], n.chains[b], newAddr)
    requires At(T.peer[n.flights[i].src].chain, VoucherKey(T, n.flights[i])) in cs
    requires ValidTopology(T) && NoReturns(T, n.flights, cs) && NetInv(T, n, held)
    ensures var f := n.flights[i];
            && NftAt(n.chains[T.peer[f.src].chain], VoucherKey(T, f)) == None
            && IsDelivered(T, ApplyRelay(T, n, i, newAddr), i, f, Nft(f.data.receiver, TokenOf(f.data).uri))
  {
    assert ChainIsValid(T, n.chains, T.peer[n.flights[i].src].chain);
    NothingLeftOver(T, n, held, i, cs);
    WelcomeIsAccepted(T, n, i, Undelivered);
    CreatesIff(T, n, i, newAddr);
    DeliveryCreates(T, n, i, newAddr);
    RelayIs(T, n, i, newAddr);
    CreationLands(T, n, i, Delivered(T, n, i, newAddr).0);
  }

  lemma ReturnIsFaithful(G: C.Graph, v: C.View, c: Loc, l: Loc)
    requires C.ValidGraph(G) && C.Inv(G, v) && C.CanRedeem(G, v, c, l)
    ensures l in v.nfts && v.nfts[l].uri == v.held[c].uri
  {
    Claims.FaithfulToParent(G, v, v.held[c].src, c, l);
  }

  /** The NFT that waits at home has the uri that the returning packet carries. */
  lemma ReturnUri(T: Topology, n: Network, held: Held, i: nat)
    requires InFlight(T, n, i, Undelivered) && PacketRoute(PacketOf(T, n.flights[i])).local.Some?
    requires ValidTopology(T) && C.Inv(GraphOf(T), ViewOf(n, held)) && HeldAgrees(GraphOf(T), n.flights, held)
    ensures var f := n.flights[i];
            var home := NftAt(n.chains[T.peer[f.src].chain], HomeKey(T, f));
            home.Some? && home.value.uri == TokenOf(f.data).uri
  {
    var f := n.flights[i];
    var l := At(T.peer[f.src].chain, HomeKey(T, f));
    ReturnCanRedeem(T, n, held, i);
    FlightIsHeld(T, n, held, i);
    GraphIsValid(T);
    ReturnIsFaithful(GraphOf(T), ViewOf(n, held), LocOf(f), l);
    NftIs(n, held, l.chain, HomeKey(T, f));
  }

  lemma BackDelivers(T: Topology, n: Network, held: Held, i: nat, newAddr: Addr)
    requires InFlight(T, n, i, Undelivered) && PacketRoute(PacketOf(T, n.flights[i])).local.Some? && Welcomes(T, n, i)
    requires CanReceive(T, T.peer[n.flights[i].src].chain, n.flights[i].data.receiver)
    requires ValidTopology(T) && NetInv(T, n, held)
    ensures var f := n.flights[i];
            IsDelivered(T, ApplyRelay(T, n, i, newAddr), i, f, Nft(f.data.receiver, TokenOf(f.data).uri))
  {
    WelcomeIsAccepted(T, n, i, Undelivered);
    RedeemsIn(T, n, held, i, newAddr);
    ReturnUri(T, n, held, i);
    RelayIs(T, n, i, newAddr);
    RedemptionLands(T, n, i, Delivered(T, n, i, newAddr).0);
  }

  /** A relay takes no voucher back. */
  lemma RelayedNoReturn(T: Topology, n: Network, i: nat, newAddr: Addr, cs: set<Loc>)
    requires InFlight(T, n, i, Undelivered) && NoReturns(T, n.flights, cs)
    ensures NoReturns(T, ApplyRelay(T, n, i, newAddr).flights, cs)
  {
  }

  lemma RelayKeepsInv(T: Topology, n: Network, held: Held, i: nat, newAddr: Addr) returns (held': Held)
    requires ValidTopology(T) && NetInv(T, n, held)
    ensures NetInv(T, ApplyRelay(T, n, i, newAddr), held')
  {
    var step;
    step, held' := RelayMove(T, n, held, i, newAddr);
    StepsKeepInv(T, n, held, step, None, ApplyRelay(T, n, i, newAddr), held');
  }

  // ---------- A hop ----------

  /**
   A hop: who receives the token, the address that the receiving chain gives to a collection it may have
   to instantiate, and what else happens before the send and during the flight. Acks are among the moves
   on the side: a packet of an earlier hop may be acknowledged at any time, or not at all.
   */
  datatype Plan = Plan(receiver: Addr, newAddr: Addr, first: seq<Move>, flying: seq<Move>)

  // The states of the network along a hop.

  function AtSend(T: Topology, n: Network, p: Plan): Network {
    ApplyAll(T, n, p.first)
  }

  function AtDelivery(T: Topology, n: Network, l: Loc, e: End, p: Plan): Network {
    var n0 := AtSend(T, n, p);
    ApplyAll(T, Apply(T, n0, Sending(n0, l, e, p.receiver)), p.flying)
  }

  function Hop(T: Topology, n: Network, l: Loc, e: End, p: Plan): Network {
    Apply(T, AtDelivery(T, n, l, e, p), Relay(AtSend(T, n, p).next, p.newAddr))
  }

  /** The moves of a hop, as one run. */
  function HopMoves(T: Topology, n: Network, l: Loc, e: End, p: Plan): seq<Move> {
    var n0 := AtSend(T, n, p);
    p.first + [Sending(n0, l, e, p.receiver)] + p.flying + [Relay(n0.next, p.newAddr)]
  }

  lemma {:induction false} RunAppend(T: Topology, n: Network, a: seq<Move>, b: seq<Move>)
    ensures ApplyAll(T, n, a + b) == ApplyAll(T, ApplyAll(T, n, a), b)
  {
    if b == [] {
      assert a + b == a;
    } else {
      assert (a + b)[..|a + b| - 1] == a + b[..|b| - 1];
      RunAppend(T, n, a, b[..|b| - 1]);
    }
  }

  lemma RunOne(T: Topology, n: Network, act: Move)
    ensures ApplyAll(T, n, [act]) == Apply(T, n, act)
  {
    assert ApplyAll(T, n, [act][..0]) == n;
  }

  lemma HopIsRun(T: Topology, n: Network, l: Loc, e: End, p: Plan)
    ensures ApplyAll(T, n, HopMoves(T, n, l, e, p)) == Hop(T, n, l, e, p)
  {
    var n0 := AtSend(T, n, p);
    var send, relay := Sending(n0, l, e, p.receiver), Relay(n0.next, p.newAddr);
    RunAppend(T, n, p.first + [send] + p.flying, [relay]);
    RunAppend(T, n, p.first + [send], p.flying);
    RunAppend(T, n, p.first, [send]);
    RunOne(T, n0, send);
    RunOne(T, AtDelivery(T, n, l, e, p), relay);
  }

  /**
   What a hop asks of the rest of the world: nobody else acts on the token or on its packet in flight, the
   sending bridge is not paused at the send and the receiving one not at the delivery, and a new
   collection gets an unused address.
   */
  ghost predicate Smooth(T: Topology, n: Network, l: Loc, e: End, p: Plan)
    requires e in T.peer
  {
    var b, n2 := T.peer[e].chain, AtDelivery(T, n, l, e, p);
    && Spare(T, n, p.first, l)
    && CanSendFrom(T, AtSend(T, n, p), l)
    && (forall act | act in p.flying :: !IsAbout(act, AtSend(T, n, p).next))
    && b in n2.chains && b in T.envs && !n2.chains[b].s.po.paused
    && (Popped(T, e, l).None? ==> FreshAddress(T.envs[b], n2.chains[b], p.newAddr))
  }

  /** From the owner's hands to the receiving chain's door. */
  lemma HopFlies(
      T: Topology, n: Network, held: Held, l: Loc, e: End, nft: Nft, p: Plan, cs: set<Loc>)
    returns (held': Held)
    requires HasNft(T, n, l, nft) && e in T.peer && e.chain == l.chain && Smooth(T, n, l, e, p)
    requires ValidTopology(T) && Kin(T, l, cs) && NoReturns(T, n.flights, cs) && NetInv(T, n, held)
    ensures var n2 := AtDelivery(T, n, l, e, p);
            && IsSent(T, n2, AtSend(T, n, p).next, l, e, nft, p.receiver)
            && NoReturns(T, n2.flights, cs) && NetInv(T, n2, held')
  {
    var n0 := AtSend(T, n, p);
    held' := RestRun(T, n, held, p.first, l, nft, cs);
    held' := SendHop(T, n0, held', l, e, nft, p.receiver, cs);
    held' := FlyRun(T, Apply(T, n0, Sending(n0, l, e, p.receiver)), held', p.flying, n0.next, cs);
    CanBeRelayed(T, AtDelivery(T, n, l, e, p), n0.next);
  }

  /** A hop by a channel the token did not come from: a voucher that did not exist, in the receiver's hands. */
  lemma HopOut(
      T: Topology, n: Network, held: Held, l: Loc, e: End, nft: Nft, p: Plan, cs: set<Loc>)
    returns (held': Held)
    requires HasNft(T, n, l, nft) && e in T.peer && e.chain == l.chain && CanReceive(T, T.peer[e].chain, p.receiver)
    requires Popped(T, e, l).None? && VoucherOf(T, e, l) in cs && Smooth(T, n, l, e, p)
    requires ValidTopology(T) && Kin(T, l, cs) && NoReturns(T, n.flights, cs) && NetInv(T, n, held)
    ensures var c, n2, n' := VoucherOf(T, e, l), AtDelivery(T, n, l, e, p), Hop(T, n, l, e, p);
            && c.chain in n2.chains && NftAt(n2.chains[c.chain], KeyAt(c)) == None
            && HasNft(T, n', c, Nft(p.receiver, nft.uri))
            && NoReturns(T, n'.flights, cs) && NetInv(T, n', held')
  {
    held' := HopFlies(T, n, held, l, e, nft, p, cs);
    held' := OutLands(T, AtDelivery(T, n, l, e, p), held', AtSend(T, n, p).next, l, e, nft, p.receiver, p.newAddr, cs);
  }

  lemma OutLands(
      T: Topology, n: Network, held: Held, i: nat, l: Loc, e: End,
      nft: Nft, receiver: Addr, newAddr: Addr, cs: set<Loc>)
    returns (held': Held)
    requires
      && IsSent(T, n, i, l, e, nft, receiver)
      && e in T.peer
      && Popped(T, e, l).None?
      && CanReceive(T, T.peer[e].chain, receiver)
    requires T.peer[e].chain in n.chains && !n.chains[T.peer[e].chain].s.po.paused
    requires FreshAddress(T.envs[T.peer[e].chain], n.chains[T.peer[e].chain], newAddr) && VoucherOf(T, e, l) in cs
    requires ValidTopology(T) && NoReturns(T, n.flights, cs) && NetInv(T, n, held)
    ensures var c, n' := VoucherOf(T, e, l), Apply(T, n, Relay(i, newAddr));
            && NftAt(n.chains[c.chain], KeyAt(c)) == None && HasNft(T, n', c, Nft(receiver, nft.uri))
            && NoReturns(T, n'.flights, cs) && NetInv(T, n', held')
  {
    LandingIs(T, n.flights[i]);
    OutDelivers(T, n, held, i, newAddr, cs);
    RelayedNoReturn(T, n, i, newAddr, cs);
    ApplyIs(T, n, Relay(i, newAddr));
    held' := RelayKeepsInv(T, n, held, i, newAddr);
  }

  /** The voucher at `c` went back by `e`, was redeemed, and waits for the ack that burns it. */
  ghost predicate AwaitsBurn(T: Topology, n: Network, i: nat, c: Loc, e: End) {
    InFlight(T, n, i, Acked(AckSuccess)) && n.flights[i].src == e && LocOf(n.flights[i]) == c && Popped(T, e, c).Some?
  }

  /** A hop by the channel the token came from: what it stood for, in the receiver's hands. */
  lemma HopBack(T: Topology, n: Network, held: Held, c: Loc, e: End, nft: Nft, p: Plan) returns (held': Held)
    requires HasNft(T, n, c, nft) && e in T.peer && e.chain == c.chain && CanReceive(T, T.peer[e].chain, p.receiver)
    requires Popped(T, e, c).Some? && Smooth(T, n, c, e, p)
    requires ValidTopology(T) && NetInv(T, n, held)
    ensures var n' := Hop(T, n, c, e, p);
            && HasNft(T, n', Landing(T, e, c), Nft(p.receiver, nft.uri))
            && AwaitsBurn(T, n', AtSend(T, n, p).next, c, e) && NetInv(T, n', held')
  {
    held' := HopFlies(T, n, held, c, e, nft, p, {});
    held' := BackLands(T, AtDelivery(T, n, c, e, p), held', AtSend(T, n, p).next, c, e, nft, p.receiver, p.newAddr);
  }

  lemma BackLands(
      T: Topology, n: Network, held: Held, i: nat, c: Loc, e: End, nft: Nft, receiver: Addr, newAddr: Addr)
    returns (held': Held)
    requires
      && IsSent(T, n, i, c, e, nft, receiver)
      && e in T.peer
      && Popped(T, e, c).Some?
      && CanReceive(T, T.peer[e].chain, receiver)
    requires T.peer[e].chain in n.chains && !n.chains[T.peer[e].chain].s.po.paused
    requires ValidTopology(T) && NetInv(T, n, held)
    ensures var n' := Apply(T, n, Relay(i, newAddr));
            && HasNft(T, n', Landing(T, e, c), Nft(receiver, nft.uri))
            && AwaitsBurn(T, n', i, c, e)
            && NetInv(T, n', held')
  {
    LandingIs(T, n.flights[i]);
    BackDelivers(T, n, held, i, newAddr);
    ApplyIs(T, n, Relay(i, newAddr));
    held' := RelayKeepsInv(T, n, held, i, newAddr);
  }

  // ---------- Out along a path, and back ----------

  /** One leg of a path: the channel end it leaves by, the hop out, and the hop back. */
  datatype Leg = Leg(e: End, out: Plan, back: Plan)

  /** Each leg starts where the one before ended, and does not turn straight back. */
  ghost predicate IsPath(T: Topology, a: ChainId, legs: seq<Leg>)
    decreases |legs|
  {
    legs != [] ==>
      && legs[0].e in T.peer && legs[0].e.chain == a
      && CanReceive(T, T.peer[legs[0].e].chain, legs[0].out.receiver) && CanReceive(T, a, legs[0].back.receiver)
      && (|legs| > 1 ==> legs[1].e != T.peer[legs[0].e])
      && IsPath(T, T.peer[legs[0].e].chain, legs[1..])
  }

  /** The path can be travelled from `l`, which is not a voucher from its first channel end. */
  ghost predicate LeadsOut(T: Topology, l: Loc, legs: seq<Leg>) {
    IsPath(T, l.chain, legs) && (legs != [] ==> Popped(T, legs[0].e, l).None?)
  }

  function Outward(T: Topology, n: Network, l: Loc, legs: seq<Leg>): Network
    decreases |legs|
  {
    if legs == [] || legs[0].e !in T.peer then n
    else Outward(T, Hop(T, n, l, legs[0].e, legs[0].out), VoucherOf(T, legs[0].e, l), legs[1..])
  }

  function RoundTrip(T: Topology, n: Network, l: Loc, legs: seq<Leg>): Network
    decreases |legs|
  {
    if legs == [] || legs[0].e !in T.peer then n
    else
      var c := VoucherOf(T, legs[0].e, l);
      Hop(T, RoundTrip(T, Hop(T, n, l, legs[0].e, legs[0].out), c, legs[1..]), c, T.peer[legs[0].e], legs[0].back)
  }

  /** The moves of a round trip, as one run. */
  function TripMoves(T: Topology, n: Network, l: Loc, legs: seq<Leg>): seq<Move>
    decreases |legs|
  {
    if legs == [] || legs[0].e !in T.peer then []
    else
      var c, there := VoucherOf(T, legs[0].e, l), Hop(T, n, l, legs[0].e, legs[0].out);
      HopMoves(T, n, l, legs[0].e, legs[0].out) + TripMoves(T, there, c, legs[1..])
      + HopMoves(T, RoundTrip(T, there, c, legs[1..]), c, T.peer[legs[0].e], legs[0].back)
  }

  lemma {:induction false} TripIsRun(T: Topology, n: Network, l: Loc, legs: seq<Leg>)
    ensures ApplyAll(T, n, TripMoves(T, n, l, legs)) == RoundTrip(T, n, l, legs)
    decreases |legs|
  {
    if legs != [] && legs[0].e in T.peer {
      var c, there := VoucherOf(T, legs[0].e, l), Hop(T, n, l, legs[0].e, legs[0].out);
      var inner := RoundTrip(T, there, c, legs[1..]);
      var out, middle := HopMoves(T, n, l, legs[0].e, legs[0].out), TripMoves(T, there, c, legs[1..]);
      var back := HopMoves(T, inner, c, T.peer[legs[0].e], legs[0].back);
      TripIsRun(T, there, c, legs[1..]);
      HopIsRun(T, n, l, legs[0].e, legs[0].out);
      HopIsRun(T, inner, c, T.peer[legs[0].e], legs[0].back);
      RunAppend(T, n, out + middle, back);
      RunAppend(T, n, out, middle);
    }
  }

  ghost predicate SmoothOut(T: Topology, n: Network, l: Loc, legs: seq<Leg>)
    decreases |legs|
  {
    legs != [] && legs[0].e in T.peer ==>
      && Smooth(T, n, l, legs[0].e, legs[0].out)
      && SmoothOut(T, Hop(T, n, l, legs[0].e, legs[0].out), VoucherOf(T, legs[0].e, l), legs[1..])
  }

  ghost predicate SmoothTrip(T: Topology, n: Network, l: Loc, legs: seq<Leg>)
    decreases |legs|
  {
    legs != [] && legs[0].e in T.peer && T.peer[legs[0].e] in T.peer ==>
      var c, there := VoucherOf(T, legs[0].e, l), Hop(T, n, l, legs[0].e, legs[0].out);
      && Smooth(T, n, l, legs[0].e, legs[0].out)
      && SmoothTrip(T, there, c, legs[1..])
      && Smooth(T, RoundTrip(T, there, c, legs[1..]), c, T.peer[legs[0].e], legs[0].back)
  }

  /** Where the token is after the legs. */
  function VoucherAfter(T: Topology, l: Loc, legs: seq<Leg>): Loc
    decreases |legs|
  {
    if legs == [] || legs[0].e !in T.peer then l else VoucherAfter(T, VoucherOf(T, legs[0].e, l), legs[1..])
  }

  /** The vouchers of the path. */
  function Vouchers(T: Topology, l: Loc, legs: seq<Leg>): set<Loc>
    decreases |legs|
  {
    if legs == [] || legs[0].e !in T.peer then {}
    else {VoucherOf(T, legs[0].e, l)} + Vouchers(T, VoucherOf(T, legs[0].e, l), legs[1..])
  }

  /** Where a hop out, and the hop back, land. */
  lemma LandsThereAndBack(T: Topology, e: End, l: Loc)
    requires ValidTopology(T) && e in T.peer && e.chain == l.chain && Popped(T, e, l).None?
    ensures var c := VoucherOf(T, e, l);
            && Landing(T, T.peer[e], c) == l && T.peer[e] in T.peer && T.peer[e].chain == c.chain
            && Popped(T, T.peer[e], c).Some? && Origin(T, c) == Origin(T, l) && T.peer[T.peer[e]] == e
  {
    VoucherPops(T, e, l);
    LandingKeepsOrigin(T, e, l);
  }

  /** The rest of a path leads out from where its first hop lands. */
  lemma PathGoesOn(T: Topology, l: Loc, legs: seq<Leg>)
    requires ValidTopology(T) && LeadsOut(T, l, legs) && legs != []
    ensures LeadsOut(T, VoucherOf(T, legs[0].e, l), legs[1..])
  {
    VoucherPops(T, legs[0].e, l);
  }

  lemma OneHopOn(T: Topology, e: End, l: Loc)
    requires ValidTopology(T) && e in T.peer && e.chain == l.chain && Popped(T, e, l).None?
    ensures Origin(T, VoucherOf(T, e, l)) == Origin(T, l) && |VoucherOf(T, e, l).classId| > |l.classId|
  {
    LandsThereAndBack(T, e, l);
  }

  /** The vouchers of a path are other places of the same NFT, with longer class IDs. */
  lemma {:induction false} VoucherIsKin(T: Topology, l: Loc, legs: seq<Leg>, c: Loc)
    requires ValidTopology(T) && LeadsOut(T, l, legs) && c in Vouchers(T, l, legs)
    ensures Origin(T, c) == Origin(T, l) && |c.classId| > |l.classId|
    decreases |legs|
  {
    var d := VoucherOf(T, legs[0].e, l);
    OneHopOn(T, legs[0].e, l);
    PathGoesOn(T, l, legs);
    if c != d {
      VoucherIsKin(T, d, legs[1..], c);
    }
  }

  lemma VouchersAreKin(T: Topology, l: Loc, legs: seq<Leg>)
    requires ValidTopology(T) && LeadsOut(T, l, legs)
    ensures Kin(T, l, Vouchers(T, l, legs))
  {
    forall c | c in Vouchers(T, l, legs) ensures Origin(T, c) == Origin(T, l) && |c.classId| > |l.classId| {
      VoucherIsKin(T, l, legs, c);
    }
  }

  lemma FewerReturns(T: Topology, flights: map<nat, Flight>, cs: set<Loc>, ds: set<Loc>)
    requires NoReturns(T, flights, cs) && ds <= cs
    ensures NoReturns(T, flights, ds)
  {
  }

  /** The first hop of a path leaves the rest of the path to travel. */
  lemma FirstHop(T: Topology, n: Network, held: Held, l: Loc, nft: Nft, legs: seq<Leg>) returns (held': Held)
    requires HasNft(T, n, l, nft) && LeadsOut(T, l, legs) && legs != [] && Smooth(T, n, l, legs[0].e, legs[0].out)
    requires ValidTopology(T) && NoReturns(T, n.flights, Vouchers(T, l, legs)) && NetInv(T, n, held)
    ensures var c, there := VoucherOf(T, legs[0].e, l), Hop(T, n, l, legs[0].e, legs[0].out);
            && HasNft(T, there, c, Nft(legs[0].out.receiver, nft.uri)) && LeadsOut(T, c, legs[1..])
            && NoReturns(T, there.flights, Vouchers(T, c, legs[1..])) && NetInv(T, there, held')
  {
    PathGoesOn(T, l, legs);
    VouchersAreKin(T, l, legs);
    held' := HopOut(T, n, held, l, legs[0].e, nft, legs[0].out, Vouchers(T, l, legs));
    FewerReturns(
      T, Hop(T, n, l, legs[0].e, legs[0].out).flights, Vouchers(T, l, legs),
      Vouchers(T, VoucherOf(T, legs[0].e, l), legs[1..]));
  }

  /** Every hop out delivers, and the last receiver has the last voucher, with the original's uri. */
  lemma {:induction false} OutwardDelivers(
      T: Topology, n: Network, held: Held, l: Loc, nft: Nft, legs: seq<Leg>)
    returns (held': Held)
    requires HasNft(T, n, l, nft) && LeadsOut(T, l, legs) && SmoothOut(T, n, l, legs)
    requires ValidTopology(T) && NoReturns(T, n.flights, Vouchers(T, l, legs)) && NetInv(T, n, held)
    ensures var n' := Outward(T, n, l, legs);
            && HasNft(T, n', VoucherAfter(T, l, legs),
                      Nft(if legs == [] then nft.owner else legs[|legs| - 1].out.receiver, nft.uri))
            && NetInv(T, n', held')
    decreases |legs|
  {
    held' := held;
    if legs != [] {
      var there := Hop(T, n, l, legs[0].e, legs[0].out);
      held' := FirstHop(T, n, held, l, nft, legs);
      held' := OutwardDelivers(
        T, there, held', VoucherOf(T, legs[0].e, l), Nft(legs[0].out.receiver, nft.uri), legs[1..]);
    }
  }

  /** The last hop back, from the place where the inner trip ended. */
  lemma LastHop(T: Topology, n: Network, held: Held, l: Loc, nft: Nft, leg: Leg) returns (held': Held)
    requires leg.e in T.peer && leg.e.chain == l.chain && T.peer[leg.e] in T.peer && Popped(T, leg.e, l).None?
    requires HasNft(T, n, VoucherOf(T, leg.e, l), nft) && CanReceive(T, l.chain, leg.back.receiver)
    requires Smooth(T, n, VoucherOf(T, leg.e, l), T.peer[leg.e], leg.back)
    requires ValidTopology(T) && NetInv(T, n, held)
    ensures var n' := Hop(T, n, VoucherOf(T, leg.e, l), T.peer[leg.e], leg.back);
            && HasNft(T, n', l, Nft(leg.back.receiver, nft.uri)) && NetInv(T, n', held')
  {
    LandsThereAndBack(T, leg.e, l);
    held' := HopBack(T, n, held, VoucherOf(T, leg.e, l), T.peer[leg.e], nft, leg.back);
  }

  /** Who has the token at the end of a round trip. */
  function Returned(owner: Addr, legs: seq<Leg>): Addr {
    if legs == [] then owner else legs[0].back.receiver
  }

  /** The way back redeems every hop, and gives the original to whoever the last return names. */
  lemma {:induction false} RoundTripReturns(
      T: Topology, n: Network, held: Held, l: Loc, nft: Nft, legs: seq<Leg>)
    returns (held': Held)
    requires HasNft(T, n, l, nft) && LeadsOut(T, l, legs) && SmoothTrip(T, n, l, legs)
    requires ValidTopology(T) && NoReturns(T, n.flights, Vouchers(T, l, legs)) && NetInv(T, n, held)
    ensures HasNft(T, RoundTrip(T, n, l, legs), l, Nft(Returned(nft.owner, legs), nft.uri))
    ensures NetInv(T, RoundTrip(T, n, l, legs), held')
    decreases |legs|
  {
    held' := held;
    if legs != [] {
      var c, there := VoucherOf(T, legs[0].e, l), Hop(T, n, l, legs[0].e, legs[0].out);
      held' := FirstHop(T, n, held, l, nft, legs);
      held' := RoundTripReturns(T, there, held', c, Nft(legs[0].out.receiver, nft.uri), legs[1..]);
      held' := LastHop(
        T, RoundTrip(T, there, c, legs[1..]), held', l,
        Nft(Returned(legs[0].out.receiver, legs[1..]), nft.uri), legs[0]);
    }
  }

  // ---------- What is left of a journey ----------

  /** Nobody holds the NFT in trust for a voucher. */
  ghost predicate NotInTrust(G: C.Graph, v: C.View, l: Loc) {
    !C.Live(v.nfts, v.held, l) || !C.Locked(G, v.nfts, l)
  }

  lemma VoucherNeedsTrust(G: C.Graph, v: C.View, f: End, c: Loc, l: Loc)
    requires C.ValidGraph(G) && C.Inv(G, v) && C.Edge(G, f, c, l) && NotInTrust(G, v, l)
    ensures !C.Live(v.nfts, v.held, c)
  {
    if C.Live(v.nfts, v.held, c) {
      C.LiveParent(G, v, f, c, l);
    }
  }

  lemma {:induction false} NoneIsLive(T: Topology, v: C.View, l: Loc, legs: seq<Leg>, c: Loc)
    requires ValidTopology(T) && LeadsOut(T, l, legs) && c in Vouchers(T, l, legs)
    requires NotInTrust(GraphOf(T), v, l) && C.Inv(GraphOf(T), v)
    ensures !C.Live(v.nfts, v.held, c) && c.chain in T.envs
    decreases |legs|
  {
    var d := VoucherOf(T, legs[0].e, l);
    GraphIsValid(T);
    VoucherPops(T, legs[0].e, l);
    VoucherNeedsTrust(GraphOf(T), v, T.peer[legs[0].e], d, l);
    PathGoesOn(T, l, legs);
    if c != d {
      NoneIsLive(T, v, d, legs[1..], c);
    }
  }

  lemma DeadHasPacket(T: Topology, n: Network, held: Held, c: Loc)
    requires ValidTopology(T) && C.Dead(held, c)
    requires ChainsAreValid(T, n.chains) && FlightsAreGood(T, n) && HeldAgrees(GraphOf(T), n.flights, held)
    ensures exists j, e :: AwaitsBurn(T, n, j, c, e)
  {
    var j := DeadIsFlight(GraphOf(T), n.flights, held, c);
    CanBeRelayed(T, n, j);
    CameOverPops(T, n.flights[j].src, c);
    assert AwaitsBurn(T, n, j, c, n.flights[j].src);
  }

  lemma CameOverPops(T: Topology, e: End, c: Loc)
    ensures C.CameOver(GraphOf(T), e, c) ==> Popped(T, e, c).Some?
  {
  }

  lemma AwaitingIsDead(T: Topology, n: Network, held: Held, j: nat, c: Loc, e: End)
    requires AwaitsBurn(T, n, j, c, e) && HeldAgrees(GraphOf(T), n.flights, held)
    ensures C.Dead(held, c)
  {
    RouteIsEdge(T, n.flights[j]);
    LandingIs(T, n.flights[j]);
    FlightIsHeld(T, n, held, j);
  }

  /** A voucher that was redeemed is one whose returning packet waits for its ack. */
  lemma DeadIff(T: Topology, n: Network, held: Held, c: Loc)
    requires ValidTopology(T)
    requires ChainsAreValid(T, n.chains) && FlightsAreGood(T, n) && HeldAgrees(GraphOf(T), n.flights, held)
    ensures C.Dead(held, c) <==> exists j, e :: AwaitsBurn(T, n, j, c, e)
  {
    if C.Dead(held, c) {
      DeadHasPacket(T, n, held, c);
    }
    if j, e :| AwaitsBurn(T, n, j, c, e) {
      AwaitingIsDead(T, n, held, j, c, e);
    }
  }

  lemma DeadExists(G: C.Graph, v: C.View, c: Loc)
    requires C.Inv(G, v)
    ensures C.Dead(v.held, c) ==> c in v.nfts
  {
  }

  /** While the NFT at `l` is in a user's hands, a voucher made from it exists exactly until its burning ack arrives. */
  lemma RemainsIff(T: Topology, n: Network, held: Held, l: Loc, nft: Nft, legs: seq<Leg>, c: Loc)
    requires HasNft(T, n, l, nft) && ValidTopology(T) && LeadsOut(T, l, legs) && c in Vouchers(T, l, legs)
    requires NetInv(T, n, held)
    ensures c.chain in n.chains
    ensures NftAt(n.chains[c.chain], KeyAt(c)).Some? <==> exists j, e :: AwaitsBurn(T, n, j, c, e)
  {
    HasNftView(T, n, held, l, nft);
    NoneIsLive(T, ViewOf(n, held), l, legs, c);
    DeadIff(T, n, held, c);
    DeadExists(GraphOf(T), ViewOf(n, held), c);
    NftIs(n, held, c.chain, KeyAt(c));
  }

  /** The voucher at `c` exists exactly while an open packet waits to burn it. */
  ghost predicate OnlyAwaitsBurn(T: Topology, n: Network, c: Loc) {
    && c.chain in n.chains
    && (NftAt(n.chains[c.chain], KeyAt(c)).Some? <==> exists j, e :: AwaitsBurn(T, n, j, c, e))
  }

  /** No voucher of the path exists. */
  ghost predicate NoneExists(n: Network, cs: set<Loc>) {
    forall c | c in cs :: c.chain in n.chains && NftAt(n.chains[c.chain], KeyAt(c)) == None
  }

  /** None of the vouchers existed before, and what exists after waits to be burned. */
  ghost predicate IsUnwound(T: Topology, m: Network, m': Network, cs: set<Loc>) {
    NoneExists(m, cs) && forall c | c in cs :: OnlyAwaitsBurn(T, m', c)
  }

  lemma NoneExistsYet(T: Topology, n: Network, held: Held, l: Loc, nft: Nft, legs: seq<Leg>)
    requires HasNft(T, n, l, nft) && ValidTopology(T) && LeadsOut(T, l, legs)
    requires NoReturns(T, n.flights, Vouchers(T, l, legs)) && NetInv(T, n, held)
    ensures NoneExists(n, Vouchers(T, l, legs))
  {
    forall c | c in Vouchers(T, l, legs) ensures c.chain in n.chains && NftAt(n.chains[c.chain], KeyAt(c)) == None {
      AwaitsReturn(T, n, c);
      RemainsIff(T, n, held, l, nft, legs, c);
    }
  }

  lemma AwaitsReturn(T: Topology, n: Network, c: Loc)
    ensures forall j, e :: AwaitsBurn(T, n, j, c, e) ==>
              j in n.flights && IsReturn(T, n.flights[j]) && LocOf(n.flights[j]) == c
  {
  }

  /** The hops of a path as class-ID prefixes, the latest first. */
  function Hops(T: Topology, legs: seq<Leg>): seq<Endpoint> {
    if legs == [] || legs[0].e !in T.peer then [] else Hops(T, legs[1..]) + [EndpointOf(T, T.peer[legs[0].e])]
  }

  lemma {:induction false} EncodeLast(path: seq<Endpoint>, e: Endpoint, base: ClassId)
    ensures Encode(path + [e], base) == Encode(path, EndpointPrefix(e) + base)
  {
    if path == [] {
      assert path + [e] == [e];
      assert Encode([e][1..], base) == base;
    } else {
      assert (path + [e])[0] == path[0] && (path + [e])[1..] == path[1..] + [e];
      EncodeLast(path[1..], e, base);
    }
  }

  /** The class ID of the last voucher spells out the path. */
  lemma {:induction false} ClassIdSpellsPath(T: Topology, l: Loc, legs: seq<Leg>)
    ensures VoucherAfter(T, l, legs).classId == Encode(Hops(T, legs), l.classId)
    decreases |legs|
  {
    if legs != [] && legs[0].e in T.peer {
      ClassIdSpellsPath(T, VoucherOf(T, legs[0].e, l), legs[1..]);
      EncodeLast(Hops(T, legs[1..]), EndpointOf(T, T.peer[legs[0].e]), l.classId);
    }
  }

  /** Every hop lengthens the class ID, so no two places of a path have the same class. */
  lemma {:induction false} ClassesGrow(T: Topology, l: Loc, legs: seq<Leg>, j: nat, k: nat)
    requires IsPath(T, l.chain, legs) && j < k <= |legs|
    ensures |VoucherAfter(T, l, legs[..j]).classId| < |VoucherAfter(T, l, legs[..k]).classId|
    ensures VoucherAfter(T, l, legs[..k]) in Vouchers(T, l, legs)
    decreases k
  {
    var c := VoucherOf(T, legs[0].e, l);
    assert |c.classId| > |l.classId|;
    assert legs[..k][0] == legs[0] && legs[..k][1..] == legs[1..][..k - 1];
    assert legs[1..][..0] == [];
    if j == 0 {
      if k > 1 {
        ClassesGrow(T, c, legs[1..], 0, k - 1);
      }
    } else {
      assert legs[..j][0] == legs[0] && legs[..j][1..] == legs[1..][..j - 1];
      ClassesGrow(T, c, legs[1..], j - 1, k - 1);
    }
  }

  /**
   From any reachable state in which no voucher of the path is on its way back, a round trip along any path
   that does not turn straight back, with any other moves in between and after: no voucher of the path
   existed before, each hop makes one of a class of its own, the way back redeems them all, the last
   receiver has the original, and a voucher is left exactly where its burning ack has not been relayed.
   */
  lemma JourneyUnwinds(T: Topology, n: Network, acts: seq<Move>, l: Loc, nft: Nft, legs: seq<Leg>, after: seq<Move>)
    requires ValidTopology(T) && Genesis(T, n) && LeadsOut(T, l, legs) && legs != []
    requires var m := ApplyAll(T, n, acts);
             && HasNft(T, m, l, nft) && NoReturns(T, m.flights, Vouchers(T, l, legs))
             && SmoothTrip(T, m, l, legs) && Spare(T, RoundTrip(T, m, l, legs), after, l)
    ensures var m := ApplyAll(T, n, acts);
            var m' := ApplyAll(T, n, acts + TripMoves(T, m, l, legs) + after);
            HasNft(T, m', l, Nft(legs[0].back.receiver, nft.uri)) && IsUnwound(T, m, m', Vouchers(T, l, legs))
    ensures forall j, k | 0 <= j < k <= |legs| :: HasOwnClass(T, l, legs, j, k)
  {
    var m := ApplyAll(T, n, acts);
    var held := ReachableInv(T, n, acts);
    TripEnds(T, n, acts, l, legs, after);
    JourneyFrom(T, m, held, l, nft, legs, after);
    ClassesDiffer(T, l, legs);
  }

  /** The voucher of the first `k` legs is one of the path's, of another class than the one of the first `j` legs. */
  predicate HasOwnClass(T: Topology, l: Loc, legs: seq<Leg>, j: nat, k: nat)
    requires j <= |legs| && k <= |legs|
  {
    && VoucherAfter(T, l, legs[..k]) in Vouchers(T, l, legs)
    && VoucherAfter(T, l, legs[..j]).classId != VoucherAfter(T, l, legs[..k]).classId
  }

  lemma ClassesDiffer(T: Topology, l: Loc, legs: seq<Leg>)
    requires IsPath(T, l.chain, legs)
    ensures forall j, k | 0 <= j < k <= |legs| :: HasOwnClass(T, l, legs, j, k)
  {
    forall j, k | 0 <= j < k <= |legs| ensures HasOwnClass(T, l, legs, j, k) {
      ClassesGrow(T, l, legs, j, k);
    }
  }

  lemma JourneyFrom(T: Topology, m: Network, held: Held, l: Loc, nft: Nft, legs: seq<Leg>, after: seq<Move>)
    requires HasNft(T, m, l, nft) && LeadsOut(T, l, legs) && legs != [] && SmoothTrip(T, m, l, legs)
    requires Spare(T, RoundTrip(T, m, l, legs), after, l)
    requires ValidTopology(T) && NoReturns(T, m.flights, Vouchers(T, l, legs)) && NetInv(T, m, held)
    ensures var m' := ApplyAll(T, RoundTrip(T, m, l, legs), after);
            HasNft(T, m', l, Nft(legs[0].back.receiver, nft.uri)) && IsUnwound(T, m, m', Vouchers(T, l, legs))
  {
    var back := Nft(legs[0].back.receiver, nft.uri);
    NoneExistsYet(T, m, held, l, nft, legs);
    var held1 := RoundTripReturns(T, m, held, l, nft, legs);
    var held2 := RestAlone(T, RoundTrip(T, m, l, legs), held1, after, l, back);
    AllAwaitBurn(T, ApplyAll(T, RoundTrip(T, m, l, legs), after), held2, l, back, legs);
  }

  lemma RestAlone(T: Topology, n: Network, held: Held, acts: seq<Move>, l: Loc, nft: Nft) returns (held': Held)
    requires HasNft(T, n, l, nft) && Spare(T, n, acts, l)
    requires ValidTopology(T) && NetInv(T, n, held)
    ensures HasNft(T, ApplyAll(T, n, acts), l, nft) && NetInv(T, ApplyAll(T, n, acts), held')
  {
    held' := RestRun(T, n, held, acts, l, nft, {});
  }

  lemma AllAwaitBurn(T: Topology, n: Network, held: Held, l: Loc, nft: Nft, legs: seq<Leg>)
    requires HasNft(T, n, l, nft) && ValidTopology(T) && LeadsOut(T, l, legs)
    requires NetInv(T, n, held)
    ensures forall c | c in Vouchers(T, l, legs) :: OnlyAwaitsBurn(T, n, c)
  {
    forall c | c in Vouchers(T, l, legs) ensures OnlyAwaitsBurn(T, n, c) {
      RemainsIff(T, n, held, l, nft, legs, c);
    }
  }

  lemma TripEnds(T: Topology, n: Network, acts: seq<Move>, l: Loc, legs: seq<Leg>, after: seq<Move>)
    ensures var m := ApplyAll(T, n, acts);
            ApplyAll(T, n, acts + TripMoves(T, m, l, legs) + after) == ApplyAll(T, RoundTrip(T, m, l, legs), after)
  {
    var m := ApplyAll(T, n, acts);
    RunAppend(T, n, acts + TripMoves(T, m, l, legs), after);
    RunAppend(T, n, acts, TripMoves(T, m, l, legs));
    TripIsRun(T, m, l, legs);
  }

  // ---------- The way home ----------

  /** One hop back: the channel end the voucher came in on. */
  datatype Return = Return(e: End, plan: Plan)

  /** Each return goes back where the voucher came from, through bridges that let it pass. */
  ghost predicate HeadsHome(T: Topology, n: Network, c: Loc, rs: seq<Return>)
    decreases |rs|
  {
    rs != [] ==>
      && rs[0].e in T.peer && rs[0].e.chain == c.chain && Popped(T, rs[0].e, c).Some?
      && CanReceive(T, T.peer[rs[0].e].chain, rs[0].plan.receiver) && Smooth(T, n, c, rs[0].e, rs[0].plan)
      && HeadsHome(T, Hop(T, n, c, rs[0].e, rs[0].plan), Landing(T, rs[0].e, c), rs[1..])
  }

  function Homeward(T: Topology, n: Network, c: Loc, rs: seq<Return>): Network
    decreases |rs|
  {
    if rs == [] || rs[0].e !in T.peer then n
    else Homeward(T, Hop(T, n, c, rs[0].e, rs[0].plan), Landing(T, rs[0].e, c), rs[1..])
  }

  /** What the returns lead to. */
  function HomeAfter(T: Topology, c: Loc, es: seq<End>): Loc
    decreases |es|
  {
    if es == [] || es[0] !in T.peer then c else HomeAfter(T, Landing(T, es[0], c), es[1..])
  }

  function Ends(rs: seq<Return>): seq<End> {
    if rs == [] then [] else [rs[0].e] + Ends(rs[1..])
  }

  function HomeMoves(T: Topology, n: Network, c: Loc, rs: seq<Return>): seq<Move>
    decreases |rs|
  {
    if rs == [] || rs[0].e !in T.peer then []
    else
      HopMoves(T, n, c, rs[0].e, rs[0].plan)
      + HomeMoves(T, Hop(T, n, c, rs[0].e, rs[0].plan), Landing(T, rs[0].e, c), rs[1..])
  }

  lemma {:induction false} HomeIsRun(T: Topology, n: Network, c: Loc, rs: seq<Return>)
    ensures ApplyAll(T, n, HomeMoves(T, n, c, rs)) == Homeward(T, n, c, rs)
    decreases |rs|
  {
    if rs != [] && rs[0].e in T.peer {
      var back, first := Hop(T, n, c, rs[0].e, rs[0].plan), HopMoves(T, n, c, rs[0].e, rs[0].plan);
      HopIsRun(T, n, c, rs[0].e, rs[0].plan);
      HomeIsRun(T, back, Landing(T, rs[0].e, c), rs[1..]);
      RunAppend(T, n, first, HomeMoves(T, back, Landing(T, rs[0].e, c), rs[1..]));
    }
  }

  lemma HomeGoesOn(T: Topology, c: Loc, rs: seq<Return>)
    requires rs != [] && rs[0].e in T.peer
    ensures HomeAfter(T, c, Ends(rs)) == HomeAfter(T, Landing(T, rs[0].e, c), Ends(rs[1..]))
  {
    assert Ends(rs)[1..] == Ends(rs[1..]);
  }

  /** Who has the token at the end. */
  function LastReceiver(owner: Addr, rs: seq<Return>): Addr
    decreases |rs|
  {
    if rs == [] then owner else LastReceiver(rs[0].plan.receiver, rs[1..])
  }

  lemma {:induction false} HomewardLands(
      T: Topology, n: Network, held: Held, c: Loc, nft: Nft, rs: seq<Return>)
    returns (held': Held)
    requires HasNft(T, n, c, nft) && HeadsHome(T, n, c, rs)
    requires ValidTopology(T) && NetInv(T, n, held)
    ensures HasNft(T, Homeward(T, n, c, rs), HomeAfter(T, c, Ends(rs)), Nft(LastReceiver(nft.owner, rs), nft.uri))
    ensures NetInv(T, Homeward(T, n, c, rs), held') && Origin(T, HomeAfter(T, c, Ends(rs))) == Origin(T, c)
    decreases |rs|
  {
    held' := held;
    if rs != [] {
      var e, p := rs[0].e, rs[0].plan;
      held' := HopBack(T, n, held, c, e, nft, p);
      LandingKeepsOrigin(T, e, c);
      HomeGoesOn(T, c, rs);
      held' := HomewardLands(T, Hop(T, n, c, e, p), held', Landing(T, e, c), Nft(p.receiver, nft.uri), rs[1..]);
    }
  }

  /**
   Whoever has a voucher, whatever its history and however many acks are outstanding, can send it back hop
   by hop: the receivers get what it stands for, and in the end the original, with its uri.
   */
  lemma WayHome(T: Topology, n: Network, acts: seq<Move>, c: Loc, nft: Nft, rs: seq<Return>)
    requires ValidTopology(T) && Genesis(T, n)
    requires HasNft(T, ApplyAll(T, n, acts), c, nft) && HeadsHome(T, ApplyAll(T, n, acts), c, rs)
    ensures var m' := ApplyAll(T, n, acts + HomeMoves(T, ApplyAll(T, n, acts), c, rs));
            var l := HomeAfter(T, c, Ends(rs));
            && HasNft(T, m', l, Nft(LastReceiver(nft.owner, rs), nft.uri))
            && Origin(T, l) == Origin(T, c) && (C.Native(GraphOf(T), l) ==> l == Origin(T, c))
  {
    var m := ApplyAll(T, n, acts);
    var held := ReachableInv(T, n, acts);
    RunAppend(T, n, acts, HomeMoves(T, m, c, rs));
    HomeIsRun(T, m, c, rs);
    held := HomewardLands(T, m, held, c, nft, rs);
    if C.Native(GraphOf(T), HomeAfter(T, c, Ends(rs))) {
      OriginHasNoHop(T, HomeAfter(T, c, Ends(rs)));
    }
  }

  /** Each end is the one that the class ID names next. */
  predicate Unwinds(T: Topology, c: Loc, es: seq<End>)
    decreases |es|
  {
    es != [] ==>
      && es[0] in T.peer && es[0].chain == c.chain && Popped(T, es[0], c).Some?
      && Unwinds(T, Landing(T, es[0], c), es[1..])
  }

  lemma OneHopHome(T: Topology, f: End, c: Loc)
    requires ValidTopology(T) && C.CameOver(GraphOf(T), f, c)
    ensures f in T.peer && f.chain == c.chain && Popped(T, f, c).Some?
    ensures Origin(T, Landing(T, f, c)) == Origin(T, c) && |Landing(T, f, c).classId| < |c.classId|
  {
    LandingKeepsOrigin(T, f, c);
    EdgeIsVoucher(T, f, c, Landing(T, f, c));
  }

  lemma OriginHasNoHop(T: Topology, c: Loc)
    requires ValidTopology(T) && C.Native(GraphOf(T), c)
    ensures Origin(T, c) == c
  {
  }

  /** There is a way home for every voucher: its class ID spells it out. */
  lemma {:induction false} ThereIsAWayHome(T: Topology, c: Loc) returns (es: seq<End>)
    requires ValidTopology(T)
    ensures Unwinds(T, c, es) && HomeAfter(T, c, es) == Origin(T, c)
    decreases |c.classId|
  {
    if f :| C.CameOver(GraphOf(T), f, c) {
      OneHopHome(T, f, c);
      var rest := ThereIsAWayHome(T, Landing(T, f, c));
      es := [f] + rest;
      assert es[1..] == rest;
    } else {
      OriginHasNoHop(T, c);
      es := [];
    }
  }
}
