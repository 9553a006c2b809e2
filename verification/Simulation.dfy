/** Every step of the network is a step of the custody protocol, so its invariant holds in every reachable state. */
module Simulation {
  import opened Types
  import opened ClassIds
  import opened Receive
  import opened Handlers
  import opened Invariants
  import opened EntryPoints
  import opened Cw721
  import opened Chain
  import opened Delivery
  import opened Effects
  import opened Network
  import opened Views
  import C = Custody

  // ---------- The view of a network ----------

  type Chains = map<ChainId, Chain>

  ghost function NftsOn(c: Chain): imap<Key, Nft> {
    imap k | NftAt(c, k).Some? :: NftAt(c, k).value
  }

  ghost function OutgoingOn(c: Chain): imap<Key, ChannelId> {
    Widen(c.s.outgoing)
  }

  ghost function IncomingOn(c: Chain): imap<Key, ChannelId> {
    Widen(c.s.incoming)
  }

  ghost function MetadataOn(c: Chain): imap<Key, Option<Binary>> {
    Widen(c.s.metadata)
  }

  ghost function ViewOf(n: Network, held: imap<Loc, C.Hold>): C.View {
    C.View(Lift(n.chains, NftsOn), Lift(n.chains, OutgoingOn), Lift(n.chains, IncomingOn), Lift(n.chains, MetadataOn),
           held, n.retired)
  }

  lemma NftsPut(chains: Chains, a: ChainId, c': Chain, k: Key)
    requires a in chains && forall j | j != k :: NftAt(c', j) == NftAt(chains[a], j)
    ensures Lift(chains[a := c'], NftsOn) == Put(Lift(chains, NftsOn), At(a, k), NftAt(c', k))
  {
    assert NftsOn(c') == Put(NftsOn(chains[a]), k, NftAt(c', k));
    LiftPut(chains, NftsOn, a, c', k, NftAt(c', k));
  }

  lemma NftsSame(chains: Chains, a: ChainId, c': Chain)
    requires a in chains && forall k :: NftAt(c', k) == NftAt(chains[a], k)
    ensures Lift(chains[a := c'], NftsOn) == Lift(chains, NftsOn)
  {
    assert NftsOn(c') == NftsOn(chains[a]);
    LiftSame(chains, NftsOn, a, c');
  }

  lemma MapsSame(chains: Chains, a: ChainId, c': Chain)
    requires a in chains
    requires
      && c'.s.outgoing == chains[a].s.outgoing
      && c'.s.incoming == chains[a].s.incoming
      && c'.s.metadata == chains[a].s.metadata
    ensures Lift(chains[a := c'], OutgoingOn) == Lift(chains, OutgoingOn)
    ensures Lift(chains[a := c'], IncomingOn) == Lift(chains, IncomingOn)
    ensures Lift(chains[a := c'], MetadataOn) == Lift(chains, MetadataOn)
  {
    LiftSame(chains, OutgoingOn, a, c');
    LiftSame(chains, IncomingOn, a, c');
    LiftSame(chains, MetadataOn, a, c');
  }

  // ---------- The invariant ----------

  /** Chains are in place, each with a valid bridge. */
  ghost predicate ChainsAreValid(T: Topology, chains: Chains) {
    && chains.Keys == T.envs.Keys
    && forall a {:trigger ChainIsValid(T, chains, a)} | a in chains :: ChainIsValid(T, chains, a)
  }

  ghost predicate ChainIsValid(T: Topology, chains: Chains, a: ChainId) {
    a in chains && a in T.envs && ValidChain(T.envs[a], chains[a])
  }

  predicate OneToken(d: PacketData) {
    |d.tokenIds| == 1 && Validate(d).None?
  }

  /** An open packet is one that an honest bridge sent. */
  ghost predicate GoodFlight(T: Topology, chains: Chains, f: Flight) {
    && f.src in T.peer && f.src.chain in chains && f.src.chain in T.envs
    && OneToken(f.data)
    && f.data.classId in chains[f.src.chain].s.classToNft
    && T.envs[f.src.chain].valid(f.data.sender)
  }

  ghost predicate FlightsAreGood(T: Topology, n: Network) {
    forall i {:trigger FlightIsGood(T, n.chains, n.flights, n.next, i)} | i in n.flights ::
      FlightIsGood(T, n.chains, n.flights, n.next, i)
  }

  ghost predicate FlightIsGood(T: Topology, chains: Chains, flights: map<nat, Flight>, next: nat, i: nat) {
    i in flights && i < next && GoodFlight(T, chains, flights[i])
  }

  /** The packet may still give its NFT back, or waits to burn a returned voucher. */
  ghost predicate Holds(G: C.Graph, f: Flight)
    requires OneToken(f.data)
  {
    f.status != Acked(AckSuccess) || C.CameOver(G, f.src, LocOf(f))
  }

  function StatusOf(s: FlightStatus): C.Status {
    match s
    case Undelivered => C.Undelivered
    case Acked(AckFail) => C.Failed
    case Acked(AckSuccess) => C.Redeemed
  }

  function TokenOf(d: PacketData): Token
    requires OneToken(d)
  {
    Token(d.tokenIds[0],
          if d.tokenUris.Some? then Some(d.tokenUris.value[0]) else None,
          if d.tokenData.Some? then Some(d.tokenData.value[0]) else None)
  }

  lemma TokensAre(d: PacketData)
    requires OneToken(d)
    ensures Tokens(d) == [TokenOf(d)]
  {
    TokensOfValid(d);
  }

  function HoldOf(i: nat, f: Flight): C.Hold
    requires OneToken(f.data)
  {
    C.Hold(i, f.src, TokenOf(f.data).uri, TokenOf(f.data).data, f.data.sender, StatusOf(f.status))
  }

  type Held = imap<Loc, C.Hold>

  /** `held` lists exactly the packets that hold an NFT, one per location. */
  ghost predicate HeldAgrees(G: C.Graph, flights: map<nat, Flight>, held: Held) {
    && (forall i | i in flights :: OneToken(flights[i].data))
    && (forall i | i in flights && Holds(G, flights[i]) ::
          LocOf(flights[i]) in held && held[LocOf(flights[i])] == HoldOf(i, flights[i]))
    && (forall l | l in held ::
          held[l].id in flights && Holds(G, flights[held[l].id]) && LocOf(flights[held[l].id]) == l)
  }

  ghost predicate InShape(T: Topology, n: Network, held: Held) {
    ChainsAreValid(T, n.chains) && FlightsAreGood(T, n) && HeldAgrees(GraphOf(T), n.flights, held)
  }

  ghost predicate NetInv(T: Topology, n: Network, held: Held) {
    InShape(T, n, held) && C.Inv(GraphOf(T), ViewOf(n, held))
  }

  /** A class keeps its contract. */
  ghost predicate KeepsContracts(c: Chain, c': Chain) {
    forall x | x in c.s.classToNft :: x in c'.s.classToNft && c'.s.classToNft[x] == c.s.classToNft[x]
  }

  /** What a transaction may do to its chain. */
  ghost predicate Grows(env: Env, c: Chain, c': Chain) {
    ValidChain(env, c') && KeepsContracts(c, c')
  }

  ghost predicate ContractsAreKept(chains: Chains, chains': Chains) {
    forall a {:trigger chains'[a]} {:trigger chains[a]} | a in chains ::
      a in chains' && KeepsContracts(chains[a], chains'[a])
  }

  /** The network goes from `n` to `n'` as the custody protocol does by `step`; a user starts it only at `user`. */
  ghost predicate Steps(
      T: Topology, n: Network, held: Held, step: C.Step, user: Option<Loc>, n': Network, held': Held) {
    && InShape(T, n', held')
    && (step.UserActs? || step.Sends? ==> user == Some(step.l))
    && ContractsAreKept(n.chains, n'.chains)
    && C.Enabled(GraphOf(T), ViewOf(n, held), step)
    && ViewOf(n', held') == C.Do(GraphOf(T), ViewOf(n, held), step)
  }

  lemma ChainsStep(T: Topology, chains: Chains, a: ChainId, c': Chain)
    requires ChainsAreValid(T, chains) && a in chains && ValidChain(T.envs[a], c')
    ensures ChainsAreValid(T, chains[a := c'])
  {
    var chains' := chains[a := c'];
    forall b | b in chains' ensures ChainIsValid(T, chains', b) {
      if b == a { assert chains'[b] == c'; } else { assert ChainIsValid(T, chains, b) && chains'[b] == chains[b]; }
    }
  }

  lemma FlightStep(T: Topology, chains: Chains, a: ChainId, c': Chain, f: Flight)
    requires GoodFlight(T, chains, f) && a in chains && KeepsContracts(chains[a], c')
    ensures GoodFlight(T, chains[a := c'], f)
  {
  }

  lemma ChainStep(T: Topology, n: Network, a: ChainId, c': Chain)
    requires ChainsAreValid(T, n.chains) && FlightsAreGood(T, n) && a in n.chains && Grows(T.envs[a], n.chains[a], c')
    ensures ChainsAreValid(T, n.chains[a := c'])
    ensures FlightsAreGood(T, n.(chains := n.chains[a := c']))
    ensures ContractsAreKept(n.chains, n.chains[a := c'])
  {
    ChainsStep(T, n.chains, a, c');
    forall i | i in n.flights ensures FlightIsGood(T, n.chains[a := c'], n.flights, n.next, i) {
      assert FlightIsGood(T, n.chains, n.flights, n.next, i);
      FlightStep(T, n.chains, a, c', n.flights[i]);
    }
  }

  // ---------- Packets come and go ----------

  /** An NFT is held by one packet at a time. */
  lemma HeldOnce(G: C.Graph, flights: map<nat, Flight>, held: Held, i: nat, j: nat)
    requires
      && HeldAgrees(G, flights, held)
      && i in flights
      && j in flights
      && Holds(G, flights[i])
      && Holds(G, flights[j])
    requires LocOf(flights[i]) == LocOf(flights[j])
    ensures i == j
  {
    assert held[LocOf(flights[i])].id == i && held[LocOf(flights[j])].id == j;
  }

  lemma HeldAdd(G: C.Graph, flights: map<nat, Flight>, held: Held, i: nat, f: Flight)
    requires
      && HeldAgrees(G, flights, held)
      && i !in flights
      && OneToken(f.data)
      && f.status == Undelivered
      && LocOf(f) !in held
    ensures HeldAgrees(G, flights[i := f], held[LocOf(f) := HoldOf(i, f)])
  {
  }

  lemma HeldUpdate(G: C.Graph, flights: map<nat, Flight>, held: Held, i: nat, status: FlightStatus)
    requires
      && HeldAgrees(G, flights, held)
      && i in flights
      && Holds(G, flights[i])
      && Holds(G, flights[i].(status := status))
    ensures HeldAgrees(G, flights[i := flights[i].(status := status)],
                       held[LocOf(flights[i]) := held[LocOf(flights[i])].(status := StatusOf(status))])
  {
    forall j | j in flights && j != i && Holds(G, flights[j]) ensures LocOf(flights[j]) != LocOf(flights[i]) {
      if LocOf(flights[j]) == LocOf(flights[i]) { HeldOnce(G, flights, held, i, j); }
    }
    assert held[LocOf(flights[i])].(status := StatusOf(status)) == HoldOf(i, flights[i].(status := status));
  }

  lemma HeldRelease(G: C.Graph, flights: map<nat, Flight>, held: Held, i: nat, status: FlightStatus)
    requires
      && HeldAgrees(G, flights, held)
      && i in flights
      && Holds(G, flights[i])
      && !Holds(G, flights[i].(status := status))
    ensures HeldAgrees(G, flights[i := flights[i].(status := status)], held - {LocOf(flights[i])})
  {
    forall j | j in flights && j != i && Holds(G, flights[j]) ensures LocOf(flights[j]) != LocOf(flights[i]) {
      if LocOf(flights[j]) == LocOf(flights[i]) { HeldOnce(G, flights, held, i, j); }
    }
  }

  lemma HeldRemove(G: C.Graph, flights: map<nat, Flight>, held: Held, i: nat)
    requires HeldAgrees(G, flights, held) && i in flights && Holds(G, flights[i])
    ensures HeldAgrees(G, flights - {i}, held - {LocOf(flights[i])})
  {
    forall j | j in flights && j != i && Holds(G, flights[j]) ensures LocOf(flights[j]) != LocOf(flights[i]) {
      if LocOf(flights[j]) == LocOf(flights[i]) { HeldOnce(G, flights, held, i, j); }
    }
  }

  lemma HeldForget(G: C.Graph, flights: map<nat, Flight>, held: Held, i: nat)
    requires HeldAgrees(G, flights, held) && i in flights && !Holds(G, flights[i])
    ensures HeldAgrees(G, flights - {i}, held)
  {
  }

  // ---------- Users and governance ----------

  function UserLedger(l: Ledger, id: NftId, nft: Option<Nft>): Ledger {
    match nft
    case Some(nft) => l.(nfts := l.nfts[id := nft])
    case None => l.(nfts := l.nfts - {id})
  }

  /** Where an owner or a minter leaves the network. */
  function AfterUser(T: Topology, n: Network, a: ChainId, id: NftId, nft: Option<Nft>): Network
    requires a in n.chains
  {
    var l := At(a, KeyOf(n.chains[a].s, id));
    WithLedger(n, a, UserLedger(n.chains[a].ledger, id, nft))
    .(retired := if nft.Some? then Retire(T, n, l, nft.value.owner) else n.retired + {l})
  }

  lemma UserView(T: Topology, n: Network, held: Held, a: ChainId, id: NftId, nft: Option<Nft>)
    requires
      && a in n.chains
      && a in T.envs
      && ValidChain(T.envs[a], n.chains[a])
      && id.contract in n.chains[a].ledger.collections
    ensures ViewOf(AfterUser(T, n, a, id, nft), held)
         == C.UserStep(GraphOf(T), ViewOf(n, held), At(a, KeyOf(n.chains[a].s, id)), nft)
  {
    var c := n.chains[a];
    var c' := c.(ledger := UserLedger(c.ledger, id, nft));
    UserNft(T.envs[a], c, id, nft);
    NftsPut(n.chains, a, c', KeyOf(c.s, id));
    MapsSame(n.chains, a, c');
  }

  /** What a user does to one NFT changes one key. */
  lemma UserNft(env: Env, c: Chain, id: NftId, nft: Option<Nft>)
    requires ValidChain(env, c) && id.contract in c.ledger.collections
    ensures var c' := c.(ledger := UserLedger(c.ledger, id, nft));
            NftAt(c', KeyOf(c.s, id)) == nft && forall k | k != KeyOf(c.s, id) :: NftAt(c', k) == NftAt(c, k)
  {
    LedgerEffect(env, c, c.(ledger := UserLedger(c.ledger, id, nft)), id);
  }

  lemma LedgerGrows(env: Env, c: Chain, id: NftId, nft: Option<Nft>)
    requires ValidChain(env, c) && id.contract in c.ledger.collections
    ensures Grows(env, c, c.(ledger := UserLedger(c.ledger, id, nft)))
  {
  }

  /** The steps of the custody protocol by their names. */
  lemma StepNames(G: C.Graph, v: C.View)
    ensures C.Enabled(G, v, C.Stutter) && C.Do(G, v, C.Stutter) == v
    ensures forall l, nft | C.CanUserStep(G, v, l, nft) ::
              C.Enabled(G, v, C.UserActs(l, nft)) && C.Do(G, v, C.UserActs(l, nft)) == C.UserStep(G, v, l, nft)
    ensures forall id, e, l, sender | C.CanSend(G, v, e, l) ::
              && C.Enabled(G, v, C.Sends(id, e, l, sender))
              && C.Do(G, v, C.Sends(id, e, l, sender)) == C.Send(G, v, id, e, l, sender)
  {
  }

  lemma UserSteps(T: Topology, n: Network, held: Held, a: ChainId, id: NftId, nft: Option<Nft>)
    requires InShape(T, n, held) && a in n.chains && id.contract in n.chains[a].ledger.collections
    requires C.CanUserStep(GraphOf(T), ViewOf(n, held), At(a, KeyOf(n.chains[a].s, id)), nft)
    ensures var l := At(a, KeyOf(n.chains[a].s, id));
            Steps(T, n, held, C.UserActs(l, nft), Some(l), AfterUser(T, n, a, id, nft), held)
  {
    assert ChainIsValid(T, n.chains, a);
    UserView(T, n, held, a, id, nft);
    StepNames(GraphOf(T), ViewOf(n, held));
    LedgerGrows(T.envs[a], n.chains[a], id, nft);
    ChainStep(T, n, a, n.chains[a].(ledger := UserLedger(n.chains[a].ledger, id, nft)));
  }

  /** What the view says about an NFT of the ledger. */
  lemma NftView(T: Topology, n: Network, held: Held, a: ChainId, id: NftId)
    requires
      && a in n.chains
      && a in T.envs
      && ValidChain(T.envs[a], n.chains[a])
      && id.contract in n.chains[a].ledger.collections
    ensures var l := At(a, KeyOf(n.chains[a].s, id));
            var nfts := n.chains[a].ledger.nfts;
            && (l in ViewOf(n, held).nfts <==> id in nfts)
            && (id in nfts ==> ViewOf(n, held).nfts[l] == nfts[id])
  {
    KeyOfContract(T.envs[a], n.chains[a], id);
  }

  lemma NftIs(n: Network, held: Held, a: ChainId, k: Key)
    requires a in n.chains
    ensures NftAt(n.chains[a], k) == Look(ViewOf(n, held).nfts, At(a, k))
  {
  }

  lemma NativeLoc(T: Topology, l: Loc)
    requires ValidTopology(T) && SlashFree(l.classId)
    ensures C.Native(GraphOf(T), l)
  {
    forall f ensures !C.CameOver(GraphOf(T), f, l) {
      if C.CameOver(GraphOf(T), f, l) {
        var x := Popped(T, f, l).value;
        PopIsInverse(EndpointOf(T, f), l.classId, x);
        PrefixedHasSlash(EndpointOf(T, f), x);
      }
    }
  }

  lemma OwnerCan(T: Topology, n: Network, held: Held, a: ChainId, id: NftId, nft: Option<Nft>)
    requires UserOwned(T, n, a, id) && ValidChain(T.envs[a], n.chains[a])
    requires nft.Some? ==> nft.value.uri == n.chains[a].ledger.nfts[id].uri
    ensures id.contract in n.chains[a].ledger.collections
    ensures C.CanUserStep(GraphOf(T), ViewOf(n, held), At(a, KeyOf(n.chains[a].s, id)), nft)
  {
    NftView(T, n, held, a, id);
  }

  predicate CanIssue(T: Topology, n: Network, a: ChainId, id: NftId) {
    && a in n.chains && a in T.envs && id.contract in n.chains[a].ledger.collections
    && n.chains[a].ledger.collections[id.contract].minter != T.envs[a].self && id !in n.chains[a].ledger.nfts
  }

  lemma MinterCan(T: Topology, n: Network, held: Held, a: ChainId, id: NftId, nft: Nft)
    requires ValidTopology(T) && CanIssue(T, n, a, id) && ValidChain(T.envs[a], n.chains[a])
    ensures C.CanUserStep(GraphOf(T), ViewOf(n, held), At(a, KeyOf(n.chains[a].s, id)), Some(nft))
  {
    NftView(T, n, held, a, id);
    NativeLoc(T, At(a, KeyOf(n.chains[a].s, id)));
  }

  /** What each user action does, if it is possible. */
  lemma UserActions(T: Topology, n: Network, a: ChainId, id: NftId, nft: Nft, to: Addr)
    ensures ApplyUser(T, n, Give(a, id, to)) ==
            if UserOwned(T, n, a, id)
            then AfterUser(T, n, a, id, Some(n.chains[a].ledger.nfts[id].(owner := to)))
            else n
    ensures ApplyUser(T, n, Destroy(a, id)) == if UserOwned(T, n, a, id) then AfterUser(T, n, a, id, None) else n
    ensures ApplyUser(T, n, Issue(a, id, nft)) == if CanIssue(T, n, a, id) then AfterUser(T, n, a, id, Some(nft)) else n
  {
  }

  lemma OwnerSteps(T: Topology, n: Network, held: Held, a: ChainId, id: NftId, nft: Option<Nft>)
    requires UserOwned(T, n, a, id) && InShape(T, n, held)
    requires nft.Some? ==> nft.value.uri == n.chains[a].ledger.nfts[id].uri
    ensures var l := At(a, KeyOf(n.chains[a].s, id));
            Steps(T, n, held, C.UserActs(l, nft), Some(l), AfterUser(T, n, a, id, nft), held)
  {
    assert ChainIsValid(T, n.chains, a);
    OwnerCan(T, n, held, a, id, nft);
    UserSteps(T, n, held, a, id, nft);
  }

  lemma MinterSteps(T: Topology, n: Network, held: Held, a: ChainId, id: NftId, nft: Nft)
    requires ValidTopology(T) && CanIssue(T, n, a, id) && InShape(T, n, held)
    ensures var l := At(a, KeyOf(n.chains[a].s, id));
            Steps(T, n, held, C.UserActs(l, Some(nft)), Some(l), AfterUser(T, n, a, id, Some(nft)), held)
  {
    assert ChainIsValid(T, n.chains, a);
    MinterCan(T, n, held, a, id, nft);
    UserSteps(T, n, held, a, id, Some(nft));
  }

  /** A transaction that shows nothing to the custody protocol. */
  ghost predicate Quiet(c: Chain, c': Chain) {
    && (forall k :: NftAt(c', k) == NftAt(c, k))
    && c'.s.outgoing == c.s.outgoing && c'.s.incoming == c.s.incoming && c'.s.metadata == c.s.metadata
  }

  lemma QuietView(n: Network, held: Held, a: ChainId, c': Chain)
    requires a in n.chains && Quiet(n.chains[a], c')
    ensures ViewOf(n.(chains := n.chains[a := c']), held) == ViewOf(n, held)
  {
    NftsSame(n.chains, a, c');
    MapsSame(n.chains, a, c');
  }

  lemma QuietSteps(T: Topology, n: Network, held: Held, a: ChainId, c': Chain)
    requires InShape(T, n, held) && a in n.chains && Quiet(n.chains[a], c') && Grows(T.envs[a], n.chains[a], c')
    ensures Steps(T, n, held, C.Stutter, None, n.(chains := n.chains[a := c']), held)
  {
    QuietView(n, held, a, c');
    StepNames(GraphOf(T), ViewOf(n, held));
    ChainStep(T, n, a, c');
  }

  function AfterFound(c: Chain, contract: Addr, collection: Collection): Chain {
    c.(ledger := c.ledger.(collections := c.ledger.collections[contract := collection]))
  }

  lemma FoundIsQuiet(env: Env, c: Chain, contract: Addr, collection: Collection)
    requires ValidChain(env, c) && contract !in c.ledger.collections && contract != env.self && IsAddress(contract)
    ensures Quiet(c, AfterFound(c, contract, collection)) && Grows(env, c, AfterFound(c, contract, collection))
  {
  }

  lemma FoundSteps(T: Topology, n: Network, held: Held, a: ChainId, contract: Addr, collection: Collection)
    requires InShape(T, n, held)
    ensures Steps(T, n, held, C.Stutter, None, ApplyUser(T, n, Found(a, contract, collection)), held)
  {
    if ApplyUser(T, n, Found(a, contract, collection)) != n {
      assert ChainIsValid(T, n.chains, a);
      FoundIsQuiet(T.envs[a], n.chains[a], contract, collection);
      QuietSteps(T, n, held, a, AfterFound(n.chains[a], contract, collection));
    }
  }

  lemma SettingsAreQuiet(env: Env, c: Chain, s': Storage)
    requires ValidChain(env, c) && s' == c.s.(po := s'.po, proxy := s'.proxy)
    ensures Quiet(c, c.(s := s')) && Grows(env, c, c.(s := s'))
  {
  }

  lemma SettingsSteps(T: Topology, n: Network, held: Held, a: ChainId, s': Storage)
    requires InShape(T, n, held) && a in n.chains && s' == n.chains[a].s.(po := s'.po, proxy := s'.proxy)
    ensures Steps(T, n, held, C.Stutter, None, WithStorage(n, a, s'), held)
  {
    assert ChainIsValid(T, n.chains, a);
    SettingsAreQuiet(T.envs[a], n.chains[a], s');
    QuietSteps(T, n, held, a, n.chains[a].(s := s'));
  }

  lemma GovernanceActs(T: Topology, n: Network, act: Move)
    requires act.PauseBridge? || act.MigrateBridge?
    ensures || ApplyGovernance(T, n, act) == n
            || (act.chain in n.chains
                && exists po, proxy :: ApplyGovernance(T, n, act)
                                    == WithStorage(n, act.chain, n.chains[act.chain].s.(po := po, proxy := proxy)))
  {
    if ApplyGovernance(T, n, act) != n {
      var s := n.chains[act.chain].s;
      match act {
        case PauseBridge(_, sender) =>
          PauseIs(T.envs[act.chain], s, sender, World(None, ""));
          assert s.(po := PauseState(None, true)) == s.(po := PauseState(None, true), proxy := s.proxy);
        case MigrateBridge(_, pauser, proxy) =>
          MigrateIs(T.envs[act.chain], s, pauser, proxy);
      }
    }
  }

  // ---------- Sending ----------

  /** The packet a send puts on the wire. */
  lemma SendFlight(env: Env, c: Chain, a: ChainId, id: NftId, actor: Addr, msg: OutgoingMsg, i: nat)
    requires ValidChain(env, c) && UserSend(env, c, id, actor, msg).Some?
    ensures var (c', p) := UserSend(env, c, id, actor, msg).value;
            var k := KeyOf(c.s, id);
            var f := Flight(C.End(a, msg.channel), p.data, Undelivered);
            && id in c.ledger.nfts && c.ledger.nfts[id].owner != env.self
            && OneToken(p.data) && LocOf(f) == At(a, k) && f.data.sender == actor && env.valid(actor)
            && HoldOf(i, f) ==
                 C.Hold(i, f.src, c.ledger.nfts[id].uri, FlatLookup(c.s.metadata, k), actor, C.Undelivered)
            && Grows(env, c, c') && p.data.classId in c'.s.classToNft
  {
    UserSendStorage(env, c, id, actor, msg);
    UserSendEffect(env, c, id, actor, msg);
    TokensAre(UserSend(env, c, id, actor, msg).value.1.data);
  }

  lemma SendView(T: Topology, n: Network, held: Held, a: ChainId, k: Key, c': Chain, e: End, h: C.Hold)
    requires a in n.chains && a in T.envs && e.chain == a
    requires var c := n.chains[a];
             && NftAt(c, k).Some? && NftAt(c', k) == Some(NftAt(c, k).value.(owner := T.envs[a].self))
             && (forall j | j != k :: NftAt(c', j) == NftAt(c, j))
             && c'.s.outgoing == c.s.outgoing[k := e.channel]
             && c'.s.incoming == c.s.incoming && c'.s.metadata == c.s.metadata
             && h == C.Hold(h.id, e, NftAt(c, k).value.uri, FlatLookup(c.s.metadata, k), h.sender, C.Undelivered)
    requires NftAt(n.chains[a], k).value.owner != T.envs[a].self && e in T.peer
    ensures C.CanSend(GraphOf(T), ViewOf(n, held), e, At(a, k))
    ensures ViewOf(n.(chains := n.chains[a := c']), held[At(a, k) := h])
         == C.Send(GraphOf(T), ViewOf(n, held), h.id, e, At(a, k), h.sender)
  {
    NftsPut(n.chains, a, c', k);
    WidenPut(n.chains[a].s.outgoing, k, e.channel);
    LiftPut(n.chains, OutgoingOn, a, c', k, Some(e.channel));
    LiftSame(n.chains, IncomingOn, a, c');
    LiftSame(n.chains, MetadataOn, a, c');
    assert C.Data(ViewOf(n, held).metadata, At(a, k)) == FlatLookup(n.chains[a].s.metadata, k);
  }

  /** Where a committed send leaves the network. */
  function AfterSend(n: Network, a: ChainId, c': Chain, f: Flight): Network {
    n.(chains := n.chains[a := c'], flights := n.flights[n.next := f], next := n.next + 1)
  }

  /** A committed send is a `Send` of the custody protocol. */
  ghost predicate IsSend(T: Topology, n: Network, held: Held, a: ChainId, c': Chain, f: Flight) {
    && OneToken(f.data) && f.status == Undelivered && f.src in T.peer && f.src.chain == a
    && var step := C.Sends(n.next, f.src, LocOf(f), f.data.sender);
    && C.Enabled(GraphOf(T), ViewOf(n, held), step)
    && ViewOf(AfterSend(n, a, c', f), held[LocOf(f) := HoldOf(n.next, f)]) == C.Do(GraphOf(T), ViewOf(n, held), step)
  }

  lemma SendIsSend(
      T: Topology, n: Network, held: Held, a: ChainId, id: NftId, actor: Addr, msg: OutgoingMsg, c': Chain, f: Flight)
    requires a in n.chains && a in T.envs && ValidChain(T.envs[a], n.chains[a])
    requires UserSend(T.envs[a], n.chains[a], id, actor, msg) == Some((c', SendPacket(msg.channel, f.data)))
    requires f.src == C.End(a, msg.channel) && f.src in T.peer && f.status == Undelivered
    ensures IsSend(T, n, held, a, c', f)
  {
    var env, c := T.envs[a], n.chains[a];
    SendFlight(env, c, a, id, actor, msg, n.next);
    UserSendEffect(env, c, id, actor, msg);
    SendView(T, n, held, a, KeyOf(c.s, id), c', f.src, HoldOf(n.next, f));
    StepNames(GraphOf(T), ViewOf(n, held));
  }

  lemma SendFlightsGood(T: Topology, n: Network, a: ChainId, c': Chain, f: Flight)
    requires ChainsAreValid(T, n.chains) && FlightsAreGood(T, n) && a in n.chains && Grows(T.envs[a], n.chains[a], c')
    requires f.src in T.peer && f.src.chain == a && OneToken(f.data) && f.data.classId in c'.s.classToNft
    requires T.envs[a].valid(f.data.sender)
    ensures ChainsAreValid(T, n.chains[a := c']) && FlightsAreGood(T, AfterSend(n, a, c', f))
    ensures ContractsAreKept(n.chains, n.chains[a := c'])
  {
    ChainStep(T, n, a, c');
    var n1 := n.(chains := n.chains[a := c']);
    forall i | i in n.flights ensures FlightIsGood(T, n1.chains, n.flights[n.next := f], n.next + 1, i) || i == n.next {
      assert FlightIsGood(T, n1.chains, n.flights, n.next, i);
    }
  }

  lemma FreeIsNotHeld(G: C.Graph, v: C.View, step: C.Step)
    requires C.Inv(G, v) && step.Sends? && C.Enabled(G, v, step)
    ensures step.l !in v.held
  {
  }

  lemma SendHeld(T: Topology, n: Network, held: Held, a: ChainId, c': Chain, f: Flight)
    requires C.Inv(GraphOf(T), ViewOf(n, held)) && IsSend(T, n, held, a, c', f)
    requires HeldAgrees(GraphOf(T), n.flights, held) && FlightsAreGood(T, n)
    ensures HeldAgrees(GraphOf(T), n.flights[n.next := f], held[LocOf(f) := HoldOf(n.next, f)])
  {
    assert n.next in n.flights ==> FlightIsGood(T, n.chains, n.flights, n.next, n.next);
    FreeIsNotHeld(GraphOf(T), ViewOf(n, held), C.Sends(n.next, f.src, LocOf(f), f.data.sender));
    HeldAdd(GraphOf(T), n.flights, held, n.next, f);
  }

  lemma SendSteps(
      T: Topology, n: Network, held: Held, a: ChainId, id: NftId, actor: Addr, msg: OutgoingMsg, c': Chain, f: Flight)
    requires
      && a in n.chains
      && a in T.envs
      && f.src == C.End(a, msg.channel)
      && f.src in T.peer
      && f.status == Undelivered
    requires UserSend(T.envs[a], n.chains[a], id, actor, msg) == Some((c', SendPacket(msg.channel, f.data)))
    requires NetInv(T, n, held)
    ensures OneToken(f.data) && LocOf(f) == At(a, KeyOf(n.chains[a].s, id))
    ensures Steps(T, n, held, C.Sends(n.next, f.src, LocOf(f), f.data.sender), Some(At(a, KeyOf(n.chains[a].s, id))),
                  AfterSend(n, a, c', f), held[LocOf(f) := HoldOf(n.next, f)])
  {
    assert ChainIsValid(T, n.chains, a);
    SendFlight(T.envs[a], n.chains[a], a, id, actor, msg, n.next);
    SendIsSend(T, n, held, a, id, actor, msg, c', f);
    SendFlightsGood(T, n, a, c', f);
    SendHeld(T, n, held, a, c', f);
  }

  // ---------- Relaying ----------

  /** The packet is open, in this stage, and its chains are in place. */
  ghost predicate InFlight(T: Topology, n: Network, i: nat, status: FlightStatus) {
    && CanRelay(T, n, i) && n.flights[i].status == status && OneToken(n.flights[i].data)
  }

  /** A packet's route is an edge of the voucher graph. */
  lemma RouteIsEdge(T: Topology, f: Flight)
    requires f.src in T.peer && OneToken(f.data)
    ensures var r := PacketRoute(PacketOf(T, f));
            var b := T.peer[f.src].chain;
            var t := f.data.tokenIds[0];
            && C.Voucher(GraphOf(T), f.src, LocOf(f)) == At(b, Key(r.prefixed, t))
            && r.channel == T.peer[f.src].channel
            && (C.CameOver(GraphOf(T), f.src, LocOf(f)) <==> r.local.Some?)
            && (r.local.Some? ==> C.Edge(GraphOf(T), f.src, LocOf(f), At(b, Key(r.local.value, t))))
  {
  }

  /** A packet that holds an NFT is the hold of its location. */
  lemma FlightIsHeld(T: Topology, n: Network, held: Held, i: nat)
    requires HeldAgrees(GraphOf(T), n.flights, held) && i in n.flights && Holds(GraphOf(T), n.flights[i])
    ensures LocOf(n.flights[i]) in held && held[LocOf(n.flights[i])] == HoldOf(i, n.flights[i])
  {
  }

  /** The parent of a voucher on its way home is locked there, and OUTGOING names the channel it comes back on. */
  lemma ReturnIsBacked(G: C.Graph, v: C.View, c: Loc, l: Loc)
    requires C.ValidGraph(G) && C.Inv(G, v) && C.CanRedeem(G, v, c, l)
    ensures C.Locked(G, v.nfts, l)
    ensures l in v.outgoing && v.outgoing[l] == G.peer[v.held[c].src].channel && l.chain == G.peer[v.held[c].src].chain
  {
    C.LiveParent(G, v, v.held[c].src, c, l);
  }

  /** The same, in terms of the chain. */
  lemma LockedOn(T: Topology, n: Network, held: Held, b: ChainId, k: Key)
    requires b in n.chains && b in T.envs && C.Locked(GraphOf(T), ViewOf(n, held).nfts, At(b, k))
    ensures NftAt(n.chains[b], k).Some? && NftAt(n.chains[b], k).value.owner == T.envs[b].self
  {
  }

  lemma OutgoingIs(n: Network, held: Held, b: ChainId, k: Key)
    requires b in n.chains && At(b, k) in ViewOf(n, held).outgoing
    ensures k in n.chains[b].s.outgoing && n.chains[b].s.outgoing[k] == ViewOf(n, held).outgoing[At(b, k)]
  {
  }

  lemma ReturnCanRedeem(T: Topology, n: Network, held: Held, i: nat)
    requires HeldAgrees(GraphOf(T), n.flights, held) && InFlight(T, n, i, Undelivered)
    requires PacketRoute(PacketOf(T, n.flights[i])).local.Some?
    ensures var f := n.flights[i];
            var k := Key(PacketRoute(PacketOf(T, f)).local.value, f.data.tokenIds[0]);
            && C.CanRedeem(GraphOf(T), ViewOf(n, held), LocOf(f), At(T.peer[f.src].chain, k))
            && held[LocOf(f)].src == f.src
  {
    RouteIsEdge(T, n.flights[i]);
    FlightIsHeld(T, n, held, i);
  }

  /** So the receiving bridge takes the redemption branch, and owns what it has to give back. */
  lemma ReturnIsHonoured(T: Topology, n: Network, held: Held, i: nat)
    requires ValidTopology(T) && C.Inv(GraphOf(T), ViewOf(n, held)) && HeldAgrees(GraphOf(T), n.flights, held)
    requires InFlight(T, n, i, Undelivered) && PacketRoute(PacketOf(T, n.flights[i])).local.Some?
    ensures var f := n.flights[i];
            var c := n.chains[T.peer[f.src].chain];
            var r := PacketRoute(PacketOf(T, f));
            var k := Key(r.local.value, f.data.tokenIds[0]);
            && Returns(r, c.s.outgoing, k.tokenId)
            && NftAt(c, k).Some? && NftAt(c, k).value.owner == T.envs[T.peer[f.src].chain].self
  {
    var f := n.flights[i];
    var b := T.peer[f.src].chain;
    var k := Key(PacketRoute(PacketOf(T, f)).local.value, f.data.tokenIds[0]);
    ReturnCanRedeem(T, n, held, i);
    GraphIsValid(T);
    ReturnIsBacked(GraphOf(T), ViewOf(n, held), LocOf(f), At(b, k));
    LockedOn(T, n, held, b, k);
    OutgoingIs(n, held, b, k);
  }

  /** Where a delivery leaves the network. */
  function AfterRelay(T: Topology, n: Network, i: nat, c': Chain, ack: Ack, retired: set<Loc>): Network
    requires InFlight(T, n, i, Undelivered)
  {
    n.(chains := n.chains[T.peer[n.flights[i].src].chain := c'],
       flights := n.flights[i := n.flights[i].(status := Acked(ack))],
       retired := retired)
  }

  lemma RelayFlightsGood(T: Topology, n: Network, i: nat, c': Chain, ack: Ack, retired: set<Loc>)
    requires ChainsAreValid(T, n.chains) && FlightsAreGood(T, n) && InFlight(T, n, i, Undelivered)
    requires var b := T.peer[n.flights[i].src].chain; Grows(T.envs[b], n.chains[b], c')
    ensures ChainsAreValid(T, AfterRelay(T, n, i, c', ack, retired).chains)
    ensures FlightsAreGood(T, AfterRelay(T, n, i, c', ack, retired))
    ensures ContractsAreKept(n.chains, AfterRelay(T, n, i, c', ack, retired).chains)
  {
    var b := T.peer[n.flights[i].src].chain;
    ChainStep(T, n, b, c');
    forall j | j in n.flights
      ensures FlightIsGood(T, n.chains[b := c'], n.flights[i := n.flights[i].(status := Acked(ack))], n.next, j)
    {
      assert FlightIsGood(T, n.chains[b := c'], n.flights, n.next, j);
    }
  }

  /** The bridge gives an NFT away and forgets its OUTGOING entry. */
  lemma GivenView(T: Topology, n: Network, held: Held, b: ChainId, k: Key, c': Chain, to: Addr)
    requires b in n.chains && b in T.envs
    requires var c := n.chains[b];
             && NftAt(c, k).Some? && NftAt(c', k) == Some(NftAt(c, k).value.(owner := to))
             && (forall j | j != k :: NftAt(c', j) == NftAt(c, j))
             && c'.s == c.s.(outgoing := c.s.outgoing - {k})
    ensures At(b, k) in ViewOf(n, held).nfts
    ensures var v := ViewOf(n, held);
            ViewOf(n.(chains := n.chains[b := c']), held)
            == v.(nfts := v.nfts[At(b, k) := v.nfts[At(b, k)].(owner := to)], outgoing := v.outgoing - {At(b, k)})
  {
    NftsPut(n.chains, b, c', k);
    WidenRemove(n.chains[b].s.outgoing, k);
    LiftPut(n.chains, OutgoingOn, b, c', k, None);
    LiftSame(n.chains, IncomingOn, b, c');
    LiftSame(n.chains, MetadataOn, b, c');
  }

  lemma RetireAgrees(T: Topology, n: Network, held: Held, l: Loc, owner: Addr)
    requires l.chain in T.envs
    ensures C.Retire(GraphOf(T), ViewOf(n, held), l, owner) == Retire(T, n, l, owner)
  {
  }

  /** A delivery that redeems is a `Redeem` of the custody protocol. */
  lemma RelayIsRedeem(T: Topology, n: Network, held: Held, i: nat, k: Key, c': Chain)
    requires InFlight(T, n, i, Undelivered) && LocOf(n.flights[i]) in held
    requires var f := n.flights[i];
             var v := ViewOf(n, held);
             var l := At(T.peer[f.src].chain, k);
             && l in v.nfts
             && ViewOf(n.(chains := n.chains[T.peer[f.src].chain := c']), held)
                == v.(nfts := v.nfts[l := v.nfts[l].(owner := f.data.receiver)], outgoing := v.outgoing - {l})
    ensures var f := n.flights[i];
            var l := At(T.peer[f.src].chain, k);
            var held' := held[LocOf(f) := held[LocOf(f)].(status := C.Redeemed)];
            ViewOf(AfterRelay(T, n, i, c', AckSuccess, Retire(T, n, l, f.data.receiver)), held')
            == C.Redeem(GraphOf(T), ViewOf(n, held), LocOf(f), l, f.data.receiver)
  {
    RetireAgrees(T, n, held, At(T.peer[n.flights[i].src].chain, k), n.flights[i].data.receiver);
  }

  /** What the receiving chain does with an open packet. */
  function Delivered(T: Topology, n: Network, i: nat, newAddr: Addr): (Chain, Ack)
    requires CanRelay(T, n, i)
  {
    var b := T.peer[n.flights[i].src].chain;
    Deliver(T.envs[b], n.chains[b], PacketOf(T, n.flights[i]), newAddr)
  }

  predicate Accepted(T: Topology, n: Network, i: nat)
    requires CanRelay(T, n, i)
  {
    var b := T.peer[n.flights[i].src].chain;
    PacketError(T.envs[b], n.chains[b].s, PacketOf(T, n.flights[i])).None?
  }

  /** The packet's token under the key that the receiving chain strips or prefixes. */
  function HomeKey(T: Topology, f: Flight): Key
    requires f.src in T.peer && OneToken(f.data) && PacketRoute(PacketOf(T, f)).local.Some?
  {
    Key(PacketRoute(PacketOf(T, f)).local.value, f.data.tokenIds[0])
  }

  function VoucherKey(T: Topology, f: Flight): Key
    requires f.src in T.peer && OneToken(f.data)
  {
    Key(PacketRoute(PacketOf(T, f)).prefixed, f.data.tokenIds[0])
  }

  ghost predicate Redeems(T: Topology, n: Network, i: nat, k: Key, c': Chain)
    requires CanRelay(T, n, i)
  {
    var f := n.flights[i];
    var b := T.peer[f.src].chain;
    var c := n.chains[b];
    && NftAt(c, k).Some? && NftAt(c', k) == Some(NftAt(c, k).value.(owner := f.data.receiver))
    && (forall j | j != k :: NftAt(c', j) == NftAt(c, j))
    && c'.s == c.s.(outgoing := c.s.outgoing - {k})
  }

  lemma DeliveryRedeems(T: Topology, n: Network, i: nat, newAddr: Addr)
    requires InFlight(T, n, i, Undelivered) && Accepted(T, n, i) && PacketRoute(PacketOf(T, n.flights[i])).local.Some?
    requires var f := n.flights[i];
             var b := T.peer[f.src].chain;
             var k := HomeKey(T, f);
             && ValidChain(T.envs[b], n.chains[b])
             && Returns(PacketRoute(PacketOf(T, f)), n.chains[b].s.outgoing, k.tokenId)
             && NftAt(n.chains[b], k).Some? && NftAt(n.chains[b], k).value.owner == T.envs[b].self
    ensures var f := n.flights[i];
            var b := T.peer[f.src].chain;
            var (c', ack) := Delivered(T, n, i, newAddr);
            ack == AckSuccess && Grows(T.envs[b], n.chains[b], c') && Redeems(T, n, i, HomeKey(T, f), c')
  {
    var f := n.flights[i];
    var b := T.peer[f.src].chain;
    TokensAre(f.data);
    RedeemEffect(T.envs[b], n.chains[b], PacketOf(T, f), TokenOf(f.data), newAddr);
  }

  ghost function AfterRedeem(T: Topology, n: Network, i: nat, c': Chain): Network
    requires InFlight(T, n, i, Undelivered) && PacketRoute(PacketOf(T, n.flights[i])).local.Some?
  {
    var f := n.flights[i];
    AfterRelay(T, n, i, c', AckSuccess, Retire(T, n, At(T.peer[f.src].chain, HomeKey(T, f)), f.data.receiver))
  }

  lemma RedeemHeld(T: Topology, n: Network, held: Held, i: nat)
    requires HeldAgrees(GraphOf(T), n.flights, held)
    requires InFlight(T, n, i, Undelivered) && PacketRoute(PacketOf(T, n.flights[i])).local.Some?
    ensures var f := n.flights[i];
            && LocOf(f) in held
            && HeldAgrees(GraphOf(T), n.flights[i := f.(status := Acked(AckSuccess))],
                          held[LocOf(f) := held[LocOf(f)].(status := C.Redeemed)])
  {
    RouteIsEdge(T, n.flights[i]);
    HeldUpdate(GraphOf(T), n.flights, held, i, Acked(AckSuccess));
  }

  /** A delivery that redeems is a `Redeem` of the custody protocol. */
  lemma RedeemView(T: Topology, n: Network, held: Held, i: nat, c': Chain)
    requires InFlight(T, n, i, Undelivered) && PacketRoute(PacketOf(T, n.flights[i])).local.Some?
    requires Redeems(T, n, i, HomeKey(T, n.flights[i]), c') && HeldAgrees(GraphOf(T), n.flights, held)
    ensures var f := n.flights[i];
            var step := C.Redeems(LocOf(f), At(T.peer[f.src].chain, HomeKey(T, f)), f.data.receiver);
            && LocOf(f) in held
            && C.Enabled(GraphOf(T), ViewOf(n, held), step)
            && ViewOf(AfterRedeem(T, n, i, c'), held[LocOf(f) := held[LocOf(f)].(status := C.Redeemed)])
               == C.Do(GraphOf(T), ViewOf(n, held), step)
  {
    var f := n.flights[i];
    ReturnCanRedeem(T, n, held, i);
    GivenView(T, n, held, T.peer[f.src].chain, HomeKey(T, f), c', f.data.receiver);
    RelayIsRedeem(T, n, held, i, HomeKey(T, f), c');
  }

  lemma RedeemSteps(T: Topology, n: Network, held: Held, i: nat, newAddr: Addr)
    requires InFlight(T, n, i, Undelivered) && Accepted(T, n, i) && PacketRoute(PacketOf(T, n.flights[i])).local.Some?
    requires ValidTopology(T) && NetInv(T, n, held)
    ensures Delivered(T, n, i, newAddr).1 == AckSuccess
    ensures var f := n.flights[i];
            && LocOf(f) in held
            && Steps(T, n, held, C.Redeems(LocOf(f), At(T.peer[f.src].chain, HomeKey(T, f)), f.data.receiver), None,
                     AfterRedeem(T, n, i, Delivered(T, n, i, newAddr).0),
                     held[LocOf(f) := held[LocOf(f)].(status := C.Redeemed)])
  {
    var c' := Delivered(T, n, i, newAddr).0;
    assert ChainIsValid(T, n.chains, T.peer[n.flights[i].src].chain);
    ReturnIsHonoured(T, n, held, i);
    DeliveryRedeems(T, n, i, newAddr);
    RedeemView(T, n, held, i, c');
    RedeemHeld(T, n, held, i);
    RelayFlightsGood(T, n, i, c', AckSuccess, AfterRedeem(T, n, i, c').retired);
  }

  // A delivery that creates.

  ghost predicate CreatesAt(T: Topology, n: Network, i: nat, c': Chain)
    requires CanRelay(T, n, i) && OneToken(n.flights[i].data)
  {
    var f := n.flights[i];
    var c := n.chains[T.peer[f.src].chain];
    var k := VoucherKey(T, f);
    && NftAt(c, k) == None && NftAt(c', k) == Some(Nft(f.data.receiver, TokenOf(f.data).uri))
    && (forall j | j != k :: NftAt(c', j) == NftAt(c, j))
    && c'.s.outgoing == c.s.outgoing
    && c'.s.incoming == c.s.incoming[k := T.peer[f.src].channel]
    && c'.s.metadata == c.s.metadata[k := TokenOf(f.data).data]
  }

  lemma DeliveryCreates(T: Topology, n: Network, i: nat, newAddr: Addr)
    requires InFlight(T, n, i, Undelivered) && Accepted(T, n, i) && PacketRoute(PacketOf(T, n.flights[i])).local.None?
    requires var b := T.peer[n.flights[i].src].chain; ValidChain(T.envs[b], n.chains[b])
    requires Delivered(T, n, i, newAddr).1 == AckSuccess
    ensures var b := T.peer[n.flights[i].src].chain;
            var c' := Delivered(T, n, i, newAddr).0;
            Grows(T.envs[b], n.chains[b], c') && CreatesAt(T, n, i, c')
  {
    var f := n.flights[i];
    var b := T.peer[f.src].chain;
    TokensAre(f.data);
    CreateEffect(T.envs[b], n.chains[b], PacketOf(T, f), TokenOf(f.data), newAddr);
    CreateKeepsContracts(T.envs[b], n.chains[b], PacketOf(T, f), TokenOf(f.data), newAddr);
  }

  ghost function AfterCreate(T: Topology, n: Network, i: nat, c': Chain): Network
    requires InFlight(T, n, i, Undelivered)
  {
    var f := n.flights[i];
    AfterRelay(T, n, i, c', AckSuccess, Retire(T, n, At(T.peer[f.src].chain, VoucherKey(T, f)), f.data.receiver))
  }

  lemma CreateView(T: Topology, n: Network, held: Held, i: nat, c': Chain)
    requires InFlight(T, n, i, Undelivered) && CreatesAt(T, n, i, c')
    ensures var f := n.flights[i];
            var v := ViewOf(n, held);
            var b := T.peer[f.src].chain;
            var l := At(b, VoucherKey(T, f));
            && l !in v.nfts
            && ViewOf(n.(chains := n.chains[b := c']), held)
               == v.(nfts := v.nfts[l := Nft(f.data.receiver, TokenOf(f.data).uri)],
                     incoming := v.incoming[l := T.peer[f.src].channel],
                     metadata := v.metadata[l := TokenOf(f.data).data])
  {
    var f := n.flights[i];
    var b := T.peer[f.src].chain;
    var k := VoucherKey(T, f);
    NftsPut(n.chains, b, c', k);
    LiftSame(n.chains, OutgoingOn, b, c');
    WidenPut(n.chains[b].s.incoming, k, T.peer[f.src].channel);
    LiftPut(n.chains, IncomingOn, b, c', k, Some(T.peer[f.src].channel));
    WidenPut(n.chains[b].s.metadata, k, TokenOf(f.data).data);
    LiftPut(n.chains, MetadataOn, b, c', k, Some(TokenOf(f.data).data));
  }

  /** A delivery that creates is a `Create` of the custody protocol. */
  lemma RelayIsCreate(T: Topology, n: Network, held: Held, i: nat, c': Chain)
    requires
      && InFlight(T, n, i, Undelivered)
      && CreatesAt(T, n, i, c')
      && PacketRoute(PacketOf(T, n.flights[i])).local.None?
    requires HeldAgrees(GraphOf(T), n.flights, held)
    ensures var f := n.flights[i];
            && C.Enabled(GraphOf(T), ViewOf(n, held), C.Creates(LocOf(f), f.data.receiver))
            && ViewOf(AfterCreate(T, n, i, c'), held - {LocOf(f)})
               == C.Do(GraphOf(T), ViewOf(n, held), C.Creates(LocOf(f), f.data.receiver))
  {
    var f := n.flights[i];
    RouteIsEdge(T, f);
    FlightIsHeld(T, n, held, i);
    CreateView(T, n, held, i, c');
    RetireAgrees(T, n, held, At(T.peer[f.src].chain, VoucherKey(T, f)), f.data.receiver);
  }

  lemma CreateHeld(T: Topology, n: Network, held: Held, i: nat)
    requires HeldAgrees(GraphOf(T), n.flights, held)
    requires InFlight(T, n, i, Undelivered) && PacketRoute(PacketOf(T, n.flights[i])).local.None?
    ensures var f := n.flights[i];
            HeldAgrees(GraphOf(T), n.flights[i := f.(status := Acked(AckSuccess))], held - {LocOf(f)})
  {
    RouteIsEdge(T, n.flights[i]);
    HeldRelease(GraphOf(T), n.flights, held, i, Acked(AckSuccess));
  }

  lemma CreateSteps(T: Topology, n: Network, held: Held, i: nat, c': Chain)
    requires InFlight(T, n, i, Undelivered) && PacketRoute(PacketOf(T, n.flights[i])).local.None?
    requires var b := T.peer[n.flights[i].src].chain; b in T.envs && Grows(T.envs[b], n.chains[b], c')
    requires CreatesAt(T, n, i, c') && InShape(T, n, held)
    ensures var f := n.flights[i];
            Steps(T, n, held, C.Creates(LocOf(f), f.data.receiver), None, AfterCreate(T, n, i, c'), held - {LocOf(f)})
  {
    RelayFlightsGood(T, n, i, c', AckSuccess, AfterCreate(T, n, i, c').retired);
    CreateHeld(T, n, held, i);
    RelayIsCreate(T, n, held, i, c');
  }

  // A delivery that ends in an error ack.

  /** Nothing but the handler's INCOMING entry may be left behind. */
  function Rejecting(T: Topology, n: Network, i: nat, saved: bool): Chain
    requires CanRelay(T, n, i) && OneToken(n.flights[i].data)
  {
    var f := n.flights[i];
    var c := n.chains[T.peer[f.src].chain];
    if saved then c.(s := c.s.(incoming := c.s.incoming[VoucherKey(T, f) := T.peer[f.src].channel])) else c
  }

  lemma DeliveryRejects(T: Topology, n: Network, i: nat, newAddr: Addr)
    requires InFlight(T, n, i, Undelivered) && Delivered(T, n, i, newAddr).1 == AckFail
    requires Accepted(T, n, i) ==> PacketRoute(PacketOf(T, n.flights[i])).local.None?
    ensures Delivered(T, n, i, newAddr).0 == Rejecting(T, n, i, Accepted(T, n, i))
  {
    var f := n.flights[i];
    var b := T.peer[f.src].chain;
    TokensAre(f.data);
    if Accepted(T, n, i) {
      CreateDelivers(T.envs[b], n.chains[b], PacketOf(T, f), TokenOf(f.data), newAddr);
    }
  }

  lemma RejectingGrows(T: Topology, n: Network, i: nat, newAddr: Addr)
    requires InFlight(T, n, i, Undelivered)
    requires var b := T.peer[n.flights[i].src].chain; ValidChain(T.envs[b], n.chains[b])
    requires Delivered(T, n, i, newAddr).1 == AckFail
    ensures var b := T.peer[n.flights[i].src].chain; Grows(T.envs[b], n.chains[b], Delivered(T, n, i, newAddr).0)
  {
    var f := n.flights[i];
    var b := T.peer[f.src].chain;
    DeliverKeepsValid(T.envs[b], n.chains[b], PacketOf(T, f), newAddr);
    FailedAckRollsBack(T.envs[b], n.chains[b], PacketOf(T, f), newAddr);
  }

  lemma RejectView(T: Topology, n: Network, held: Held, i: nat, saved: bool)
    requires InFlight(T, n, i, Undelivered)
    ensures var f := n.flights[i];
            var b := T.peer[f.src].chain;
            var v := ViewOf(n, held);
            ViewOf(n.(chains := n.chains[b := Rejecting(T, n, i, saved)]), held)
            == v.(incoming := if saved then v.incoming[At(b, VoucherKey(T, f)) := T.peer[f.src].channel]
                              else v.incoming)
  {
    var f := n.flights[i];
    var b := T.peer[f.src].chain;
    var c' := Rejecting(T, n, i, saved);
    NftsSame(n.chains, b, c');
    LiftSame(n.chains, OutgoingOn, b, c');
    LiftSame(n.chains, MetadataOn, b, c');
    if saved {
      WidenPut(n.chains[b].s.incoming, VoucherKey(T, f), T.peer[f.src].channel);
      LiftPut(n.chains, IncomingOn, b, c', VoucherKey(T, f), Some(T.peer[f.src].channel));
    } else {
      LiftSame(n.chains, IncomingOn, b, c');
    }
  }

  lemma RelayIsReject(T: Topology, n: Network, held: Held, i: nat, saved: bool)
    requires InFlight(T, n, i, Undelivered) && HeldAgrees(GraphOf(T), n.flights, held)
    ensures var f := n.flights[i];
            && LocOf(f) in held
            && C.Enabled(GraphOf(T), ViewOf(n, held), C.Rejects(LocOf(f), saved))
            && ViewOf(AfterRelay(T, n, i, Rejecting(T, n, i, saved), AckFail, n.retired),
                      held[LocOf(f) := held[LocOf(f)].(status := C.Failed)])
               == C.Do(GraphOf(T), ViewOf(n, held), C.Rejects(LocOf(f), saved))
  {
    RouteIsEdge(T, n.flights[i]);
    FlightIsHeld(T, n, held, i);
    RejectView(T, n, held, i, saved);
  }

  lemma RejectHeld(T: Topology, n: Network, held: Held, i: nat)
    requires HeldAgrees(GraphOf(T), n.flights, held) && InFlight(T, n, i, Undelivered)
    ensures var f := n.flights[i];
            && LocOf(f) in held
            && HeldAgrees(GraphOf(T), n.flights[i := f.(status := Acked(AckFail))],
                          held[LocOf(f) := held[LocOf(f)].(status := C.Failed)])
  {
    HeldUpdate(GraphOf(T), n.flights, held, i, Acked(AckFail));
  }

  lemma RejectSteps(T: Topology, n: Network, held: Held, i: nat, saved: bool)
    requires InFlight(T, n, i, Undelivered)
    requires var b := T.peer[n.flights[i].src].chain; Grows(T.envs[b], n.chains[b], Rejecting(T, n, i, saved))
    requires InShape(T, n, held)
    ensures var f := n.flights[i];
            && LocOf(f) in held
            && Steps(T, n, held, C.Rejects(LocOf(f), saved), None,
                     AfterRelay(T, n, i, Rejecting(T, n, i, saved), AckFail, n.retired),
                     held[LocOf(f) := held[LocOf(f)].(status := C.Failed)])
  {
    RelayIsReject(T, n, held, i, saved);
    RejectHeld(T, n, held, i);
    RelayFlightsGood(T, n, i, Rejecting(T, n, i, saved), AckFail, n.retired);
  }

  // ---------- Settling ----------

  /** Where the settlement of a packet leaves the network. */
  function AfterSettle(n: Network, i: nat, c': Chain, retired: set<Loc>): Network
    requires i in n.flights
  {
    n.(chains := n.chains[n.flights[i].src.chain := c'], flights := n.flights - {i}, retired := retired)
  }

  lemma SettleFlightsGood(T: Topology, n: Network, i: nat, c': Chain, retired: set<Loc>)
    requires ChainsAreValid(T, n.chains) && FlightsAreGood(T, n) && i in n.flights && n.flights[i].src.chain in n.chains
    requires var a := n.flights[i].src.chain; Grows(T.envs[a], n.chains[a], c')
    ensures
      && ChainsAreValid(T, AfterSettle(n, i, c', retired).chains)
      && FlightsAreGood(T, AfterSettle(n, i, c', retired))
    ensures ContractsAreKept(n.chains, AfterSettle(n, i, c', retired).chains)
  {
    var a := n.flights[i].src.chain;
    ChainStep(T, n, a, c');
    forall j | j in n.flights && j != i ensures FlightIsGood(T, n.chains[a := c'], n.flights - {i}, n.next, j) {
      assert FlightIsGood(T, n.chains[a := c'], n.flights, n.next, j);
    }
  }

  // A refund.

  ghost predicate Refunds(n: Network, i: nat, c': Chain)
    requires i in n.flights && n.flights[i].src.chain in n.chains && OneToken(n.flights[i].data)
  {
    var f := n.flights[i];
    var c := n.chains[f.src.chain];
    var k := KeyAt(LocOf(f));
    && NftAt(c, k).Some? && NftAt(c', k) == Some(NftAt(c, k).value.(owner := f.data.sender))
    && (forall j | j != k :: NftAt(c', j) == NftAt(c, j))
    && c'.s == c.s.(outgoing := c.s.outgoing - {k})
  }

  /** A held NFT belongs to the bridge that sent it. */
  lemma HeldIsOwned(T: Topology, n: Network, held: Held, i: nat)
    requires C.Inv(GraphOf(T), ViewOf(n, held)) && HeldAgrees(GraphOf(T), n.flights, held) && CanRelay(T, n, i)
    requires OneToken(n.flights[i].data) && Holds(GraphOf(T), n.flights[i])
    ensures var f := n.flights[i];
            var c := n.chains[f.src.chain];
            NftAt(c, KeyAt(LocOf(f))).Some? && NftAt(c, KeyAt(LocOf(f))).value.owner == T.envs[f.src.chain].self
  {
    var f := n.flights[i];
    FlightIsHeld(T, n, held, i);
    assert C.Locked(GraphOf(T), ViewOf(n, held).nfts, LocOf(f));
    LockedOn(T, n, held, f.src.chain, KeyAt(LocOf(f)));
  }

  /** A timeout or an error ack always goes through. */
  lemma RefundGoesThrough(T: Topology, n: Network, i: nat)
    requires CanRelay(T, n, i) && GoodFlight(T, n.chains, n.flights[i])
    requires var f := n.flights[i];
             var c := n.chains[f.src.chain];
             && ValidChain(T.envs[f.src.chain], c)
             && NftAt(c, KeyAt(LocOf(f))).Some? && NftAt(c, KeyAt(LocOf(f))).value.owner == T.envs[f.src.chain].self
    ensures var f := n.flights[i];
            var a := f.src.chain;
            var r := TimeOut(T.envs[a], n.chains[a], PacketOf(T, f));
            && r.Some? && Acknowledge(T.envs[a], n.chains[a], PacketOf(T, f), Some(AckFail)) == r
            && Grows(T.envs[a], n.chains[a], r.value) && Refunds(n, i, r.value)
  {
    var f := n.flights[i];
    assert f.data.tokenIds == [f.data.tokenIds[0]];
    RefundEffect(T.envs[f.src.chain], n.chains[f.src.chain], PacketOf(T, f), KeyAt(LocOf(f)));
  }

  lemma SettleIsRefund(T: Topology, n: Network, held: Held, i: nat, c': Chain)
    requires
      && CanRelay(T, n, i)
      && OneToken(n.flights[i].data)
      && Refunds(n, i, c')
      && n.flights[i].status != Acked(AckSuccess)
    requires var f := n.flights[i]; LocOf(f) in held && held[LocOf(f)] == HoldOf(i, f)
    ensures var f := n.flights[i];
            && C.Enabled(GraphOf(T), ViewOf(n, held), C.Refunds(LocOf(f)))
            && ViewOf(AfterSettle(n, i, c', Retire(T, n, LocOf(f), f.data.sender)), held - {LocOf(f)})
               == C.Do(GraphOf(T), ViewOf(n, held), C.Refunds(LocOf(f)))
  {
    var f := n.flights[i];
    var l := LocOf(f);
    GivenView(T, n, held, f.src.chain, KeyAt(l), c', f.data.sender);
    RetireAgrees(T, n, held, l, f.data.sender);
    SettledView(n, held, i, c', Retire(T, n, l, f.data.sender), held - {l});
    HoldCanRefund(i, f, ViewOf(n, held));
    RefundName(GraphOf(T), ViewOf(n, held), l, f.data.sender);
  }

  lemma SettledView(n: Network, held: Held, i: nat, c': Chain, retired: set<Loc>, held': Held)
    requires i in n.flights
    ensures ViewOf(AfterSettle(n, i, c', retired), held')
         == ViewOf(n.(chains := n.chains[n.flights[i].src.chain := c']), held).(held := held', retired := retired)
  {
  }

  lemma HoldCanRefund(i: nat, f: Flight, v: C.View)
    requires OneToken(f.data) && LocOf(f) in v.held && v.held[LocOf(f)] == HoldOf(i, f) && f.status != Acked(AckSuccess)
    ensures C.CanRefund(v, LocOf(f)) && v.held[LocOf(f)].sender == f.data.sender
  {
  }

  lemma RefundName(G: C.Graph, v: C.View, l: Loc, sender: Addr)
    requires C.CanRefund(v, l) && l in v.nfts && v.held[l].sender == sender
    ensures C.Enabled(G, v, C.Refunds(l))
    ensures C.Do(G, v, C.Refunds(l))
         == v.(nfts := v.nfts[l := v.nfts[l].(owner := sender)], outgoing := v.outgoing - {l}, held := v.held - {l},
               retired := C.Retire(G, v, l, sender))
  {
  }

  lemma RefundSteps(T: Topology, n: Network, held: Held, i: nat, c': Chain)
    requires
      && CanRelay(T, n, i)
      && OneToken(n.flights[i].data)
      && Refunds(n, i, c')
      && n.flights[i].status != Acked(AckSuccess)
    requires var a := n.flights[i].src.chain; Grows(T.envs[a], n.chains[a], c')
    requires InShape(T, n, held)
    ensures var f := n.flights[i];
            Steps(T, n, held, C.Refunds(LocOf(f)), None,
                  AfterSettle(n, i, c', Retire(T, n, LocOf(f), f.data.sender)), held - {LocOf(f)})
  {
    var f := n.flights[i];
    FlightIsHeld(T, n, held, i);
    SettleIsRefund(T, n, held, i, c');
    HeldRemove(GraphOf(T), n.flights, held, i);
    SettleFlightsGood(T, n, i, c', Retire(T, n, LocOf(f), f.data.sender));
  }

  // A success ack.

  /** INCOMING names the channel that the class ID names. */
  lemma IncomingDecides(G: C.Graph, v: C.View, l: Loc, e: End)
    requires C.ValidGraph(G) && C.Inv(G, v) && e.chain == l.chain && (C.CameOver(G, e, l) ==> l in v.nfts)
    ensures (l in v.incoming && v.incoming[l] == e.channel) <==> C.CameOver(G, e, l)
  {
    if l in v.incoming {
      assert C.CameOver(G, C.End(l.chain, v.incoming[l]), l);
    }
    if C.CameOver(G, e, l) {
      assert C.Edge(G, e, l, G.parent[(e, l)]);
    }
  }

  lemma HeldExists(G: C.Graph, v: C.View, l: Loc)
    requires C.Inv(G, v) && l in v.held
    ensures l in v.nfts
  {
  }

  lemma IncomingIs(n: Network, held: Held, b: ChainId, k: Key)
    requires b in n.chains
    ensures k in n.chains[b].s.incoming <==> At(b, k) in ViewOf(n, held).incoming
    ensures k in n.chains[b].s.incoming ==> n.chains[b].s.incoming[k] == ViewOf(n, held).incoming[At(b, k)]
  {
  }

  /** INCOMING tells a returned voucher from a token that left for elsewhere. */
  lemma BurnsExactlyReturns(T: Topology, n: Network, held: Held, i: nat)
    requires ValidTopology(T) && C.Inv(GraphOf(T), ViewOf(n, held)) && HeldAgrees(GraphOf(T), n.flights, held)
    requires InFlight(T, n, i, Acked(AckSuccess))
    ensures var f := n.flights[i];
            var s := n.chains[f.src.chain].s;
            var k := KeyAt(LocOf(f));
            (k in s.incoming && s.incoming[k] == f.src.channel) <==> C.CameOver(GraphOf(T), f.src, LocOf(f))
  {
    var f := n.flights[i];
    GraphIsValid(T);
    IncomingIs(n, held, f.src.chain, KeyAt(LocOf(f)));
    if C.CameOver(GraphOf(T), f.src, LocOf(f)) {
      FlightIsHeld(T, n, held, i);
      HeldExists(GraphOf(T), ViewOf(n, held), LocOf(f));
    }
    IncomingDecides(GraphOf(T), ViewOf(n, held), LocOf(f), f.src);
  }

  ghost predicate Burns(n: Network, i: nat, c': Chain)
    requires i in n.flights && n.flights[i].src.chain in n.chains && OneToken(n.flights[i].data)
  {
    var c := n.chains[n.flights[i].src.chain];
    var k := KeyAt(LocOf(n.flights[i]));
    && NftAt(c', k) == None && (forall j | j != k :: NftAt(c', j) == NftAt(c, j))
    && c'.s == c.s.(incoming := c.s.incoming - {k}, metadata := c.s.metadata - {k})
  }

  /** A success ack always goes through: it burns a returned voucher and changes nothing otherwise. */
  lemma AckGoesThrough(T: Topology, n: Network, i: nat, returned: bool)
    requires CanRelay(T, n, i) && GoodFlight(T, n.chains, n.flights[i])
    requires var f := n.flights[i];
             var c := n.chains[f.src.chain];
             var k := KeyAt(LocOf(f));
             && ValidChain(T.envs[f.src.chain], c)
             && ((k in c.s.incoming && c.s.incoming[k] == f.src.channel) <==> returned)
             && (returned ==> NftAt(c, k).Some? && NftAt(c, k).value.owner == T.envs[f.src.chain].self)
    ensures var f := n.flights[i];
            var a := f.src.chain;
            var r := Acknowledge(T.envs[a], n.chains[a], PacketOf(T, f), Some(AckSuccess));
            && r.Some? && Grows(T.envs[a], n.chains[a], r.value)
            && (if returned then Burns(n, i, r.value) else r.value == n.chains[a])
  {
    var f := n.flights[i];
    assert f.data.tokenIds == [f.data.tokenIds[0]];
    AckEffect(T.envs[f.src.chain], n.chains[f.src.chain], PacketOf(T, f), KeyAt(LocOf(f)));
  }

  lemma SettleIsBurn(T: Topology, n: Network, held: Held, i: nat, c': Chain)
    requires CanRelay(T, n, i) && OneToken(n.flights[i].data) && Burns(n, i, c') && C.Dead(held, LocOf(n.flights[i]))
    ensures var step := C.BurnsReturned(LocOf(n.flights[i]));
            && C.Enabled(GraphOf(T), ViewOf(n, held), step)
            && ViewOf(AfterSettle(n, i, c', n.retired), held - {LocOf(n.flights[i])}) ==
                 C.Do(GraphOf(T), ViewOf(n, held), step)
  {
    var a := n.flights[i].src.chain;
    var k := KeyAt(LocOf(n.flights[i]));
    NftsPut(n.chains, a, c', k);
    LiftSame(n.chains, OutgoingOn, a, c');
    WidenRemove(n.chains[a].s.incoming, k);
    LiftPut(n.chains, IncomingOn, a, c', k, None);
    WidenRemove(n.chains[a].s.metadata, k);
    LiftPut(n.chains, MetadataOn, a, c', k, None);
  }

  lemma BurnSteps(T: Topology, n: Network, held: Held, i: nat, c': Chain)
    requires
      && InFlight(T, n, i, Acked(AckSuccess))
      && Burns(n, i, c')
      && C.CameOver(GraphOf(T), n.flights[i].src, LocOf(n.flights[i]))
    requires var a := n.flights[i].src.chain; Grows(T.envs[a], n.chains[a], c')
    requires InShape(T, n, held)
    ensures var l := LocOf(n.flights[i]);
            Steps(T, n, held, C.BurnsReturned(l), None, AfterSettle(n, i, c', n.retired), held - {l})
  {
    FlightIsHeld(T, n, held, i);
    SettleIsBurn(T, n, held, i, c');
    HeldRemove(GraphOf(T), n.flights, held, i);
    SettleFlightsGood(T, n, i, c', n.retired);
  }

  lemma ForgetView(n: Network, held: Held, i: nat)
    requires i in n.flights && n.flights[i].src.chain in n.chains
    ensures ViewOf(AfterSettle(n, i, n.chains[n.flights[i].src.chain], n.retired), held) == ViewOf(n, held)
  {
    var a := n.flights[i].src.chain;
    assert n.chains[a := n.chains[a]] == n.chains;
  }

  lemma ForgetSteps(T: Topology, n: Network, held: Held, i: nat)
    requires InFlight(T, n, i, Acked(AckSuccess)) && !C.CameOver(GraphOf(T), n.flights[i].src, LocOf(n.flights[i]))
    requires InShape(T, n, held)
    ensures Steps(T, n, held, C.Stutter, None, AfterSettle(n, i, n.chains[n.flights[i].src.chain], n.retired), held)
  {
    assert ChainIsValid(T, n.chains, n.flights[i].src.chain);
    ForgetView(n, held, i);
    StepNames(GraphOf(T), ViewOf(n, held));
    HeldForget(GraphOf(T), n.flights, held, i);
    SettleFlightsGood(T, n, i, n.chains[n.flights[i].src.chain], n.retired);
  }
}
