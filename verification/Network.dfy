/**
 A network of chains, each with one bridge and well-behaved cw721 contracts, joined by unordered
 IBC channels. A packet is delivered at most once and settled exactly once, by the ack of its
 delivery or by a timeout when it was not delivered.
 */
module Network {
  import opened Types
  import opened ClassIds
  import opened Receive
  import opened Handlers
  import opened Invariants
  import opened EntryPoints
  import opened Cw721
  import opened Chain
  import opened Effects
  import opened Runs
  import opened Views
  import C = Custody

  type ChainId = C.ChainId
  type End = C.End
  type Loc = C.Loc

  /** The chains' addresses and ports, and which channel ends belong together. */
  datatype Topology = Topology(envs: map<ChainId, Env>, peer: map<End, End>)

  datatype FlightStatus = Undelivered | Acked(ack: Ack)

  /** An open packet. */
  datatype Flight = Flight(src: End, data: PacketData, status: FlightStatus)

  /** `retired` keeps track of the NFTs that users burned or gave to a bridge without sending them. */
  datatype Network = Network(chains: map<ChainId, Chain>, flights: map<nat, Flight>, next: nat, retired: set<Loc>)

  // ---------- Topology ----------

  ghost predicate ValidTopology(T: Topology) {
    && (forall e | e in T.peer ::
          && e.chain in T.envs
          && SlashFree(e.channel)
          && T.peer[e] in T.peer
          && T.peer[T.peer[e]] == e)
    && (forall a | a in T.envs :: SlashFree(T.envs[a].port) && ValidEnv(T.envs[a]))
  }

  function EndpointOf(T: Topology, e: End): Endpoint {
    Endpoint(if e.chain in T.envs then T.envs[e.chain].port else "", e.channel)
  }

  function Popped(T: Topology, e: End, l: Loc): Option<ClassId> {
    TryPopSourcePrefix(EndpointOf(T, e), l.classId)
  }

  /** Which voucher stands for what: given by the class-ID prefixes. */
  ghost function GraphOf(T: Topology): C.Graph {
    C.Graph(
      map a | a in T.envs :: T.envs[a].self,
      T.peer,
      imap p: (End, Loc) | p.0 in T.peer && p.0.chain == p.1.chain && Popped(T, p.0, p.1).Some? ::
        C.Loc(T.peer[p.0].chain, Popped(T, p.0, p.1).value, p.1.tokenId),
      imap p: (End, Loc) | p.0 in T.peer && p.0.chain == p.1.chain ::
        C.Loc(T.peer[p.0].chain, EndpointPrefix(EndpointOf(T, T.peer[p.0])) + p.1.classId, p.1.tokenId))
  }

  lemma EdgeIsVoucher(T: Topology, f: End, c: Loc, l: Loc)
    requires ValidTopology(T) && C.Edge(GraphOf(T), f, c, l)
    ensures f.chain == c.chain && T.peer[f].chain == l.chain && |l.classId| < |c.classId|
    ensures c == C.Voucher(GraphOf(T), T.peer[f], l)
  {
    PopIsInverse(EndpointOf(T, f), c.classId, l.classId);
  }

  lemma VoucherIsEdge(T: Topology, e: End, l: Loc)
    requires ValidTopology(T) && e in T.peer && e.chain == l.chain
    ensures C.Edge(GraphOf(T), T.peer[e], C.Voucher(GraphOf(T), e, l), l)
  {
    PopIsInverse(EndpointOf(T, T.peer[e]), C.Voucher(GraphOf(T), e, l).classId, l.classId);
  }

  lemma OneEndPerVoucher(T: Topology, e: End, f: End, c: Loc)
    requires ValidTopology(T) && C.CameOver(GraphOf(T), e, c) && C.CameOver(GraphOf(T), f, c)
    ensures e == f
  {
    PopIsUnique(EndpointOf(T, e), EndpointOf(T, f), c.classId);
  }

  /** Prefixes decode uniquely, so they make a voucher graph. */
  lemma GraphIsValid(T: Topology)
    requires ValidTopology(T)
    ensures C.ValidGraph(GraphOf(T))
  {
    var G := GraphOf(T);
    forall f, c, l | C.Edge(G, f, c, l)
      ensures
        && f.chain == c.chain
        && G.peer[f].chain == l.chain
        && |l.classId| < |c.classId|
        && c == C.Voucher(G, G.peer[f], l)
    {
      EdgeIsVoucher(T, f, c, l);
    }
    forall e: End, l: Loc | e in G.peer && e.chain == l.chain
      ensures C.Edge(G, G.peer[e], C.Voucher(G, e, l), l)
    {
      VoucherIsEdge(T, e, l);
    }
    forall e, f, c | C.CameOver(G, e, c) && C.CameOver(G, f, c)
      ensures e == f
    {
      OneEndPerVoucher(T, e, f, c);
    }
  }

  // ---------- Steps ----------

  datatype Move =
    | Give(chain: ChainId, id: NftId, to: Addr)
    | Destroy(chain: ChainId, id: NftId)
    | Issue(chain: ChainId, id: NftId, nft: Nft)
    | Found(chain: ChainId, contract: Addr, collection: Collection)
    | SendOut(chain: ChainId, id: NftId, actor: Addr, msg: OutgoingMsg)
    | PauseBridge(chain: ChainId, sender: Addr)
    | MigrateBridge(chain: ChainId, pauser: Option<Addr>, proxy: Option<Addr>)
    | Relay(packet: nat, newAddr: Addr)
    | RelayAck(packet: nat)
    | RelayTimeout(packet: nat)

  function PacketOf(T: Topology, f: Flight): Packet
    requires f.src in T.peer
  {
    Packet(EndpointOf(T, f.src), EndpointOf(T, T.peer[f.src]), Some(f.data))
  }

  /** Where the packet's token is on the sending chain. */
  function LocOf(f: Flight): Loc
    requires |f.data.tokenIds| == 1
  {
    C.Loc(f.src.chain, f.data.classId, f.data.tokenIds[0])
  }

  /** Bookkeeping: `l` now belongs to `owner`. */
  function Retire(T: Topology, n: Network, l: Loc, owner: Addr): set<Loc> {
    if l.chain in T.envs && owner == T.envs[l.chain].self then n.retired + {l} else n.retired - {l}
  }

  function WithLedger(n: Network, a: ChainId, l: Ledger): Network
    requires a in n.chains
  {
    n.(chains := n.chains[a := n.chains[a].(ledger := l)])
  }

  function WithStorage(n: Network, a: ChainId, s: Storage): Network
    requires a in n.chains
  {
    n.(chains := n.chains[a := n.chains[a].(s := s)])
  }

  /** A user acts on an NFT that no bridge owns. */
  predicate UserOwned(T: Topology, n: Network, a: ChainId, id: NftId) {
    a in n.chains && a in T.envs && id in n.chains[a].ledger.nfts && n.chains[a].ledger.nfts[id].owner != T.envs[a].self
  }

  function ApplyUser(T: Topology, n: Network, act: Move): Network
    requires act.Give? || act.Destroy? || act.Issue? || act.Found?
  {
    var a := act.chain;
    if a !in n.chains || a !in T.envs then n
    else
      var c := n.chains[a];
      match act
      case Give(_, id, to) =>
        if !UserOwned(T, n, a, id) then n
        else
          WithLedger(n, a, c.ledger.(nfts := c.ledger.nfts[id := c.ledger.nfts[id].(owner := to)]))
          .(retired := Retire(T, n, At(a, KeyOf(c.s, id)), to))
      case Destroy(_, id) =>
        if !UserOwned(T, n, a, id) then n
        else
          WithLedger(n, a, c.ledger.(nfts := c.ledger.nfts - {id})).(retired := n.retired + {At(a, KeyOf(c.s, id))})
      case Issue(_, id, nft) =>
        if id.contract !in c.ledger.collections || c.ledger.collections[id.contract].minter == T.envs[a].self
           || id in c.ledger.nfts then n
        else
          WithLedger(n, a, c.ledger.(nfts := c.ledger.nfts[id := nft]))
          .(retired := Retire(T, n, At(a, KeyOf(c.s, id)), nft.owner))
      case Found(_, contract, collection) =>
        if contract in c.ledger.collections || contract == T.envs[a].self || !IsAddress(contract) then n
        else WithLedger(n, a, c.ledger.(collections := c.ledger.collections[contract := collection]))
  }

  function ApplySend(T: Topology, n: Network, a: ChainId, id: NftId, actor: Addr, msg: OutgoingMsg): Network {
    if a !in n.chains || a !in T.envs || actor == T.envs[a].self || C.End(a, msg.channel) !in T.peer then n
    else
      match UserSend(T.envs[a], n.chains[a], id, actor, msg)
      case None => n
      case Some((c', p)) =>
        n.(chains := n.chains[a := c'],
           flights := n.flights[n.next := Flight(C.End(a, msg.channel), p.data, Undelivered)],
           next := n.next + 1)
  }

  function ApplyGovernance(T: Topology, n: Network, act: Move): Network
    requires act.PauseBridge? || act.MigrateBridge?
  {
    var a := act.chain;
    if a !in n.chains || a !in T.envs then n
    else
      match act
      case PauseBridge(_, sender) =>
        (match Execute(T.envs[a], n.chains[a].s, sender, ExecuteMsg.Pause, World(None, ""))
         case Failure(_) => n
         case Success((s, _)) => WithStorage(n, a, s))
      case MigrateBridge(_, pauser, proxy) =>
        match Migrated(T.envs[a], n.chains[a].s, pauser, proxy)
        case Failure(_) => n
        case Success(s) => WithStorage(n, a, s)
  }

  /** The packet is open, with its chains in place. */
  predicate CanRelay(T: Topology, n: Network, i: nat) {
    && i in n.flights && n.flights[i].src in T.peer && |n.flights[i].data.tokenIds| == 1
    && n.flights[i].src.chain in n.chains && n.flights[i].src.chain in T.envs
    && T.peer[n.flights[i].src].chain in n.chains && T.peer[n.flights[i].src].chain in T.envs
  }

  /** Where the packet's token is after a successful delivery. */
  function LandsAt(T: Topology, f: Flight): Loc
    requires f.src in T.peer && |f.data.tokenIds| == 1
  {
    var r := RouteOf(EndpointOf(T, f.src), EndpointOf(T, T.peer[f.src]), f.data.classId);
    C.Loc(T.peer[f.src].chain, if r.local.Some? then r.local.value else r.prefixed, f.data.tokenIds[0])
  }

  function ApplyRelay(T: Topology, n: Network, i: nat, newAddr: Addr): Network {
    if !CanRelay(T, n, i) || n.flights[i].status != Undelivered then n
    else
      var f := n.flights[i];
      var b := T.peer[f.src].chain;
      var (c', ack) := Deliver(T.envs[b], n.chains[b], PacketOf(T, f), newAddr);
      n.(chains := n.chains[b := c'],
         flights := n.flights[i := f.(status := Acked(ack))],
         retired := if ack == AckSuccess then Retire(T, n, LandsAt(T, f), f.data.receiver) else n.retired)
  }

  /** The source chain settles a packet, if its transaction goes through. */
  function Settled(T: Topology, n: Network, i: nat, r: Option<Chain>, refunded: bool): Network
    requires CanRelay(T, n, i)
  {
    match r
    case None => n
    case Some(c') =>
      var f := n.flights[i];
      n.(chains := n.chains[f.src.chain := c'],
         flights := n.flights - {i},
         retired := if refunded then Retire(T, n, LocOf(f), f.data.sender) else n.retired)
  }

  function ApplyAck(T: Topology, n: Network, i: nat): Network {
    if !CanRelay(T, n, i) || n.flights[i].status == Undelivered then n
    else
      var f := n.flights[i];
      var a := f.src.chain;
      Settled(T, n, i, Acknowledge(T.envs[a], n.chains[a], PacketOf(T, f), Some(f.status.ack)), f.status.ack == AckFail)
  }

  function ApplyTimeout(T: Topology, n: Network, i: nat): Network {
    if !CanRelay(T, n, i) || n.flights[i].status != Undelivered then n
    else
      var f := n.flights[i];
      var a := f.src.chain;
      Settled(T, n, i, TimeOut(T.envs[a], n.chains[a], PacketOf(T, f)), true)
  }

  /** One step of the network; an action that is not possible changes nothing. */
  function Apply(T: Topology, n: Network, act: Move): Network {
    match act
    case SendOut(a, id, actor, msg) => ApplySend(T, n, a, id, actor, msg)
    case PauseBridge(_, _) => ApplyGovernance(T, n, act)
    case MigrateBridge(_, _, _) => ApplyGovernance(T, n, act)
    case Relay(i, newAddr) => ApplyRelay(T, n, i, newAddr)
    case RelayAck(i) => ApplyAck(T, n, i)
    case RelayTimeout(i) => ApplyTimeout(T, n, i)
    case _ => ApplyUser(T, n, act)
  }

  // What users and governance can bring about.

  lemma GovernanceIs(T: Topology, n: Network, a: ChainId, sender: Addr, pauser: Option<Addr>, proxy: Option<Addr>)
    requires a in n.chains && a in T.envs
    ensures var s := n.chains[a].s;
            && Apply(T, n, PauseBridge(a, sender)) ==
                 (if !s.po.paused && s.po.pauser == Some(sender)
                  then WithStorage(n, a, s.(po := PauseState(None, true))) else n)
            && Apply(T, n, MigrateBridge(a, pauser, proxy)) ==
                 (if IsNoneOrValid(T.envs[a], pauser) && IsNoneOrValid(T.envs[a], proxy)
                  then WithStorage(n, a, s.(proxy := proxy, po := PauseState(pauser, false))) else n)
  {
    PauseIs(T.envs[a], n.chains[a].s, sender, World(None, ""));
    MigrateIs(T.envs[a], n.chains[a].s, pauser, proxy);
  }

  lemma UsersDo(T: Topology, n: Network, a: ChainId, id: NftId, to: Addr)
    requires UserOwned(T, n, a, id)
    ensures var nfts := n.chains[a].ledger.nfts;
            var given := Apply(T, n, Give(a, id, to)).chains[a].ledger.nfts;
            && given == nfts[id := nfts[id].(owner := to)]
            && Apply(T, n, Destroy(a, id)).chains[a].ledger.nfts == nfts - {id}
  {
  }

  lemma UsersMake(T: Topology, n: Network, a: ChainId, id: NftId, nft: Nft, contract: Addr, collection: Collection)
    requires a in n.chains && a in T.envs
    ensures var l := n.chains[a].ledger;
            && (id.contract in l.collections && l.collections[id.contract].minter != T.envs[a].self && id !in l.nfts ==>
                  Apply(T, n, Issue(a, id, nft)).chains[a].ledger.nfts == l.nfts[id := nft])
            && (contract !in l.collections && contract != T.envs[a].self && IsAddress(contract) ==>
                  Apply(T, n, Found(a, contract, collection)).chains[a].ledger.collections ==
                    l.collections[contract := collection])
  {
  }

  function ApplyAll(T: Topology, n: Network, acts: seq<Move>): Network {
    if acts == [] then n else Apply(T, ApplyAll(T, n, acts[..|acts| - 1]), acts[|acts| - 1])
  }

  /** Freshly instantiated bridges on chains with any cw721 collections; no bridge owns anything yet. */
  ghost predicate Genesis(T: Topology, n: Network) {
    && n.chains.Keys == T.envs.Keys && n.flights == map[] && n.retired == {}
    && forall a | a in n.chains ::
         && (exists pauser :: Instantiated(T.envs[a], pauser) == Success(n.chains[a].s.(proxy := None)))
         && ValidLedger(n.chains[a].ledger)
         && T.envs[a].self !in n.chains[a].ledger.collections
         && forall id | id in n.chains[a].ledger.nfts :: n.chains[a].ledger.nfts[id].owner != T.envs[a].self
  }
}
