/** What a network of honest bridges guarantees its users, in every reachable state. */
module Guarantees {
  import opened Types
  import opened ClassIds
  import opened Receive
  import opened Invariants
  import opened Runs
  import opened Cw721
  import opened Chain
  import opened Effects
  import opened Network
  import opened Views
  import opened Simulation
  import opened Reachable
  import opened Settlement
  import C = Custody
  import Claims

  // ---------- At most one claim ----------

  /** Someone other than a bridge holds an NFT, or an unsettled packet that has not succeeded carries one. */
  datatype Claim = Owned(loc: Loc) | InTransit(packet: nat)

  ghost predicate IsClaim(T: Topology, n: Network, c: Claim) {
    match c
    case Owned(l) =>
      && l.chain in n.chains && l.chain in T.envs && NftAt(n.chains[l.chain], KeyAt(l)).Some?
      && NftAt(n.chains[l.chain], KeyAt(l)).value.owner != T.envs[l.chain].self
    case InTransit(i) =>
      i in n.flights && |n.flights[i].data.tokenIds| == 1 && n.flights[i].status != Acked(AckSuccess)
  }

  function Place(n: Network, c: Claim): Loc
    requires c.InTransit? ==> c.packet in n.flights && |n.flights[c.packet].data.tokenIds| == 1
  {
    match c
    case Owned(l) => l
    case InTransit(i) => LocOf(n.flights[i])
  }

  /** The NFT that a voucher stands for in the end: its class ID without any of its hops. */
  ghost function Origin(T: Topology, l: Loc): Loc
    requires ValidTopology(T)
  {
    GraphIsValid(T);
    Claims.Origin(GraphOf(T), l)
  }

  lemma ClaimView(T: Topology, n: Network, held: Held, c: Claim)
    requires IsClaim(T, n, c) && HeldAgrees(GraphOf(T), n.flights, held)
    ensures Claims.IsClaim(GraphOf(T), ViewOf(n, held), Place(n, c))
    ensures c.Owned? ==> !C.Locked(GraphOf(T), ViewOf(n, held).nfts, c.loc)
    ensures c.InTransit? ==> Place(n, c) in held && held[Place(n, c)].id == c.packet
  {
    if c.InTransit? {
      FlightIsHeld(T, n, held, c.packet);
    }
  }

  lemma HeldIsNotOwned(G: C.Graph, v: C.View, l: Loc)
    requires C.Inv(G, v) && l in v.held
    ensures C.Locked(G, v.nfts, l)
  {
  }

  /** In every reachable state, all claims on an NFT or on its vouchers anywhere are one claim. */
  lemma SingleClaim(T: Topology, n: Network, acts: seq<Move>, c: Claim, d: Claim)
    requires ValidTopology(T) && Genesis(T, n)
    requires var m := ApplyAll(T, n, acts);
             IsClaim(T, m, c) && IsClaim(T, m, d) && Origin(T, Place(m, c)) == Origin(T, Place(m, d))
    ensures c == d
  {
    var m := ApplyAll(T, n, acts);
    var held := ReachableInv(T, n, acts);
    ClaimView(T, m, held, c);
    ClaimView(T, m, held, d);
    GraphIsValid(T);
    Claims.AtMostOneClaim(GraphOf(T), ViewOf(m, held), Place(m, c), Place(m, d));
    if c.InTransit? || d.InTransit? {
      HeldIsNotOwned(GraphOf(T), ViewOf(m, held), Place(m, c));
    }
  }

  // ---------- Nothing gets lost ----------

  lemma {:induction false} LengthsAreBounded(xs: set<string>) returns (bound: nat)
    ensures forall x | x in xs :: |x| <= bound
  {
    bound := 0;
    if xs != {} {
      var x :| x in xs;
      bound := LengthsAreBounded(xs - {x});
      bound := if |x| > bound then |x| else bound;
      assert forall y | y in xs :: y == x || y in xs - {x};
    }
  }

  /** The class IDs under which a chain can have NFTs. */
  function ClassesOf(c: Chain): set<ClassId> {
    c.s.classToNft.Keys + set id | id in c.ledger.nfts :: id.contract
  }

  lemma NftHasClass(c: Chain, k: Key)
    requires NftAt(c, k).Some?
    ensures k.classId in ClassesOf(c)
  {
  }

  lemma ClassesAreBounded(n: Network, held: Held) returns (bound: nat)
    ensures Claims.Bounded(ViewOf(n, held), bound)
  {
    bound := LengthsAreBounded(set a, x | a in n.chains && x in ClassesOf(n.chains[a]) :: x);
    var v := ViewOf(n, held);
    forall l | l in v.nfts ensures |l.classId| <= bound {
      NftHasClass(n.chains[l.chain], KeyAt(l));
    }
  }

  /** A native NFT that its chain still has. */
  ghost predicate Exists(n: Network, l: Loc) {
    SlashFree(l.classId) && l.chain in n.chains && NftAt(n.chains[l.chain], KeyAt(l)).Some?
  }

  /** A claim of the custody protocol is a claim of the network. */
  lemma ViewClaim(T: Topology, n: Network, held: Held, l: Loc) returns (c: Claim)
    requires ChainsAreValid(T, n.chains) && HeldAgrees(GraphOf(T), n.flights, held)
    requires Claims.IsClaim(GraphOf(T), ViewOf(n, held), l)
    ensures IsClaim(T, n, c) && Place(n, c) == l
  {
    if C.CanRefund(ViewOf(n, held), l) {
      c := InTransit(held[l].id);
    } else {
      c := Owned(l);
    }
  }

  lemma ExistsInView(n: Network, held: Held, l: Loc)
    requires Exists(n, l)
    ensures l in ViewOf(n, held).nfts
  {
  }

  lemma SomeClaimIn(T: Topology, n: Network, held: Held, l: Loc) returns (lost: Loc)
    requires ValidTopology(T) && Exists(n, l) && C.Inv(GraphOf(T), ViewOf(n, held))
    ensures Claims.IsClaim(GraphOf(T), ViewOf(n, held), lost) || lost in n.retired
    ensures Origin(T, lost) == l
  {
    GraphIsValid(T);
    NativeLoc(T, l);
    ExistsInView(n, held, l);
    var bound := ClassesAreBounded(n, held);
    lost := Claims.NativeHasClaim(GraphOf(T), ViewOf(n, held), l, bound);
  }

  /** A native NFT has a claim, unless users burned it or a voucher of it, or gave one of them to a bridge unasked. */
  lemma SomeClaim(T: Topology, n: Network, acts: seq<Move>, l: Loc) returns (c: Claim, lost: Loc)
    requires ValidTopology(T) && Genesis(T, n) && Exists(ApplyAll(T, n, acts), l)
    ensures var m := ApplyAll(T, n, acts);
            || (IsClaim(T, m, c) && Origin(T, Place(m, c)) == l)
            || (lost in m.retired && Origin(T, lost) == l)
  {
    var m := ApplyAll(T, n, acts);
    var held := ReachableInv(T, n, acts);
    lost := SomeClaimIn(T, m, held, l);
    if lost in m.retired {
      c := Owned(l);
    } else {
      c := ViewClaim(T, m, held, lost);
    }
  }

  /** Nobody burns anything, or gives anything to a bridge other than to send it. */
  predicate Careful(T: Topology, act: Move) {
    match act
    case Give(a, _, to) => a in T.envs ==> to != T.envs[a].self
    case Destroy(_, _) => false
    case Issue(a, _, nft) => a in T.envs ==> nft.owner != T.envs[a].self
    case SendOut(a, _, _, msg) =>
      var e := C.End(a, msg.channel);
      e in T.peer && T.peer[e].chain in T.envs ==> msg.receiver != T.envs[T.peer[e].chain].self
    case _ => true
  }

  predicate NothingRetired(T: Topology, n: Network) {
    && n.retired == {}
    && forall i | i in n.flights && n.flights[i].src in T.peer ::
         && (n.flights[i].src.chain in T.envs ==> n.flights[i].data.sender != T.envs[n.flights[i].src.chain].self)
         && (T.peer[n.flights[i].src].chain in T.envs ==>
               n.flights[i].data.receiver != T.envs[T.peer[n.flights[i].src].chain].self)
  }

  lemma CarefulStep(T: Topology, n: Network, act: Move)
    requires NothingRetired(T, n) && Careful(T, act)
    ensures NothingRetired(T, Apply(T, n, act))
  {
    match act {
      case SendOut(a, id, actor, msg) => CarefulSend(T, n, a, id, actor, msg);
      case _ =>
    }
  }

  lemma CarefulSend(T: Topology, n: Network, a: ChainId, id: NftId, actor: Addr, msg: OutgoingMsg)
    requires NothingRetired(T, n) && Careful(T, SendOut(a, id, actor, msg))
    ensures NothingRetired(T, ApplySend(T, n, a, id, actor, msg))
  {
    SendMoveIs(T, n, a, id, actor, msg);
    if SendOutcome(T, n, a, id, actor, msg).Some? {
      UserSendIsSendNft(T.envs[a], n.chains[a], id, actor, msg);
    }
  }

  lemma {:induction false} CarefulRun(T: Topology, n: Network, acts: seq<Move>)
    requires Genesis(T, n) && forall act | act in acts :: Careful(T, act)
    ensures NothingRetired(T, ApplyAll(T, n, acts))
  {
    if acts != [] {
      CarefulRun(T, n, acts[..|acts| - 1]);
      CarefulStep(T, ApplyAll(T, n, acts[..|acts| - 1]), acts[|acts| - 1]);
    }
  }

  /** With careful users, every native NFT has exactly one claim, wherever it or its vouchers went. */
  lemma ExactlyOneClaim(T: Topology, n: Network, acts: seq<Move>, l: Loc) returns (c: Claim)
    requires ValidTopology(T) && Genesis(T, n) && forall act | act in acts :: Careful(T, act)
    requires Exists(ApplyAll(T, n, acts), l)
    ensures var m := ApplyAll(T, n, acts);
            && IsClaim(T, m, c) && Origin(T, Place(m, c)) == l
            && forall d | IsClaim(T, m, d) && Origin(T, Place(m, d)) == l :: d == c
  {
    var m := ApplyAll(T, n, acts);
    var lost;
    CarefulRun(T, n, acts);
    c, lost := SomeClaim(T, n, acts, l);
    forall d | IsClaim(T, m, d) && Origin(T, Place(m, d)) == l ensures d == c {
      SingleClaim(T, n, acts, c, d);
    }
  }

  // ---------- Backing ----------

  lemma ClaimIsBacked(G: C.Graph, v: C.View, e: End, c: Loc, l: Loc)
    requires C.ValidGraph(G) && C.Inv(G, v) && Claims.IsClaim(G, v, c) && C.Edge(G, e, c, l)
    ensures C.Locked(G, v.nfts, l) && l in v.outgoing && C.End(l.chain, v.outgoing[l]) == G.peer[e]
  {
    Claims.ClaimIsLive(G, v, c);
    C.LiveParent(G, v, e, c, l);
  }

  /** Whoever holds a voucher, the chain it came from has the NFT locked and OUTGOING names the paired channel. */
  lemma Backing(T: Topology, n: Network, acts: seq<Move>, c: Claim, e: End)
    requires ValidTopology(T) && Genesis(T, n)
    requires var m := ApplyAll(T, n, acts);
             IsClaim(T, m, c) && e in T.peer && e.chain == Place(m, c).chain && Popped(T, e, Place(m, c)).Some?
    ensures var m := ApplyAll(T, n, acts);
            var h := T.peer[e];
            var k := Key(Popped(T, e, Place(m, c)).value, Place(m, c).tokenId);
            && h.chain in m.chains
            && k in m.chains[h.chain].s.outgoing && m.chains[h.chain].s.outgoing[k] == h.channel
            && NftAt(m.chains[h.chain], k).Some? && NftAt(m.chains[h.chain], k).value.owner == T.envs[h.chain].self
  {
    var m := ApplyAll(T, n, acts);
    var held := ReachableInv(T, n, acts);
    var h := T.peer[e];
    var k := Key(Popped(T, e, Place(m, c)).value, Place(m, c).tokenId);
    ClaimView(T, m, held, c);
    GraphIsValid(T);
    ClaimIsBacked(GraphOf(T), ViewOf(m, held), e, Place(m, c), At(h.chain, k));
    LockedOn(T, m, held, h.chain, k);
    OutgoingIs(m, held, h.chain, k);
  }

  // ---------- Metadata ----------

  /** Every claim carries the uri and data of the NFT it stands for in the end. */
  lemma Fidelity(T: Topology, n: Network, acts: seq<Move>, c: Claim)
    requires ValidTopology(T) && Genesis(T, n) && IsClaim(T, ApplyAll(T, n, acts), c)
    ensures var m := ApplyAll(T, n, acts);
            var l, o := Place(m, c), Origin(T, Place(m, c));
            && o.chain in m.chains && NftAt(m.chains[o.chain], KeyAt(o)).Some?
            && l.chain in m.chains && NftAt(m.chains[l.chain], KeyAt(l)).Some?
            && NftAt(m.chains[l.chain], KeyAt(l)).value.uri == NftAt(m.chains[o.chain], KeyAt(o)).value.uri
            && FlatLookup(m.chains[l.chain].s.metadata, KeyAt(l)) == FlatLookup(m.chains[o.chain].s.metadata, KeyAt(o))
  {
    var m := ApplyAll(T, n, acts);
    var held := ReachableInv(T, n, acts);
    ClaimView(T, m, held, c);
    GraphIsValid(T);
    FaithfulClaim(GraphOf(T), ViewOf(m, held), Place(m, c));
    DataIs(m, held, Place(m, c));
    DataIs(m, held, Origin(T, Place(m, c)));
  }

  lemma FaithfulClaim(G: C.Graph, v: C.View, l: Loc)
    requires C.ValidGraph(G) && C.Inv(G, v) && Claims.IsClaim(G, v, l)
    ensures var o := Claims.Origin(G, l);
            && l in v.nfts && o in v.nfts && v.nfts[l].uri == v.nfts[o].uri
            && C.Data(v.metadata, l) == C.Data(v.metadata, o)
  {
    Claims.ClaimIsLive(G, v, l);
    Claims.FaithfulToOrigin(G, v, l);
  }

  lemma DataIs(n: Network, held: Held, l: Loc)
    requires l in ViewOf(n, held).nfts
    ensures l.chain in n.chains && NftAt(n.chains[l.chain], KeyAt(l)) == Some(ViewOf(n, held).nfts[l])
    ensures C.Data(ViewOf(n, held).metadata, l) == FlatLookup(n.chains[l.chain].s.metadata, KeyAt(l))
  {
  }

  /** The packet of a claim in transit carries them too. */
  lemma PacketFidelity(T: Topology, n: Network, acts: seq<Move>, i: nat)
    requires ValidTopology(T) && Genesis(T, n) && IsClaim(T, ApplyAll(T, n, acts), InTransit(i))
    ensures var m := ApplyAll(T, n, acts);
            var d := m.flights[i].data;
            var o := Origin(T, LocOf(m.flights[i]));
            && o.chain in m.chains && NftAt(m.chains[o.chain], KeyAt(o)).Some?
            && Tokens(d) == [Token(d.tokenIds[0], NftAt(m.chains[o.chain], KeyAt(o)).value.uri,
                                   FlatLookup(m.chains[o.chain].s.metadata, KeyAt(o)))]
  {
    var m := ApplyAll(T, n, acts);
    var held := ReachableInv(T, n, acts);
    var l := LocOf(m.flights[i]);
    Fidelity(T, n, acts, InTransit(i));
    FlightIsHeld(T, m, held, i);
    TokensAre(m.flights[i].data);
    PacketIsFaithful(GraphOf(T), ViewOf(m, held), l);
    DataIs(m, held, l);
  }

  lemma PacketIsFaithful(G: C.Graph, v: C.View, l: Loc)
    requires C.Inv(G, v) && l in v.held
    ensures l in v.nfts && v.held[l].uri == v.nfts[l].uri && v.held[l].data == C.Data(v.metadata, l)
  {
  }

  /** A voucher that exists has its INCOMING entry, naming the channel its class ID names, and its metadata entry. */
  lemma VouchersAreOnRecord(T: Topology, n: Network, acts: seq<Move>, e: End, c: Loc)
    requires ValidTopology(T) && Genesis(T, n) && e in T.peer && e.chain == c.chain && Popped(T, e, c).Some?
    requires c.chain in ApplyAll(T, n, acts).chains && NftAt(ApplyAll(T, n, acts).chains[c.chain], KeyAt(c)).Some?
    ensures var s := ApplyAll(T, n, acts).chains[c.chain].s;
            && KeyAt(c) in s.incoming && s.incoming[KeyAt(c)] == e.channel
            && KeyAt(c) in s.metadata
  {
    var m := ApplyAll(T, n, acts);
    var held := ReachableInv(T, n, acts);
    GraphIsValid(T);
    VoucherIsOnRecord(GraphOf(T), ViewOf(m, held), e, c);
    IncomingIs(m, held, c.chain, KeyAt(c));
    MetadataIs(m, held, c.chain, KeyAt(c));
  }

  /** Whoever asks a bridge about a voucher that a user has is told the uri and data of the original. */
  lemma QueriesAreFaithful(T: Topology, n: Network, acts: seq<Move>, e: End, l: Loc)
    requires ValidTopology(T) && Genesis(T, n) && e in T.peer && e.chain == l.chain && Popped(T, e, l).Some?
    requires IsClaim(T, ApplyAll(T, n, acts), Owned(l))
    ensures var m, o := ApplyAll(T, n, acts), Origin(T, l);
            && o.chain in m.chains && NftAt(m.chains[o.chain], KeyAt(o)).Some?
            && QueryTokenMetadata(m.chains[l.chain].s, KeyAt(l), Some(NftAt(m.chains[l.chain], KeyAt(l)).value.uri))
               == Answer(Some(Token(l.tokenId, NftAt(m.chains[o.chain], KeyAt(o)).value.uri,
                                    FlatLookup(m.chains[o.chain].s.metadata, KeyAt(o)))))
  {
    var m := ApplyAll(T, n, acts);
    var held := ReachableInv(T, n, acts);
    Fidelity(T, n, acts, Owned(l));
    VouchersAreOnRecord(T, n, acts, e, l);
    assert ChainIsValid(T, m.chains, l.chain);
    QueryIs(T.envs[l.chain], m.chains[l.chain].s, KeyAt(l), NftAt(m.chains[l.chain], KeyAt(l)).value.uri);
  }

  lemma QueryIs(env: Env, s: Storage, k: Key, uri: Option<string>)
    requires ValidStorage(env, s) && k in s.metadata
    ensures QueryTokenMetadata(s, k, Some(uri)) == Answer(Some(Token(k.tokenId, uri, FlatLookup(s.metadata, k))))
  {
  }

  lemma VoucherIsOnRecord(G: C.Graph, v: C.View, e: End, c: Loc)
    requires C.ValidGraph(G) && C.Inv(G, v) && C.CameOver(G, e, c) && c in v.nfts
    ensures c in v.incoming && C.End(c.chain, v.incoming[c]) == e && c in v.metadata
  {
    assert C.Edge(G, e, c, G.parent[(e, c)]);
  }

  lemma MetadataIs(n: Network, held: Held, b: ChainId, k: Key)
    requires b in n.chains
    ensures k in n.chains[b].s.metadata <==> At(b, k) in ViewOf(n, held).metadata
  {
  }

  lemma ClearingBurns(G: C.Graph, v: C.View, step: C.Step, l: Loc)
    requires C.Enabled(G, v, step) && l in v.metadata && l !in C.Do(G, v, step).metadata
    ensures step == C.BurnsReturned(l)
  {
  }

  lemma ClearedIsBurned(G: C.Graph, v: C.View, step: C.Step, v': C.View, l: Loc)
    requires C.Inv(G, v) && C.Enabled(G, v, step) && v' == C.Do(G, v, step) && l in v.metadata && l !in v'.metadata
    ensures C.Locked(G, v.nfts, l) && l !in v'.nfts && l !in v'.incoming
  {
    ClearingBurns(G, v, step, l);
    HeldIsNotOwned(G, v, l);
  }

  /** A token's metadata goes only together with its voucher: in the step that burns it on return. */
  lemma ClearedOnlyByBurn(T: Topology, n: Network, acts: seq<Move>, act: Move, a: ChainId, k: Key)
    requires ValidTopology(T) && Genesis(T, n)
    requires var m := ApplyAll(T, n, acts);
             && a in m.chains
             && k in m.chains[a].s.metadata
             && a in Apply(T, m, act).chains
             && k !in Apply(T, m, act).chains[a].s.metadata
    ensures var m := ApplyAll(T, n, acts);
            var m' := Apply(T, m, act);
            && a in T.envs && NftAt(m.chains[a], k).Some? && NftAt(m.chains[a], k).value.owner == T.envs[a].self
            && NftAt(m'.chains[a], k) == None && k !in m'.chains[a].s.incoming
  {
    var m := ApplyAll(T, n, acts);
    var m' := Apply(T, m, act);
    var held := ReachableInv(T, n, acts);
    var step, held' := MoveIsStep(T, m, held, act);
    MetadataIs(m, held, a, k);
    MetadataIs(m', held', a, k);
    ClearedIsBurned(GraphOf(T), ViewOf(m, held), step, ViewOf(m', held'), At(a, k));
    LockedOn(T, m, held, a, k);
    GoneFromView(m', held', a, k);
    IncomingIs(m', held', a, k);
  }

  lemma GoneFromView(n: Network, held: Held, a: ChainId, k: Key)
    requires a in n.chains && At(a, k) !in ViewOf(n, held).nfts
    ensures NftAt(n.chains[a], k) == None
  {
  }

  /**
   OUTGOING implies locked, unless its channel is the one the class ID names: a voucher burned on return
   leaves its entry.
   */
  lemma OutgoingIsLocked(T: Topology, n: Network, acts: seq<Move>, a: ChainId, k: Key)
    requires ValidTopology(T) && Genesis(T, n)
    requires var m := ApplyAll(T, n, acts);
             && a in m.chains && k in m.chains[a].s.outgoing
             && Popped(T, C.End(a, m.chains[a].s.outgoing[k]), At(a, k)).None?
    ensures var m := ApplyAll(T, n, acts);
            a in T.envs && NftAt(m.chains[a], k).Some? && NftAt(m.chains[a], k).value.owner == T.envs[a].self
  {
    var m := ApplyAll(T, n, acts);
    var held := ReachableInv(T, n, acts);
    OutgoingInView(m, held, a, k);
    SentOutLocked(GraphOf(T), ViewOf(m, held), At(a, k));
    LockedOn(T, m, held, a, k);
  }

  lemma OutgoingInView(n: Network, held: Held, b: ChainId, k: Key)
    requires b in n.chains && k in n.chains[b].s.outgoing
    ensures At(b, k) in ViewOf(n, held).outgoing && ViewOf(n, held).outgoing[At(b, k)] == n.chains[b].s.outgoing[k]
  {
  }

  lemma SentOutLocked(G: C.Graph, v: C.View, l: Loc)
    requires C.Inv(G, v) && l in v.outgoing && !C.CameOver(G, C.End(l.chain, v.outgoing[l]), l)
    ensures C.Locked(G, v.nfts, l)
  {
    assert C.SentOut(G, v.outgoing, l, C.End(l.chain, v.outgoing[l]));
  }

  /** An NFT that a user let go of, and that still exists, belongs to a bridge. */
  ghost predicate RetiredIsLocked(G: C.Graph, v: C.View) {
    forall l | l in v.retired && l in v.nfts :: C.Locked(G, v.nfts, l)
  }

  lemma StepKeepsRetired(G: C.Graph, v: C.View, step: C.Step)
    requires C.Enabled(G, v, step) && RetiredIsLocked(G, v)
    ensures RetiredIsLocked(G, C.Do(G, v, step))
  {
  }

  lemma StepsKeepRetired(T: Topology, n: Network, held: Held, step: C.Step, user: Option<Loc>, n': Network, held': Held)
    requires RetiredIsLocked(GraphOf(T), ViewOf(n, held)) && Steps(T, n, held, step, user, n', held')
    ensures RetiredIsLocked(GraphOf(T), ViewOf(n', held'))
  {
    StepKeepsRetired(GraphOf(T), ViewOf(n, held), step);
  }

  lemma {:induction false} RetiredRun(T: Topology, n: Network, acts: seq<Move>) returns (held: Held)
    requires ValidTopology(T) && Genesis(T, n)
    ensures NetInv(T, ApplyAll(T, n, acts), held) && RetiredIsLocked(GraphOf(T), ViewOf(ApplyAll(T, n, acts), held))
  {
    if acts == [] {
      held := imap[];
      GenesisInv(T, n);
    } else {
      var m, act := ApplyAll(T, n, acts[..|acts| - 1]), acts[|acts| - 1];
      var before := RetiredRun(T, n, acts[..|acts| - 1]);
      var step;
      step, held := MoveIsStep(T, m, before, act);
      StepsKeepInv(T, m, before, step, UserLoc(m, act), ApplyAll(T, n, acts), held);
      StepsKeepRetired(T, m, before, step, UserLoc(m, act), ApplyAll(T, n, acts), held);
    }
  }

  lemma LockedIff(G: C.Graph, v: C.View, l: Loc)
    requires C.Inv(G, v) && RetiredIsLocked(G, v) && l in v.outgoing
    ensures C.Locked(G, v.nfts, l) <==>
            !C.CameOver(G, C.End(l.chain, v.outgoing[l]), l) || l in v.held || (l in v.retired && l in v.nfts)
  {
    if !C.CameOver(G, C.End(l.chain, v.outgoing[l]), l) {
      SentOutLocked(G, v, l);
    }
  }

  /** An open packet took the token out by that channel end. */
  ghost predicate OnItsWay(n: Network, l: Loc, e: End) {
    exists i :: i in n.flights && |n.flights[i].data.tokenIds| == 1 && LocOf(n.flights[i]) == l && n.flights[i].src == e
  }

  lemma HeldIsOnItsWay(T: Topology, n: Network, held: Held, l: Loc)
    requires C.Inv(GraphOf(T), ViewOf(n, held)) && HeldAgrees(GraphOf(T), n.flights, held) && l in held
    ensures l in ViewOf(n, held).outgoing && OnItsWay(n, l, C.End(l.chain, ViewOf(n, held).outgoing[l]))
  {
    HoldIsFlight(GraphOf(T), n.flights, held, l);
    HoldIsOut(GraphOf(T), ViewOf(n, held), l);
    assert n.flights[held[l].id].src == held[l].src;
  }

  lemma OnItsWayIsHeld(T: Topology, n: Network, held: Held, l: Loc, e: End)
    requires HeldAgrees(GraphOf(T), n.flights, held) && C.CameOver(GraphOf(T), e, l) && OnItsWay(n, l, e)
    ensures l in held
  {
    var i :| i in n.flights && |n.flights[i].data.tokenIds| == 1 && LocOf(n.flights[i]) == l && n.flights[i].src == e;
    FlightIsHeld(T, n, held, i);
  }

  /**
   "OUTGOING implies locked" fails after every return. It holds exactly where the entry's channel is not
   the one the class ID names, or an open packet still holds the voucher, or a user dropped the voucher
   on the bridge.
   */
  lemma OutgoingIsLockedIff(T: Topology, n: Network, acts: seq<Move>, a: ChainId, k: Key)
    requires ValidTopology(T) && Genesis(T, n)
    requires a in ApplyAll(T, n, acts).chains && k in ApplyAll(T, n, acts).chains[a].s.outgoing
    ensures var m := ApplyAll(T, n, acts);
            var e := C.End(a, m.chains[a].s.outgoing[k]);
            && a in T.envs && e in T.peer
            && (NftAt(m.chains[a], k).Some? && NftAt(m.chains[a], k).value.owner == T.envs[a].self
                <==> || Popped(T, e, At(a, k)).None? || OnItsWay(m, At(a, k), e)
                     || (At(a, k) in m.retired && NftAt(m.chains[a], k).Some?))
  {
    var m := ApplyAll(T, n, acts);
    var held := RetiredRun(T, n, acts);
    OutgoingInView(m, held, a, k);
    LockedIff(GraphOf(T), ViewOf(m, held), At(a, k));
    OutgoingEnd(GraphOf(T), ViewOf(m, held), At(a, k));
    LockedView(T, m, held, a, k);
    NftIs(m, held, a, k);
    if Popped(T, C.End(a, m.chains[a].s.outgoing[k]), At(a, k)).Some? {
      IsHeldIff(T, m, held, At(a, k), C.End(a, m.chains[a].s.outgoing[k]));
    }
  }

  lemma IsHeldIff(T: Topology, n: Network, held: Held, l: Loc, e: End)
    requires
      && l in ViewOf(n, held).outgoing
      && C.End(l.chain, ViewOf(n, held).outgoing[l]) == e
      && C.CameOver(GraphOf(T), e, l)
    requires C.Inv(GraphOf(T), ViewOf(n, held)) && HeldAgrees(GraphOf(T), n.flights, held)
    ensures l in held <==> OnItsWay(n, l, e)
  {
    if l in held {
      HeldIsOnItsWay(T, n, held, l);
    } else if OnItsWay(n, l, e) {
      OnItsWayIsHeld(T, n, held, l, e);
    }
  }

  lemma OutgoingEnd(G: C.Graph, v: C.View, l: Loc)
    requires C.Inv(G, v) && l in v.outgoing
    ensures C.End(l.chain, v.outgoing[l]) in G.peer
  {
  }

  lemma LockedView(T: Topology, n: Network, held: Held, a: ChainId, k: Key)
    requires a in n.chains && a in T.envs
    ensures C.Locked(GraphOf(T), ViewOf(n, held).nfts, At(a, k)) <==>
            NftAt(n.chains[a], k).Some? && NftAt(n.chains[a], k).value.owner == T.envs[a].self
  {
    NftIs(n, held, a, k);
    LockedIs(GraphOf(T), ViewOf(n, held).nfts, At(a, k));
  }

  lemma LockedIs(G: C.Graph, nfts: imap<Loc, Nft>, l: Loc)
    ensures C.Locked(G, nfts, l) <==> Look(nfts, l).Some? && Look(nfts, l).value.owner == C.Bridge(G, l.chain)
  {
  }
}
