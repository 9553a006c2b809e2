/**
 The custody protocol that a network of bridges follows, stated over locations: a location is a
 (class ID, token ID) on a chain. A voucher's location has a parent location on the chain at the
 other end of the channel it arrived on.

 `Inv` says who may own what while which packets are open; every step keeps it.
 */
module Custody {
  import opened Types

  type ChainId = nat

  /** A channel end on a chain. */
  datatype End = End(chain: ChainId, channel: ChannelId)

  datatype Loc = Loc(chain: ChainId, classId: ClassId, tokenId: TokenId)

  /** `Redeemed`: the voucher was redeemed at home, and its burning ack is on the way. */
  datatype Status = Undelivered | Failed | Redeemed

  /** An open packet that keeps its NFT in the sending bridge; a packet that created a voucher does not. */
  datatype Hold = Hold(id: nat, src: End, uri: Option<string>, data: Option<Binary>, sender: Addr, status: Status)

  /**
   What the protocol can see of the network: NFTs, the OUTGOING, INCOMING and TOKEN_METADATA
   maps, the open packet that holds each location, and the locations whose NFT a user burned or
   gave to a bridge without sending it.
   */
  datatype View = View(
    nfts: imap<Loc, Nft>,
    outgoing: imap<Loc, ChannelId>,
    incoming: imap<Loc, ChannelId>,
    metadata: imap<Loc, Option<Binary>>,
    held: imap<Loc, Hold>,
    retired: set<Loc>)

  /**
   Any number of chains with one bridge each, and any set of channels between them. `parent` maps a
   voucher and the channel end it arrived on to the location it stands for; `voucher` maps a
   location and the channel end it leaves by to the voucher it becomes.
   */
  datatype Graph = Graph(
    bridge: map<ChainId, Addr>,
    peer: map<End, End>,
    parent: imap<(End, Loc), Loc>,
    voucher: imap<(End, Loc), Loc>)

  /** `l` is a voucher that arrived on `e`. */
  ghost predicate CameOver(G: Graph, e: End, l: Loc) {
    e in G.peer && (e, l) in G.parent
  }

  ghost predicate Native(G: Graph, l: Loc) {
    forall f :: !CameOver(G, f, l)
  }

  /** `c` is a voucher for `l` that arrived on `f`. */
  ghost predicate Edge(G: Graph, f: End, c: Loc, l: Loc) {
    CameOver(G, f, c) && G.parent[(f, c)] == l
  }

  ghost function Voucher(G: Graph, e: End, l: Loc): Loc {
    if (e, l) in G.voucher then G.voucher[(e, l)] else l
  }

  ghost predicate ValidGraph(G: Graph) {
    && (forall e | e in G.peer :: G.peer[e] in G.peer && G.peer[G.peer[e]] == e && e.chain in G.bridge)
    && (forall f, c, l | Edge(G, f, c, l) ::
          f.chain == c.chain && G.peer[f].chain == l.chain && |l.classId| < |c.classId|
          && c == Voucher(G, G.peer[f], l))
    && (forall e: End, l: Loc {:trigger Voucher(G, e, l)} | e in G.peer && e.chain == l.chain ::
          Edge(G, G.peer[e], Voucher(G, e, l), l))
    && (forall e, f, c | CameOver(G, e, c) && CameOver(G, f, c) :: e == f)
  }

  ghost function Bridge(G: Graph, a: ChainId): Addr {
    if a in G.bridge then G.bridge[a] else ""
  }

  // ---------- Invariant ----------

  ghost predicate Locked(G: Graph, nfts: imap<Loc, Nft>, l: Loc) {
    l in nfts && nfts[l].owner == Bridge(G, l.chain)
  }

  ghost predicate Dead(held: imap<Loc, Hold>, l: Loc) {
    l in held && held[l].status == Redeemed
  }

  /** The NFT is not a voucher that only waits to be burned. */
  ghost predicate Live(nfts: imap<Loc, Nft>, held: imap<Loc, Hold>, l: Loc) {
    l in nfts && !Dead(held, l)
  }

  /** `l` was sent out on `e`, which is not where it came from. */
  ghost predicate SentOut(G: Graph, outgoing: imap<Loc, ChannelId>, l: Loc, e: End) {
    l in outgoing && e == End(l.chain, outgoing[l]) && e in G.peer && !CameOver(G, e, l)
  }

  ghost function Data(metadata: imap<Loc, Option<Binary>>, l: Loc): Option<Binary> {
    if l in metadata then metadata[l] else None
  }

  ghost predicate WellTyped(G: Graph, v: View) {
    && (forall l | l in v.outgoing :: End(l.chain, v.outgoing[l]) in G.peer)
    && (forall l | l in v.incoming :: CameOver(G, End(l.chain, v.incoming[l]), l))
    && (forall l | l in v.metadata :: l in v.incoming)
  }

  /** A held NFT is the bridge's, and OUTGOING names the packet's channel. */
  ghost predicate HeldIsLocked(G: Graph, v: View) {
    forall l | l in v.held ::
      && Locked(G, v.nfts, l)
      && l in v.outgoing
      && v.held[l].src == End(l.chain, v.outgoing[l])
      && (v.held[l].status == Redeemed ==> CameOver(G, v.held[l].src, l))
  }

  /** OUTGOING implies locked, except for the entry a burned voucher leaves behind. */
  ghost predicate SentOutIsLocked(G: Graph, v: View) {
    forall l, e | SentOut(G, v.outgoing, l, e) :: Locked(G, v.nfts, l)
  }

  /** A live voucher's parent was sent out on the paired channel and no open packet holds it. */
  ghost predicate VouchersAreBacked(G: Graph, v: View) {
    forall f, c, l | Edge(G, f, c, l) && Live(v.nfts, v.held, c) :: SentOut(G, v.outgoing, l, G.peer[f]) && l !in v.held
  }

  /** A voucher never stands for a voucher of its own channel's other end, and is on record. */
  ghost predicate VouchersAreRecorded(G: Graph, v: View) {
    forall f, c, l | Edge(G, f, c, l) && c in v.nfts ::
      !CameOver(G, G.peer[f], l) && c in v.incoming && c in v.metadata
  }

  /** A live voucher carries its parent's uri and data. */
  ghost predicate VouchersAreFaithful(G: Graph, v: View) {
    forall f, c, l | Edge(G, f, c, l) && Live(v.nfts, v.held, c) ::
      l in v.nfts && v.nfts[c].uri == v.nfts[l].uri && Data(v.metadata, c) == Data(v.metadata, l)
  }

  /** So does a packet that may still create one. */
  ghost predicate PacketsAreFaithful(v: View) {
    forall l | l in v.held && l in v.nfts ::
      v.held[l].uri == v.nfts[l].uri && v.held[l].data == Data(v.metadata, l)
  }

  ghost predicate MetadataIsFaithful(G: Graph, v: View) {
    VouchersAreFaithful(G, v) && PacketsAreFaithful(v)
  }

  /** A locked NFT is in an open packet, or has a live voucher, or some user let go of that voucher. */
  ghost predicate NothingIsLost(G: Graph, v: View) {
    SentOutHasVoucher(G, v) && LockedIsSentOut(G, v)
  }

  ghost predicate SentOutHasVoucher(G: Graph, v: View) {
    forall l, e | SentOut(G, v.outgoing, l, e) ::
      l in v.held || Live(v.nfts, v.held, Voucher(G, e, l)) || Voucher(G, e, l) in v.retired
  }

  ghost predicate LockedIsSentOut(G: Graph, v: View) {
    forall l | Locked(G, v.nfts, l) ::
      l in v.held || l in v.retired || (l in v.outgoing && SentOut(G, v.outgoing, l, End(l.chain, v.outgoing[l])))
  }

  ghost predicate Locks(G: Graph, v: View) {
    HeldIsLocked(G, v) && SentOutIsLocked(G, v)
  }

  ghost predicate Vouchers(G: Graph, v: View) {
    VouchersAreBacked(G, v) && VouchersAreRecorded(G, v)
  }

  ghost predicate Inv(G: Graph, v: View) {
    WellTyped(G, v) && Locks(G, v) && Vouchers(G, v) && MetadataIsFaithful(G, v) && NothingIsLost(G, v)
  }

  // ---------- Steps ----------

  ghost function Retire(G: Graph, v: View, l: Loc, owner: Addr): set<Loc> {
    if owner == Bridge(G, l.chain) then v.retired + {l} else v.retired - {l}
  }

  ghost predicate CanUserStep(G: Graph, v: View, l: Loc, nft: Option<Nft>) {
    && !Locked(G, v.nfts, l)
    && (nft.Some? && l !in v.nfts ==> Native(G, l))
    && (nft.Some? && l in v.nfts ==> nft.value.uri == v.nfts[l].uri)
  }

  /** A user moves or burns an NFT that no bridge holds, or a native collection's minter mints one. */
  ghost function UserStep(G: Graph, v: View, l: Loc, nft: Option<Nft>): View {
    match nft
    case Some(nft) => v.(nfts := v.nfts[l := nft], retired := Retire(G, v, l, nft.owner))
    case None => v.(nfts := v.nfts - {l}, retired := v.retired + {l})
  }

  ghost predicate CanSend(G: Graph, v: View, e: End, l: Loc) {
    e in G.peer && e.chain == l.chain && l in v.nfts && !Locked(G, v.nfts, l)
  }

  /** Lock and send. */
  ghost function Send(G: Graph, v: View, id: nat, e: End, l: Loc, sender: Addr): View
    requires l in v.nfts
  {
    v.(nfts := v.nfts[l := v.nfts[l].(owner := Bridge(G, l.chain))],
       outgoing := v.outgoing[l := e.channel],
       held := v.held[l := Hold(id, e, v.nfts[l].uri, Data(v.metadata, l), sender, Undelivered)])
  }

  ghost predicate CanDeliver(v: View, l: Loc) {
    l in v.held && v.held[l].status == Undelivered
  }

  /** A delivery that ends in an error ack; `saved` when the handler got as far as its INCOMING entry. */
  ghost function Reject(G: Graph, v: View, l: Loc, saved: bool): View
    requires l in v.held && v.held[l].src in G.peer
  {
    var p := v.held[l];
    v.(incoming := if saved then v.incoming[Voucher(G, p.src, l) := G.peer[p.src].channel] else v.incoming,
       held := v.held[l := p.(status := Failed)])
  }

  ghost predicate CanCreate(G: Graph, v: View, l: Loc) {
    && CanDeliver(v, l)
    && !CameOver(G, v.held[l].src, l)
    && Voucher(G, v.held[l].src, l) !in v.nfts
  }

  /** A delivery that creates a voucher. */
  ghost function Create(G: Graph, v: View, l: Loc, receiver: Addr): View
    requires l in v.held && v.held[l].src in G.peer
  {
    var p := v.held[l];
    var c := Voucher(G, p.src, l);
    v.(nfts := v.nfts[c := Nft(receiver, p.uri)],
       incoming := v.incoming[c := G.peer[p.src].channel],
       metadata := v.metadata[c := p.data],
       held := v.held - {l},
       retired := Retire(G, v, c, receiver))
  }

  ghost predicate CanRedeem(G: Graph, v: View, c: Loc, l: Loc) {
    CanDeliver(v, c) && Edge(G, v.held[c].src, c, l)
  }

  /** A delivery that redeems the voucher `c` for `l`. */
  ghost function Redeem(G: Graph, v: View, c: Loc, l: Loc, receiver: Addr): View
    requires c in v.held && l in v.nfts
  {
    v.(nfts := v.nfts[l := v.nfts[l].(owner := receiver)],
       outgoing := v.outgoing - {l},
       held := v.held[c := v.held[c].(status := Status.Redeemed)],
       retired := Retire(G, v, l, receiver))
  }

  ghost predicate CanRefund(v: View, l: Loc) {
    l in v.held && v.held[l].status != Redeemed
  }

  /** An error ack or a timeout. */
  ghost function Refund(G: Graph, v: View, l: Loc): View
    requires l in v.held && l in v.nfts
  {
    v.(nfts := v.nfts[l := v.nfts[l].(owner := v.held[l].sender)],
       outgoing := v.outgoing - {l},
       held := v.held - {l},
       retired := Retire(G, v, l, v.held[l].sender))
  }

  /** A success ack for a returned voucher. */
  ghost function BurnReturned(v: View, l: Loc): View {
    v.(nfts := v.nfts - {l}, incoming := v.incoming - {l}, metadata := v.metadata - {l}, held := v.held - {l})
  }

  // ---------- Each step keeps the invariant ----------

  /** A live voucher's parent is live and locked, and no open packet holds it. */
  lemma LiveParent(G: Graph, v: View, f: End, c: Loc, l: Loc)
    requires ValidGraph(G) && Locks(G, v) && Vouchers(G, v) && Edge(G, f, c, l) && Live(v.nfts, v.held, c)
    ensures Live(v.nfts, v.held, l) && Locked(G, v.nfts, l) && SentOut(G, v.outgoing, l, G.peer[f]) && l !in v.held
  {
  }

  lemma UserStepKeepsWellTyped(G: Graph, v: View, l: Loc, nft: Option<Nft>)
    requires WellTyped(G, v) && CanUserStep(G, v, l, nft)
    ensures WellTyped(G, UserStep(G, v, l, nft))
  {
  }

  lemma UserStepKeepsLocks(G: Graph, v: View, l: Loc, nft: Option<Nft>)
    requires Locks(G, v) && CanUserStep(G, v, l, nft)
    ensures Locks(G, UserStep(G, v, l, nft))
  {
  }

  lemma UserStepKeepsVouchers(G: Graph, v: View, l: Loc, nft: Option<Nft>)
    requires Locks(G, v) && Vouchers(G, v) && CanUserStep(G, v, l, nft)
    ensures Vouchers(G, UserStep(G, v, l, nft))
  {
  }

  lemma UserStepKeepsMetadataIsFaithful(G: Graph, v: View, l: Loc, nft: Option<Nft>)
    requires Locks(G, v) && Vouchers(G, v) && MetadataIsFaithful(G, v) && CanUserStep(G, v, l, nft)
    ensures MetadataIsFaithful(G, UserStep(G, v, l, nft))
  {
  }

  lemma UserStepKeepsNothingIsLost(G: Graph, v: View, l: Loc, nft: Option<Nft>)
    requires Locks(G, v) && Vouchers(G, v) && NothingIsLost(G, v) && CanUserStep(G, v, l, nft)
    ensures NothingIsLost(G, UserStep(G, v, l, nft))
  {
  }

  lemma UserStepKeepsInv(G: Graph, v: View, l: Loc, nft: Option<Nft>)
    requires ValidGraph(G) && Inv(G, v) && CanUserStep(G, v, l, nft)
    ensures Inv(G, UserStep(G, v, l, nft))
  {
    UserStepKeepsWellTyped(G, v, l, nft);
    UserStepKeepsLocks(G, v, l, nft);
    UserStepKeepsVouchers(G, v, l, nft);
    UserStepKeepsMetadataIsFaithful(G, v, l, nft);
    UserStepKeepsNothingIsLost(G, v, l, nft);
  }

  lemma SendKeepsWellTyped(G: Graph, v: View, id: nat, e: End, l: Loc, sender: Addr)
    requires WellTyped(G, v) && CanSend(G, v, e, l)
    ensures WellTyped(G, Send(G, v, id, e, l, sender))
  {
  }

  lemma SendKeepsLocks(G: Graph, v: View, id: nat, e: End, l: Loc, sender: Addr)
    requires Locks(G, v) && Vouchers(G, v) && CanSend(G, v, e, l)
    ensures Locks(G, Send(G, v, id, e, l, sender))
  {
    var v' := Send(G, v, id, e, l, sender);
    assert forall k, e' | k != l :: SentOut(G, v'.outgoing, k, e') <==> SentOut(G, v.outgoing, k, e');
  }

  lemma SendKeepsVouchers(G: Graph, v: View, id: nat, e: End, l: Loc, sender: Addr)
    requires Locks(G, v) && Vouchers(G, v) && CanSend(G, v, e, l)
    ensures Vouchers(G, Send(G, v, id, e, l, sender))
  {
  }

  lemma SendKeepsMetadataIsFaithful(G: Graph, v: View, id: nat, e: End, l: Loc, sender: Addr)
    requires Locks(G, v) && Vouchers(G, v) && MetadataIsFaithful(G, v) && CanSend(G, v, e, l)
    ensures MetadataIsFaithful(G, Send(G, v, id, e, l, sender))
  {
  }

  lemma SendKeepsNothingIsLost(G: Graph, v: View, id: nat, e: End, l: Loc, sender: Addr)
    requires NothingIsLost(G, v) && CanSend(G, v, e, l)
    ensures NothingIsLost(G, Send(G, v, id, e, l, sender))
  {
  }

  lemma SendKeepsInv(G: Graph, v: View, id: nat, e: End, l: Loc, sender: Addr)
    requires ValidGraph(G) && Inv(G, v) && CanSend(G, v, e, l)
    ensures Inv(G, Send(G, v, id, e, l, sender))
  {
    SendKeepsWellTyped(G, v, id, e, l, sender);
    SendKeepsLocks(G, v, id, e, l, sender);
    SendKeepsVouchers(G, v, id, e, l, sender);
    SendKeepsMetadataIsFaithful(G, v, id, e, l, sender);
    SendKeepsNothingIsLost(G, v, id, e, l, sender);
  }

  lemma RejectKeepsWellTyped(G: Graph, v: View, l: Loc, saved: bool)
    requires ValidGraph(G) && WellTyped(G, v) && Locks(G, v) && CanDeliver(v, l)
    ensures WellTyped(G, Reject(G, v, l, saved))
  {
  }

  lemma RejectKeepsLocks(G: Graph, v: View, l: Loc, saved: bool)
    requires WellTyped(G, v) && Locks(G, v) && CanDeliver(v, l)
    ensures Locks(G, Reject(G, v, l, saved))
  {
  }

  lemma RejectKeepsVouchers(G: Graph, v: View, l: Loc, saved: bool)
    requires WellTyped(G, v) && Locks(G, v) && Vouchers(G, v) && CanDeliver(v, l)
    ensures Vouchers(G, Reject(G, v, l, saved))
  {
  }

  lemma RejectKeepsMetadataIsFaithful(G: Graph, v: View, l: Loc, saved: bool)
    requires WellTyped(G, v) && Locks(G, v) && MetadataIsFaithful(G, v) && CanDeliver(v, l)
    ensures MetadataIsFaithful(G, Reject(G, v, l, saved))
  {
  }

  lemma RejectKeepsNothingIsLost(G: Graph, v: View, l: Loc, saved: bool)
    requires WellTyped(G, v) && Locks(G, v) && NothingIsLost(G, v) && CanDeliver(v, l)
    ensures NothingIsLost(G, Reject(G, v, l, saved))
  {
  }

  lemma RejectKeepsInv(G: Graph, v: View, l: Loc, saved: bool)
    requires ValidGraph(G) && Inv(G, v) && CanDeliver(v, l)
    ensures Inv(G, Reject(G, v, l, saved))
  {
    RejectKeepsWellTyped(G, v, l, saved);
    RejectKeepsLocks(G, v, l, saved);
    RejectKeepsVouchers(G, v, l, saved);
    RejectKeepsMetadataIsFaithful(G, v, l, saved);
    RejectKeepsNothingIsLost(G, v, l, saved);
  }

  lemma CreateKeepsWellTyped(G: Graph, v: View, l: Loc, receiver: Addr)
    requires ValidGraph(G) && WellTyped(G, v) && Locks(G, v) && CanCreate(G, v, l)
    ensures WellTyped(G, Create(G, v, l, receiver))
  {
  }

  lemma CreateKeepsLocks(G: Graph, v: View, l: Loc, receiver: Addr)
    requires WellTyped(G, v) && Locks(G, v) && CanCreate(G, v, l)
    ensures Locks(G, Create(G, v, l, receiver))
  {
  }

  lemma CreateKeepsBacked(G: Graph, v: View, l: Loc, receiver: Addr)
    requires ValidGraph(G) && WellTyped(G, v) && Locks(G, v) && Vouchers(G, v) && CanCreate(G, v, l)
    ensures VouchersAreBacked(G, Create(G, v, l, receiver))
  {
    var v' := Create(G, v, l, receiver);
    forall f, c, m | Edge(G, f, c, m) && Live(v'.nfts, v'.held, c)
      ensures SentOut(G, v'.outgoing, m, G.peer[f]) && m !in v'.held
    {
      if c == Voucher(G, v.held[l].src, l) {
        assert m == l;
      } else {
        assert Live(v.nfts, v.held, c);
      }
    }
  }

  lemma CreateKeepsRecorded(G: Graph, v: View, l: Loc, receiver: Addr)
    requires ValidGraph(G) && WellTyped(G, v) && Locks(G, v) && Vouchers(G, v) && CanCreate(G, v, l)
    ensures VouchersAreRecorded(G, Create(G, v, l, receiver))
  {
  }

  lemma CreateKeepsVouchers(G: Graph, v: View, l: Loc, receiver: Addr)
    requires ValidGraph(G) && WellTyped(G, v) && Locks(G, v) && Vouchers(G, v) && CanCreate(G, v, l)
    ensures Vouchers(G, Create(G, v, l, receiver))
  {
    CreateKeepsBacked(G, v, l, receiver);
    CreateKeepsRecorded(G, v, l, receiver);
  }

  lemma CreateKeepsMetadataIsFaithful(G: Graph, v: View, l: Loc, receiver: Addr)
    requires
      && ValidGraph(G)
      && WellTyped(G, v)
      && Locks(G, v)
      && Vouchers(G, v)
      && MetadataIsFaithful(G, v)
      && CanCreate(G, v, l)
    ensures MetadataIsFaithful(G, Create(G, v, l, receiver))
  {
    CreateKeepsVouchersFaithful(G, v, l, receiver);
  }

  lemma CreateKeepsNothingIsLost(G: Graph, v: View, l: Loc, receiver: Addr)
    requires WellTyped(G, v) && Locks(G, v) && NothingIsLost(G, v) && CanCreate(G, v, l)
    ensures NothingIsLost(G, Create(G, v, l, receiver))
  {
  }

  lemma CreateKeepsInv(G: Graph, v: View, l: Loc, receiver: Addr)
    requires ValidGraph(G) && Inv(G, v) && CanCreate(G, v, l)
    ensures Inv(G, Create(G, v, l, receiver))
  {
    CreateKeepsWellTyped(G, v, l, receiver);
    CreateKeepsLocks(G, v, l, receiver);
    CreateKeepsVouchers(G, v, l, receiver);
    CreateKeepsMetadataIsFaithful(G, v, l, receiver);
    CreateKeepsNothingIsLost(G, v, l, receiver);
  }

  lemma CreateKeepsVouchersFaithful(G: Graph, v: View, l: Loc, receiver: Addr)
    requires ValidGraph(G) && WellTyped(G, v) && Locks(G, v) && MetadataIsFaithful(G, v)
    requires CanCreate(G, v, l)
    ensures VouchersAreFaithful(G, Create(G, v, l, receiver))
  {
    var v' := Create(G, v, l, receiver);
    var c := Voucher(G, v.held[l].src, l);
    forall f, d, k | Edge(G, f, d, k) && Live(v'.nfts, v'.held, d)
      ensures k in v'.nfts && v'.nfts[d].uri == v'.nfts[k].uri && Data(v'.metadata, d) == Data(v'.metadata, k)
    {
      if d == c {
        assert Edge(G, G.peer[v.held[l].src], c, l);
      } else if k == c {
        LiveParent(G, v, f, d, c);
      }
    }
  }

  lemma RedeemKeepsWellTyped(G: Graph, v: View, c: Loc, l: Loc, receiver: Addr)
    requires WellTyped(G, v) && CanRedeem(G, v, c, l)
    requires l in v.nfts
    ensures WellTyped(G, Redeem(G, v, c, l, receiver))
  {
  }

  lemma RedeemKeepsLocks(G: Graph, v: View, c: Loc, l: Loc, receiver: Addr)
    requires ValidGraph(G) && Locks(G, v) && Vouchers(G, v) && CanRedeem(G, v, c, l)
    requires l in v.nfts
    ensures Locks(G, Redeem(G, v, c, l, receiver))
  {
    LiveParent(G, v, v.held[c].src, c, l);
    var v' := Redeem(G, v, c, l, receiver);
    assert forall k, e' | k != l :: SentOut(G, v'.outgoing, k, e') <==> SentOut(G, v.outgoing, k, e');
  }

  lemma RedeemKeepsVouchers(G: Graph, v: View, c: Loc, l: Loc, receiver: Addr)
    requires ValidGraph(G) && Locks(G, v) && Vouchers(G, v) && CanRedeem(G, v, c, l)
    requires l in v.nfts
    ensures Vouchers(G, Redeem(G, v, c, l, receiver))
  {
    LiveParent(G, v, v.held[c].src, c, l);
  }

  lemma RedeemKeepsMetadataIsFaithful(G: Graph, v: View, c: Loc, l: Loc, receiver: Addr)
    requires ValidGraph(G) && Locks(G, v) && Vouchers(G, v) && MetadataIsFaithful(G, v) && CanRedeem(G, v, c, l)
    requires l in v.nfts
    ensures MetadataIsFaithful(G, Redeem(G, v, c, l, receiver))
  {
    LiveParent(G, v, v.held[c].src, c, l);
  }

  lemma RedeemKeepsNothingIsLost(G: Graph, v: View, c: Loc, l: Loc, receiver: Addr)
    requires ValidGraph(G) && Locks(G, v) && Vouchers(G, v) && NothingIsLost(G, v) && CanRedeem(G, v, c, l)
    requires l in v.nfts
    ensures NothingIsLost(G, Redeem(G, v, c, l, receiver))
  {
    LiveParent(G, v, v.held[c].src, c, l);
  }

  lemma RedeemKeepsInv(G: Graph, v: View, c: Loc, l: Loc, receiver: Addr)
    requires ValidGraph(G) && Inv(G, v) && CanRedeem(G, v, c, l)
    requires l in v.nfts
    ensures Inv(G, Redeem(G, v, c, l, receiver))
  {
    RedeemKeepsWellTyped(G, v, c, l, receiver);
    RedeemKeepsLocks(G, v, c, l, receiver);
    RedeemKeepsVouchers(G, v, c, l, receiver);
    RedeemKeepsMetadataIsFaithful(G, v, c, l, receiver);
    RedeemKeepsNothingIsLost(G, v, c, l, receiver);
  }

  lemma RefundKeepsWellTyped(G: Graph, v: View, l: Loc)
    requires WellTyped(G, v) && Locks(G, v) && CanRefund(v, l)
    ensures WellTyped(G, Refund(G, v, l))
  {
  }

  lemma RefundKeepsLocks(G: Graph, v: View, l: Loc)
    requires Locks(G, v) && CanRefund(v, l)
    ensures Locks(G, Refund(G, v, l))
  {
    var v' := Refund(G, v, l);
    assert forall k, e' | k != l :: SentOut(G, v'.outgoing, k, e') <==> SentOut(G, v.outgoing, k, e');
  }

  lemma RefundKeepsVouchers(G: Graph, v: View, l: Loc)
    requires Locks(G, v) && Vouchers(G, v) && CanRefund(v, l)
    ensures Vouchers(G, Refund(G, v, l))
  {
  }

  lemma RefundKeepsMetadataIsFaithful(G: Graph, v: View, l: Loc)
    requires Locks(G, v) && Vouchers(G, v) && MetadataIsFaithful(G, v) && CanRefund(v, l)
    ensures MetadataIsFaithful(G, Refund(G, v, l))
  {
  }

  lemma RefundKeepsNothingIsLost(G: Graph, v: View, l: Loc)
    requires Locks(G, v) && NothingIsLost(G, v) && CanRefund(v, l)
    ensures NothingIsLost(G, Refund(G, v, l))
  {
    RefundKeepsLockedIsSentOut(G, v, l);
  }

  lemma RefundKeepsLockedIsSentOut(G: Graph, v: View, l: Loc)
    requires Locks(G, v) && LockedIsSentOut(G, v) && CanRefund(v, l)
    ensures LockedIsSentOut(G, Refund(G, v, l))
  {
    var v' := Refund(G, v, l);
    assert forall k, e | k != l :: SentOut(G, v'.outgoing, k, e) <==> SentOut(G, v.outgoing, k, e);
  }

  lemma RefundKeepsInv(G: Graph, v: View, l: Loc)
    requires ValidGraph(G) && Inv(G, v) && CanRefund(v, l)
    ensures Inv(G, Refund(G, v, l))
  {
    RefundKeepsWellTyped(G, v, l);
    RefundKeepsLocks(G, v, l);
    RefundKeepsVouchers(G, v, l);
    RefundKeepsMetadataIsFaithful(G, v, l);
    RefundKeepsNothingIsLost(G, v, l);
  }

  lemma BurnReturnedKeepsWellTyped(G: Graph, v: View, l: Loc)
    requires WellTyped(G, v) && Dead(v.held, l)
    ensures WellTyped(G, BurnReturned(v, l))
  {
  }

  lemma BurnReturnedKeepsLocks(G: Graph, v: View, l: Loc)
    requires Locks(G, v) && Dead(v.held, l)
    ensures Locks(G, BurnReturned(v, l))
  {
  }

  lemma BurnReturnedKeepsVouchers(G: Graph, v: View, l: Loc)
    requires Vouchers(G, v) && Dead(v.held, l)
    ensures Vouchers(G, BurnReturned(v, l))
  {
  }

  lemma BurnReturnedKeepsMetadataIsFaithful(G: Graph, v: View, l: Loc)
    requires Vouchers(G, v) && MetadataIsFaithful(G, v) && Dead(v.held, l)
    ensures MetadataIsFaithful(G, BurnReturned(v, l))
  {
  }

  lemma BurnReturnedKeepsNothingIsLost(G: Graph, v: View, l: Loc)
    requires Locks(G, v) && Vouchers(G, v) && NothingIsLost(G, v) && Dead(v.held, l)
    ensures NothingIsLost(G, BurnReturned(v, l))
  {
  }

  lemma BurnReturnedKeepsInv(G: Graph, v: View, l: Loc)
    requires ValidGraph(G) && Inv(G, v) && Dead(v.held, l)
    ensures Inv(G, BurnReturned(v, l))
  {
    BurnReturnedKeepsWellTyped(G, v, l);
    BurnReturnedKeepsLocks(G, v, l);
    BurnReturnedKeepsVouchers(G, v, l);
    BurnReturnedKeepsMetadataIsFaithful(G, v, l);
    BurnReturnedKeepsNothingIsLost(G, v, l);
  }

  // ---------- The protocol ----------

  datatype Step =
    | Stutter
    | UserActs(l: Loc, nft: Option<Nft>)
    | Sends(id: nat, e: End, l: Loc, sender: Addr)
    | Rejects(l: Loc, saved: bool)
    | Creates(l: Loc, receiver: Addr)
    | Redeems(c: Loc, l: Loc, receiver: Addr)
    | Refunds(l: Loc)
    | BurnsReturned(l: Loc)

  ghost predicate Enabled(G: Graph, v: View, step: Step) {
    match step
    case Stutter => true
    case UserActs(l, nft) => CanUserStep(G, v, l, nft)
    case Sends(_, e, l, _) => CanSend(G, v, e, l)
    case Rejects(l, _) => CanDeliver(v, l) && v.held[l].src in G.peer
    case Creates(l, _) => CanCreate(G, v, l) && v.held[l].src in G.peer
    case Redeems(c, l, _) => CanRedeem(G, v, c, l) && l in v.nfts
    case Refunds(l) => CanRefund(v, l) && l in v.nfts
    case BurnsReturned(l) => Dead(v.held, l)
  }

  ghost function Do(G: Graph, v: View, step: Step): View
    requires Enabled(G, v, step)
  {
    match step
    case Stutter => v
    case UserActs(l, nft) => UserStep(G, v, l, nft)
    case Sends(id, e, l, sender) => Send(G, v, id, e, l, sender)
    case Rejects(l, saved) => Reject(G, v, l, saved)
    case Creates(l, receiver) => Create(G, v, l, receiver)
    case Redeems(c, l, receiver) => Redeem(G, v, c, l, receiver)
    case Refunds(l) => Refund(G, v, l)
    case BurnsReturned(l) => BurnReturned(v, l)
  }

  /** Every step of the protocol keeps its invariant. */
  lemma StepKeepsInv(G: Graph, v: View, step: Step)
    requires ValidGraph(G) && Inv(G, v) && Enabled(G, v, step)
    ensures Inv(G, Do(G, v, step))
  {
    match step {
      case Stutter =>
      case UserActs(l, nft) => UserStepKeepsInv(G, v, l, nft);
      case Sends(id, e, l, sender) => SendKeepsInv(G, v, id, e, l, sender);
      case Rejects(l, saved) => RejectKeepsInv(G, v, l, saved);
      case Creates(l, receiver) => CreateKeepsInv(G, v, l, receiver);
      case Redeems(c, l, receiver) => RedeemKeepsInv(G, v, c, l, receiver);
      case Refunds(l) => RefundKeepsInv(G, v, l);
      case BurnsReturned(l) => BurnReturnedKeepsInv(G, v, l);
    }
  }

  ghost predicate Same<V(!new)>(m: imap<Loc, V>, m': imap<Loc, V>, l: Loc) {
    (l in m' <==> l in m) && (l in m ==> m'[l] == m[l])
  }

  ghost predicate Frozen(v: View, v': View, l: Loc) {
    && Same(v.nfts, v'.nfts, l) && Same(v.outgoing, v'.outgoing, l)
    && Same(v.incoming, v'.incoming, l) && Same(v.metadata, v'.metadata, l)
  }

  lemma RejectFreezes(G: Graph, v: View, k: Loc, saved: bool, l: Loc)
    requires ValidGraph(G) && Inv(G, v) && CanDeliver(v, k) && l in v.nfts
    ensures Frozen(v, Reject(G, v, k, saved), l)
  {
    if Voucher(G, v.held[k].src, k) == l {
      assert Edge(G, G.peer[v.held[k].src], l, k);
    }
  }

  lemma CreateFreezes(G: Graph, v: View, k: Loc, receiver: Addr, l: Loc)
    requires ValidGraph(G) && Inv(G, v) && CanCreate(G, v, k) && l in v.nfts
    ensures Frozen(v, Create(G, v, k, receiver), l)
  {
  }

  /** The step is about the NFT at `l`: it moves, burns, sends, redeems or refunds it. */
  ghost predicate Moves(step: Step, l: Loc) {
    match step
    case UserActs(k, _) => k == l
    case Sends(_, _, k, _) => k == l
    case Redeems(_, k, _) => k == l
    case Refunds(k) => k == l
    case BurnsReturned(k) => k == l
    case _ => false
  }

  /** A step that is not about an NFT changes nothing that its bridge or its chain records about it. */
  lemma OthersFreeze(G: Graph, v: View, step: Step, l: Loc)
    requires ValidGraph(G) && Inv(G, v) && Enabled(G, v, step) && l in v.nfts && !Moves(step, l)
    ensures Frozen(v, Do(G, v, step), l)
  {
    match step {
      case Rejects(k, saved) => RejectFreezes(G, v, k, saved, l);
      case Creates(k, receiver) => CreateFreezes(G, v, k, receiver, l);
      case _ => LocalFreezes(G, v, step, l);
    }
  }

  lemma LocalFreezes(G: Graph, v: View, step: Step, l: Loc)
    requires Enabled(G, v, step) && !Moves(step, l) && !step.Rejects? && !step.Creates?
    ensures Frozen(v, Do(G, v, step), l)
  {
    match step {
      case Stutter =>
      case UserActs(k, nft) => assert k != l && Do(G, v, step) == UserStep(G, v, k, nft);
      case Sends(id, e, k, sender) => assert k != l && Do(G, v, step) == Send(G, v, id, e, k, sender);
      case Redeems(c, k, receiver) => assert k != l && Do(G, v, step) == Redeem(G, v, c, k, receiver);
      case Refunds(k) => assert k != l && Do(G, v, step) == Refund(G, v, k);
      case BurnsReturned(k) => assert k != l && Do(G, v, step) == BurnReturned(v, k);
    }
  }

  lemma HeldIsNotMoved(G: Graph, v: View, step: Step, l: Loc)
    requires
      && ValidGraph(G)
      && Locks(G, v)
      && Vouchers(G, v)
      && Enabled(G, v, step)
      && CanRefund(v, l)
      && CanRefund(Do(G, v, step), l)
    ensures l in v.nfts && !Moves(step, l)
  {
    match step {
      case Redeems(c, k, _) => LiveParent(G, v, v.held[c].src, c, k);
      case _ =>
    }
  }

  /** While a packet holds an NFT, nothing that its bridge or its chain records about it changes. */
  lemma HoldFreezes(G: Graph, v: View, step: Step, l: Loc)
    requires ValidGraph(G) && Inv(G, v) && Enabled(G, v, step) && CanRefund(v, l) && CanRefund(Do(G, v, step), l)
    ensures Frozen(v, Do(G, v, step), l)
  {
    HeldIsNotMoved(G, v, step, l);
    OthersFreeze(G, v, step, l);
  }

  lemma FreeIsNotMoved(G: Graph, v: View, step: Step, l: Loc)
    requires
      && ValidGraph(G)
      && Locks(G, v)
      && Vouchers(G, v)
      && Enabled(G, v, step)
      && l in v.nfts
      && !Locked(G, v.nfts, l)
    ensures Moves(step, l) ==> step.UserActs? || step.Sends?
  {
    match step {
      case Redeems(c, k, _) => LiveParent(G, v, v.held[c].src, c, k);
      case _ =>
    }
  }

  /** While a user owns an NFT, only what users do with it changes what is recorded about it. */
  lemma FreedomFreezes(G: Graph, v: View, step: Step, l: Loc)
    requires ValidGraph(G) && Inv(G, v) && Enabled(G, v, step) && l in v.nfts && !Locked(G, v.nfts, l)
    requires !(step.UserActs? && step.l == l) && !(step.Sends? && step.l == l)
    ensures Frozen(v, Do(G, v, step), l)
  {
    FreeIsNotMoved(G, v, step, l);
    OthersFreeze(G, v, step, l);
  }
}
