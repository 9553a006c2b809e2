/** What a delivered packet with arbitrary contents can and cannot do to a chain. */
module Delivery {
  import opened Types
  import opened Receive
  import opened Handlers
  import opened Invariants
  import opened Cw721
  import opened Chain

  // ---------- The messages of a submessage ----------

  lemma {:induction false} TransfersAre(contract: Addr, ids: seq<TokenId>, to: Addr)
    ensures forall m | m in Transfers(contract, ids, to) ::
              && m.Transfer?
              && m.contract == contract
              && m.token in ids
              && m.recipient == to
    ensures forall t | t in ids :: Transfer(contract, t, to) in Transfers(contract, ids, to)
  {
    if ids != [] {
      TransfersAre(contract, ids[..|ids| - 1], to);
      assert ids == ids[..|ids| - 1] + [ids[|ids| - 1]];
    }
  }

  lemma {:induction false} MintsAre(contract: Addr, ts: seq<Token>, to: Addr)
    ensures forall m | m in Mints(contract, ts, to) ::
              && m.Mint?
              && m.contract == contract
              && m.owner == to
              && exists t :: t in ts && t.id == m.token && t.uri == m.uri
    ensures forall t | t in ts :: Mint(contract, t.id, t.uri, to) in Mints(contract, ts, to)
  {
    if ts != [] {
      MintsAre(contract, ts[..|ts| - 1], to);
      assert ts == ts[..|ts| - 1] + [ts[|ts| - 1]];
    }
  }

  /** Where vouchers of `x` are minted: its contract, or the one about to be instantiated. */
  function CollectionOf(s: Storage, x: ClassId, newAddr: Addr): Addr {
    if x in s.classToNft then s.classToNft[x] else newAddr
  }

  lemma CallbackCreateIs(env: Env, s: Storage, receiver: Addr, create: VoucherCreation, newAddr: Addr)
    requires CallbackCreate(env, s, receiver, create, newAddr).Success?
    ensures var (s2, ms) := CallbackCreate(env, s, receiver, create, newAddr).value;
            var x := create.cls.id;
            var contract := CollectionOf(s, x, newAddr);
            && s2 == s.(classes := s.classes[x := create.cls],
                        classToNft := if x in s.classToNft then s.classToNft else s.classToNft[x := newAddr],
                        nftToClass := if x in s.classToNft then s.nftToClass else s.nftToClass[newAddr := x],
                        metadata := SaveMetadata(s.metadata, x, create.tokens))
            && ms ==
                 (if x in s.classToNft then [] else [Instantiate(newAddr, x, env.self)])
                   + Mints(contract, create.tokens, receiver)
            && s2.classToNft[x] == contract
            && env.valid(receiver)
  {
    var ms := CallbackCreate(env, s, receiver, create, newAddr).value.1;
    if create.cls.id in s.classToNft {
      assert ms == [] + ms;
    }
  }

  /** The storage after both sides ran. */
  function AfterSides(s: Storage, packet: Packet, created: seq<Token>, newAddr: Addr): Storage
    requires packet.data.Some?
  {
    var d := packet.data.value;
    var x := PacketRoute(packet).prefixed;
    if created == [] then s
    else s.(classes := s.classes[x := Class(x, d.classUri, d.classData)],
            classToNft := if x in s.classToNft then s.classToNft else s.classToNft[x := newAddr],
            nftToClass := if x in s.classToNft then s.nftToClass else s.nftToClass[newAddr := x],
            metadata := SaveMetadata(s.metadata, x, created))
  }

  function CreationMessages(
      env: Env, s: Storage, x: ClassId, created: seq<Token>, to: Addr, newAddr: Addr): seq<NftMsg> {
    (if x in s.classToNft then [] else [Instantiate(newAddr, x, env.self)])
      + Mints(CollectionOf(s, x, newAddr), created, to)
  }

  /** The messages of both sides, in order. */
  function SidesMessages(
      env: Env, s: Storage, packet: Packet, redeemed: seq<TokenId>, created: seq<Token>, newAddr: Addr): seq<NftMsg>
    requires packet.data.Some?
    requires redeemed != [] ==> PacketRoute(packet).local.Some? && PacketRoute(packet).local.value in s.classToNft
  {
    var r := PacketRoute(packet);
    var to := packet.data.value.receiver;
    (if redeemed == [] then [] else Transfers(s.classToNft[r.local.value], redeemed, to))
    + (if created == [] then [] else CreationMessages(env, s, r.prefixed, created, to, newAddr))
  }

  lemma SidesEffect(env: Env, s: Storage, packet: Packet, redeemed: seq<TokenId>, created: seq<Token>, newAddr: Addr)
    requires packet.data.Some? && (redeemed != [] ==> PacketRoute(packet).local.Some?)
    requires RunSides(env, s, packet, redeemed, created, newAddr).Success?
    ensures redeemed != [] ==> PacketRoute(packet).local.value in s.classToNft
    ensures RunSides(env, s, packet, redeemed, created, newAddr)
         == Success((AfterSides(s, packet, created, newAddr),
                     SidesMessages(env, s, packet, redeemed, created, newAddr)))
  {
    if created != [] {
      var d := packet.data.value;
      var create := VoucherCreation(Class(PacketRoute(packet).prefixed, d.classUri, d.classData), created);
      CallbackCreateIs(env, s, d.receiver, create, newAddr);
    }
  }

  lemma CreationMessagesAre(env: Env, s: Storage, x: ClassId, created: seq<Token>, to: Addr, newAddr: Addr)
    ensures var ms := CreationMessages(env, s, x, created, to, newAddr);
            var mints := Mints(CollectionOf(s, x, newAddr), created, to);
            && (forall m | m in ms :: m == Instantiate(newAddr, x, env.self) || m in mints)
            && (forall m | m in mints :: m in ms)
  {
  }

  /**
   Every message gives an NFT to the receiver: a redeemed one of the local class, or a new one of the
   prefixed class.
   */
  lemma MessagesAre(
      env: Env, s: Storage, packet: Packet, redeemed: seq<TokenId>, created: seq<Token>, newAddr: Addr)
    requires packet.data.Some?
    requires redeemed != [] ==> PacketRoute(packet).local.Some? && PacketRoute(packet).local.value in s.classToNft
    ensures var r := PacketRoute(packet);
            var to := packet.data.value.receiver;
            var ms := SidesMessages(env, s, packet, redeemed, created, newAddr);
            var contract := CollectionOf(s, r.prefixed, newAddr);
            && (forall m | m in ms :: GivesTo(m, to))
            && (forall m | m in ms && m.Transfer? ::
                  && redeemed != []
                  && m.contract == s.classToNft[r.local.value]
                  && m.token in redeemed)
            && (forall m | m in ms && m.Mint? ::
                  && m.contract == contract
                  && exists t :: t in created && t.id == m.token && t.uri == m.uri)
            && (forall m | m in ms && m.Instantiate? ::
                  && m == Instantiate(newAddr, r.prefixed, env.self)
                  && created != [])
            && (forall t | t in redeemed :: Transfer(s.classToNft[r.local.value], t, to) in ms)
            && (forall t | t in created :: Mint(contract, t.id, t.uri, to) in ms)
  {
    var r := PacketRoute(packet);
    var to := packet.data.value.receiver;
    if redeemed != [] {
      TransfersAre(s.classToNft[r.local.value], redeemed, to);
    }
    CreationMessagesAre(env, s, r.prefixed, created, to, newAddr);
    MintsAre(CollectionOf(s, r.prefixed, newAddr), created, to);
  }

  // ---------- A delivery keeps the chain valid ----------

  /** A successful delivery in terms of its two sides. */
  ghost predicate Succeeds(
      env: Env, c: Chain, packet: Packet, newAddr: Addr, redeemed: seq<TokenId>, created: seq<Token>) {
    && ReceiveIbcPacket(env, c.s, packet).Success?
    && redeemed == Redeemed(Actions(c.s, packet)) && created == Created(Actions(c.s, packet))
    && var s1 := ReceiveIbcPacket(env, c.s, packet).value.0;
    && (redeemed != [] ==> PacketRoute(packet).local.Some? && PacketRoute(packet).local.value in s1.classToNft)
    && var ms := SidesMessages(env, s1, packet, redeemed, created, newAddr);
    && PerformAll(env.self, c.ledger, ms).Some?
    && Deliver(env, c, packet, newAddr)
       == (Chain(AfterSides(s1, packet, created, newAddr), PerformAll(env.self, c.ledger, ms).value), AckSuccess)
  }

  lemma SuccessfulDelivery(
      env: Env, c: Chain, packet: Packet, newAddr: Addr)
    returns (redeemed: seq<TokenId>, created: seq<Token>)
    requires Deliver(env, c, packet, newAddr).1 == AckSuccess
    ensures Succeeds(env, c, packet, newAddr, redeemed, created)
  {
    redeemed, created := Redeemed(Actions(c.s, packet)), Created(Actions(c.s, packet));
    DeliverSides(env, c, packet, newAddr);
    SidesEffect(env, ReceiveIbcPacket(env, c.s, packet).value.0, packet, redeemed, created, newAddr);
  }

  lemma DeliverKeepsValid(env: Env, c: Chain, packet: Packet, newAddr: Addr)
    requires ValidChain(env, c) && packet.dest.port == env.port
    ensures ValidChain(env, Deliver(env, c, packet, newAddr).0)
  {
    if ReceiveIbcPacket(env, c.s, packet).Success? {
      HandlerKeepsValid(env, c.s, packet);
      if Deliver(env, c, packet, newAddr).1 == AckSuccess {
        SuccessKeepsValid(env, c, packet, newAddr);
      }
    }
  }

  /** A collection instantiated on the way is new, named after its class, and the bridge is its minter. */
  lemma InstantiatedIsFresh(env: Env, c: Chain, packet: Packet, newAddr: Addr)
    requires ValidChain(env, c) && Deliver(env, c, packet, newAddr).1 == AckSuccess
    requires ReceiveIbcPacket(env, c.s, packet).Success? && Creates(c.s, packet)
    ensures IsAddress(newAddr) && newAddr !in c.s.nftToClass
    ensures var l' := Deliver(env, c, packet, newAddr).0.ledger;
            newAddr in l'.collections && l'.collections[newAddr] == Collection(PacketRoute(packet).prefixed, env.self)
  {
    var redeemed, created := SuccessfulDelivery(env, c, packet, newAddr);
    var ms := SidesMessages(env, ReceiveIbcPacket(env, c.s, packet).value.0, packet, redeemed, created, newAddr);
    PerformAllInstantiates(env.self, c.ledger, ms, Instantiate(newAddr, PacketRoute(packet).prefixed, env.self));
  }

  /** The storage of a successful delivery is what the submessage left. */
  lemma SuccessStorage(env: Env, c: Chain, packet: Packet, newAddr: Addr)
    requires Deliver(env, c, packet, newAddr).1 == AckSuccess
    ensures ReceiveIbcPacket(env, c.s, packet).Success?
    ensures var (s1, cb) := ReceiveIbcPacket(env, c.s, packet).value;
            RunCallback(env, s1, cb, newAddr).Success?
            && RunCallback(env, s1, cb, newAddr).value.0 == Deliver(env, c, packet, newAddr).0.s
  {
  }

  lemma SuccessKeepsStorage(env: Env, c: Chain, packet: Packet, newAddr: Addr)
    requires ValidChain(env, c) && packet.dest.port == env.port && Deliver(env, c, packet, newAddr).1 == AckSuccess
    ensures ValidStorage(env, Deliver(env, c, packet, newAddr).0.s)
  {
    SuccessStorage(env, c, packet, newAddr);
    if Creates(c.s, packet) {
      InstantiatedIsFresh(env, c, packet, newAddr);
    }
    ReceiveKeepsValid(env, c.s, packet, newAddr);
  }

  lemma SuccessKeepsValid(env: Env, c: Chain, packet: Packet, newAddr: Addr)
    requires ValidChain(env, c) && packet.dest.port == env.port && Deliver(env, c, packet, newAddr).1 == AckSuccess
    ensures ValidChain(env, Deliver(env, c, packet, newAddr).0)
  {
    SuccessKeepsStorage(env, c, packet, newAddr);
    var redeemed, created := SuccessfulDelivery(env, c, packet, newAddr);
    var s1 := ReceiveIbcPacket(env, c.s, packet).value.0;
    var c' := Deliver(env, c, packet, newAddr).0;
    PerformAllKeepsValid(env.self, c.ledger, SidesMessages(env, s1, packet, redeemed, created, newAddr));
    if Creates(c.s, packet) {
      InstantiatedIsFresh(env, c, packet, newAddr);
      assert c'.s.nftToClass == c.s.nftToClass[newAddr := PacketRoute(packet).prefixed];
    } else {
      assert c'.s.nftToClass == c.s.nftToClass;
    }
  }

  // ---------- Truthful acknowledgements ----------

  /** The voucher contract a delivery mints into. */
  ghost function MintedInto(c: Chain, packet: Packet, newAddr: Addr): Addr
    requires packet.data.Some?
  {
    CollectionOf(c.s, PacketRoute(packet).prefixed, newAddr)
  }

  /** The receiver owns the token that was locked here. */
  ghost predicate Unlocked(env: Env, l: Ledger, l': Ledger, id: NftId, to: Addr) {
    && id in l.nfts && l.nfts[id].owner == env.self
    && id in l'.nfts && l'.nfts[id] == Nft(to, l.nfts[id].uri)
  }

  /** The receiver owns a voucher that did not exist before. */
  ghost predicate Minted(l: Ledger, l': Ledger, id: NftId, uri: Option<string>, to: Addr) {
    id !in l.nfts && id in l'.nfts && l'.nfts[id] == Nft(to, uri)
  }

  lemma RedeemedIsUnlocked(
      env: Env, l: Ledger, s: Storage, packet: Packet, redeemed: seq<TokenId>,
      created: seq<Token>, newAddr: Addr, t: TokenId)
    requires packet.data.Some? && t in redeemed
    requires PacketRoute(packet).local.Some? && PacketRoute(packet).local.value in s.classToNft
    requires PerformAll(env.self, l, SidesMessages(env, s, packet, redeemed, created, newAddr)).Some?
    ensures Unlocked(env, l, PerformAll(env.self, l, SidesMessages(env, s, packet, redeemed, created, newAddr)).value,
                     NftId(s.classToNft[PacketRoute(packet).local.value], t), packet.data.value.receiver)
  {
    var contract := s.classToNft[PacketRoute(packet).local.value];
    var to := packet.data.value.receiver;
    var ms := SidesMessages(env, s, packet, redeemed, created, newAddr);
    var transfers := Transfers(contract, redeemed, to);
    var m := Transfer(contract, t, to);
    MessagesAre(env, s, packet, redeemed, created, newAddr);
    TransfersAre(contract, redeemed, to);
    PerformAllGives(env.self, l, ms, to);
    assert Names(m, NftId(contract, t));
    var rest := (if created == [] || PacketRoute(packet).prefixed in s.classToNft then []
                 else [Instantiate(newAddr, PacketRoute(packet).prefixed, env.self)])
                + (if created == [] then []
                   else Mints(CollectionOf(s, PacketRoute(packet).prefixed, newAddr), created, to));
    assert ms == transfers + rest;
    PerformAllAppend(env.self, l, transfers, rest);
    TransfersNeedOwner(env.self, l, transfers, m);
  }

  lemma CreatedIsMinted(
      env: Env, l: Ledger, s: Storage, packet: Packet, redeemed: seq<TokenId>,
      created: seq<Token>, newAddr: Addr, t: Token)
    requires packet.data.Some? && t in created
    requires redeemed != [] ==> PacketRoute(packet).local.Some? && PacketRoute(packet).local.value in s.classToNft
    requires PerformAll(env.self, l, SidesMessages(env, s, packet, redeemed, created, newAddr)).Some?
    ensures Minted(l, PerformAll(env.self, l, SidesMessages(env, s, packet, redeemed, created, newAddr)).value,
                   NftId(CollectionOf(s, PacketRoute(packet).prefixed, newAddr), t.id),
                   t.uri, packet.data.value.receiver)
  {
    var contract := CollectionOf(s, PacketRoute(packet).prefixed, newAddr);
    var to := packet.data.value.receiver;
    MessagesAre(env, s, packet, redeemed, created, newAddr);
    PerformAllGives(env.self, l, SidesMessages(env, s, packet, redeemed, created, newAddr), to);
    assert Names(Mint(contract, t.id, t.uri, to), NftId(contract, t.id));
  }

  /**
   A success ack tells the truth about every token of the packet: the receiver owns the token that
   was locked here, or a brand new voucher with the token's uri, its data on record.
   */
  lemma SuccessAckIsTruthful(env: Env, c: Chain, packet: Packet, newAddr: Addr, i: nat)
    requires Deliver(env, c, packet, newAddr).1 == AckSuccess
    requires ReceiveIbcPacket(env, c.s, packet).Success? && i < |Tokens(packet.data.value)|
    ensures var c' := Deliver(env, c, packet, newAddr).0;
            var r := PacketRoute(packet);
            var t := Tokens(packet.data.value)[i];
            var to := packet.data.value.receiver;
            if IsRedeemed(r, c.s.outgoing, Tokens(packet.data.value), i) then
              && r.local.value in c.s.classToNft
              && Unlocked(env, c.ledger, c'.ledger, NftId(c.s.classToNft[r.local.value], t.id), to)
            else
              && r.prefixed in c'.s.classToNft && c'.s.classToNft[r.prefixed] == MintedInto(c, packet, newAddr)
              && Minted(c.ledger, c'.ledger, NftId(c'.s.classToNft[r.prefixed], t.id), t.uri, to)
              && Key(r.prefixed, t.id) in c'.s.metadata && c'.s.metadata[Key(r.prefixed, t.id)] == t.data
  {
    var redeemed, created := SuccessfulDelivery(env, c, packet, newAddr);
    var s1 := ReceiveIbcPacket(env, c.s, packet).value.0;
    var r := PacketRoute(packet);
    var t := Tokens(packet.data.value)[i];
    ActionsMeetSpec(c.s, packet);
    ActionIsCollected(Actions(c.s, packet), i);
    if IsRedeemed(r, c.s.outgoing, Tokens(packet.data.value), i) {
      RedeemedIsUnlocked(env, c.ledger, s1, packet, redeemed, created, newAddr, t.id);
    } else {
      CreatedIsMinted(env, c.ledger, s1, packet, redeemed, created, newAddr, t);
      CreatedAreDistinct(env, c.ledger, s1, packet, redeemed, created, newAddr);
      SaveMetadataHas(s1.metadata, r.prefixed, created, t);
    }
  }

  lemma {:induction false} ActionIsCollected(actions: seq<Action>, i: nat)
    requires i < |actions|
    ensures actions[i].Redemption? ==> actions[i].tokenId in Redeemed(actions)
    ensures actions[i].Creation? ==> actions[i].token in Created(actions)
  {
    if i < |actions| - 1 {
      ActionIsCollected(actions[..|actions| - 1], i);
    }
  }

  predicate Distinct(ts: seq<Token>) {
    forall i, j | 0 <= i < j < |ts| :: ts[i].id != ts[j].id
  }

  /** A cw721 mints no ID twice. */
  lemma {:induction false} MintsAreDistinct(sender: Addr, l: Ledger, contract: Addr, ts: seq<Token>, to: Addr)
    requires PerformAll(sender, l, Mints(contract, ts, to)).Some?
    ensures Distinct(ts)
  {
    if ts != [] {
      var n := |ts| - 1;
      PerformAllAppend(sender, l, Mints(contract, ts[..n], to), [Mint(contract, ts[n].id, ts[n].uri, to)]);
      MintsAreDistinct(sender, l, contract, ts[..n], to);
      LastMintIsNew(sender, l, contract, ts, to);
    }
  }

  lemma LastMintIsNew(sender: Addr, l: Ledger, contract: Addr, ts: seq<Token>, to: Addr)
    requires PerformAll(sender, l, Mints(contract, ts, to)).Some? && ts != []
    ensures forall i | 0 <= i < |ts| - 1 :: ts[i].id != ts[|ts| - 1].id
  {
    var n := |ts| - 1;
    PerformAllAppend(sender, l, Mints(contract, ts[..n], to), [Mint(contract, ts[n].id, ts[n].uri, to)]);
    MintsAre(contract, ts[..n], to);
    PerformAllGives(sender, l, Mints(contract, ts[..n], to), to);
    forall i | 0 <= i < n ensures ts[i].id != ts[n].id {
      assert ts[i] in ts[..n];
      assert Names(Mint(contract, ts[i].id, ts[i].uri, to), NftId(contract, ts[i].id));
    }
  }

  lemma CreatedAreDistinct(
      env: Env, l: Ledger, s: Storage, packet: Packet, redeemed: seq<TokenId>, created: seq<Token>, newAddr: Addr)
    requires packet.data.Some? && created != []
    requires redeemed != [] ==> PacketRoute(packet).local.Some? && PacketRoute(packet).local.value in s.classToNft
    requires PerformAll(env.self, l, SidesMessages(env, s, packet, redeemed, created, newAddr)).Some?
    ensures Distinct(created)
  {
    var r := PacketRoute(packet);
    var to := packet.data.value.receiver;
    var first := (if redeemed == [] then [] else Transfers(s.classToNft[r.local.value], redeemed, to))
                 + (if r.prefixed in s.classToNft then [] else [Instantiate(newAddr, r.prefixed, env.self)]);
    var mints := Mints(CollectionOf(s, r.prefixed, newAddr), created, to);
    assert SidesMessages(env, s, packet, redeemed, created, newAddr) == first + mints;
    PerformAllAppend(env.self, l, first, mints);
    MintsAreDistinct(env.self, PerformAll(env.self, l, first).value, CollectionOf(s, r.prefixed, newAddr), created, to);
  }

  lemma {:induction false} SaveMetadataHas(m: map<Key, Option<Binary>>, x: ClassId, ts: seq<Token>, t: Token)
    requires t in ts && Distinct(ts)
    ensures Key(x, t.id) in SaveMetadata(m, x, ts) && SaveMetadata(m, x, ts)[Key(x, t.id)] == t.data
  {
    if t != ts[|ts| - 1] {
      SaveMetadataHas(m, x, ts[..|ts| - 1], t);
    }
  }

  /**
   What a packet that was accepted by the handler leaves behind when its submessage fails: every token
   it would have redeemed is out of OUTGOING although its NFT did not move, and every token it would
   have created is in INCOMING although nothing was minted.
   */
  lemma FailedAckLeaves(env: Env, c: Chain, packet: Packet, newAddr: Addr)
    requires Deliver(env, c, packet, newAddr).1 == AckFail && ReceiveIbcPacket(env, c.s, packet).Success?
    ensures var c' := Deliver(env, c, packet, newAddr).0;
            var r, ts := PacketRoute(packet), Tokens(packet.data.value);
            && c'.ledger == c.ledger
            && c'.s == c.s.(outgoing := c.s.outgoing - RedeemedKeys(r, c.s.outgoing, ts),
                            incoming := c.s.incoming + map k | k in CreatedKeys(r, c.s.outgoing, ts) :: r.channel)
  {
    var p := Progress(c.s.outgoing, c.s.incoming, []);
    SelectOutgoing(PacketRoute(packet), p, Tokens(packet.data.value));
    SelectIncoming(PacketRoute(packet), p, Tokens(packet.data.value));
    FailedAckRollsBack(env, c, packet, newAddr);
  }
}
