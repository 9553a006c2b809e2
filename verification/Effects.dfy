/** What each transaction of a single token changes, token by token. */
module Effects {
  import opened Types
  import opened ClassIds
  import opened Receive
  import opened Handlers
  import opened Invariants
  import opened Cw721
  import opened Chain
  import opened Delivery

  /** The class ID of a contract: a contract the bridge has not seen is the native class of its own name. */
  function ClassOf(s: Storage, contract: Addr): ClassId {
    if contract in s.nftToClass then s.nftToClass[contract] else contract
  }

  function ContractOf(s: Storage, x: ClassId): Option<Addr> {
    if x in s.classToNft then Some(s.classToNft[x])
    else if x in s.nftToClass then None
    else Some(x)
  }

  /** The NFT behind a key. */
  function NftAt(c: Chain, k: Key): Option<Nft> {
    var a := ContractOf(c.s, k.classId);
    if a.Some? && NftId(a.value, k.tokenId) in c.ledger.nfts
    then Some(c.ledger.nfts[NftId(a.value, k.tokenId)])
    else None
  }

  function KeyOf(s: Storage, id: NftId): Key {
    Key(ClassOf(s, id.contract), id.token)
  }

  lemma KeyOfContract(env: Env, c: Chain, id: NftId)
    requires ValidChain(env, c) && id.contract in c.ledger.collections
    ensures ContractOf(c.s, ClassOf(c.s, id.contract)) == Some(id.contract)
  {
    var a := id.contract;
    if a !in c.s.nftToClass && a in c.s.classToNft {
      NativeIsItself(env, c.s, a);
    }
  }

  /** Different keys have different NFTs. */
  lemma ContractsDiffer(env: Env, s: Storage, x: ClassId, y: ClassId)
    requires ValidStorage(env, s) && ContractOf(s, x).Some? && ContractOf(s, x) == ContractOf(s, y)
    ensures x == y
  {
  }

  // ---------- Users ----------

  /** Setting or removing one NFT changes one key. */
  lemma LedgerEffect(env: Env, c: Chain, c': Chain, id: NftId)
    requires ValidChain(env, c) && id.contract in c.ledger.collections
    requires c'.s.classToNft == c.s.classToNft && c'.s.nftToClass == c.s.nftToClass
    requires c'.ledger.nfts - {id} == c.ledger.nfts - {id}
    ensures NftAt(c, KeyOf(c.s, id)) == (if id in c.ledger.nfts then Some(c.ledger.nfts[id]) else None)
    ensures NftAt(c', KeyOf(c.s, id)) == (if id in c'.ledger.nfts then Some(c'.ledger.nfts[id]) else None)
    ensures forall k | k != KeyOf(c.s, id) :: NftAt(c', k) == NftAt(c, k)
  {
    KeyOfContract(env, c, id);
    forall k | k != KeyOf(c.s, id) ensures NftAt(c', k) == NftAt(c, k) {
      var a := ContractOf(c.s, k.classId);
      if a == Some(id.contract) {
        ContractsDiffer(env, c.s, k.classId, ClassOf(c.s, id.contract));
      }
      if a.Some? {
        var other := NftId(a.value, k.tokenId);
        assert other != id;
        assert other in c'.ledger.nfts - {id} <==> other in c.ledger.nfts - {id};
      }
    }
  }

  /** Seeing a native contract for the first time moves no NFT. */
  lemma RegisterEffect(env: Env, c: Chain, contract: Addr)
    requires ValidChain(env, c) && contract in c.ledger.collections
    ensures var c' := c.(s := RegisterNative(c.s, contract));
            && ValidChain(env, c')
            && ClassOf(c'.s, contract) == ClassOf(c.s, contract)
            && ClassOf(c.s, contract) in c'.s.classToNft
            && (forall x | x in c.s.classToNft :: x in c'.s.classToNft && c'.s.classToNft[x] == c.s.classToNft[x])
            && forall k :: NftAt(c', k) == NftAt(c, k)
  {
    RegisterKeepsValid(env, c.s, contract);
    if contract !in c.s.nftToClass && contract in c.s.classToNft {
      NativeIsItself(env, c.s, contract);
    }
  }

  /** The packet a user's send puts on the wire. */
  ghost predicate Carries(
      d: PacketData, cls: Class, k: Key, uri: Option<string>, data: Option<Binary>, sender: Addr, receiver: Addr) {
    && WellFormed(d)
    && d.classId == k.classId && d.tokenIds == [k.tokenId] && d.sender == sender && d.receiver == receiver
    && Class(d.classId, d.classUri, d.classData) == cls
    && Tokens(d) == [Token(k.tokenId, uri, data)]
  }

  /** A send in terms of `SendNft`, whichever way it came. */
  lemma UserSendIsSendNft(env: Env, c: Chain, id: NftId, actor: Addr, msg: OutgoingMsg)
    requires UserSend(env, c, id, actor, msg).Some?
    ensures id in c.ledger.nfts && c.ledger.nfts[id].owner != env.self && env.valid(actor) && !c.s.po.paused
    ensures var nft := c.ledger.nfts[id];
            var r := SendNft(env, c.s, id.contract, id.token, actor, Some(msg), Some(nft.uri));
            && r.Success?
            && UserSend(env, c, id, actor, msg).value ==
                 (Chain(r.value.0, c.ledger.(nfts := c.ledger.nfts[id := nft.(owner := env.self)])), r.value.1)
  {
  }

  lemma UserSendStorage(env: Env, c: Chain, id: NftId, actor: Addr, msg: OutgoingMsg)
    requires ValidChain(env, c) && UserSend(env, c, id, actor, msg).Some?
    ensures var (c', p) := UserSend(env, c, id, actor, msg).value;
            var k := KeyOf(c.s, id);
            && id in c.ledger.nfts && c.ledger.nfts[id].owner != env.self && env.valid(actor)
            && ValidStorage(env, c'.s)
            && c'.s == RegisterNative(c.s, id.contract).(outgoing := c.s.outgoing[k := msg.channel])
            && c'.ledger == c.ledger.(nfts := c.ledger.nfts[id := c.ledger.nfts[id].(owner := env.self)])
            && p.channel == msg.channel
            && Carries(p.data, RecordOf(c.s, id.contract), k, c.ledger.nfts[id].uri, FlatLookup(c.s.metadata, k),
                       actor, msg.receiver)
  {
    UserSendIsSendNft(env, c, id, actor, msg);
    var uri := c.ledger.nfts[id].uri;
    SentPacketIsValid(env, c.s, id.contract, id.token, actor, Some(msg), Some(uri));
    SendKeepsValid(env, c.s, id.contract, id.token, actor, Some(msg), Some(uri));
    var cls := RegisterNative(c.s, id.contract).classes[ClassOf(c.s, id.contract)];
    assert cls.id == ClassOf(c.s, id.contract);
  }

  lemma UserSendKeepsValid(env: Env, c: Chain, id: NftId, actor: Addr, msg: OutgoingMsg)
    requires ValidChain(env, c) && UserSend(env, c, id, actor, msg).Some?
    ensures ValidChain(env, UserSend(env, c, id, actor, msg).value.0)
  {
    UserSendStorage(env, c, id, actor, msg);
    RegisterEffect(env, c, id.contract);
  }

  /** Lock and send: one NFT becomes the bridge's, and OUTGOING remembers the channel. */
  lemma UserSendEffect(env: Env, c: Chain, id: NftId, actor: Addr, msg: OutgoingMsg)
    requires ValidChain(env, c) && UserSend(env, c, id, actor, msg).Some?
    ensures var c' := UserSend(env, c, id, actor, msg).value.0;
            var k := KeyOf(c.s, id);
            && ValidChain(env, c')
            && NftAt(c, k) == Some(c.ledger.nfts[id])
            && NftAt(c', k) == Some(c.ledger.nfts[id].(owner := env.self))
            && (forall j | j != k :: NftAt(c', j) == NftAt(c, j))
            && c'.s.outgoing == c.s.outgoing[k := msg.channel]
            && c'.s.incoming == c.s.incoming && c'.s.metadata == c.s.metadata
            && k.classId in c'.s.classToNft
            && (forall x | x in c.s.classToNft :: x in c'.s.classToNft && c'.s.classToNft[x] == c.s.classToNft[x])
  {
    UserSendKeepsValid(env, c, id, actor, msg);
    UserSendStorage(env, c, id, actor, msg);
    RegisterEffect(env, c, id.contract);
    var c1 := c.(s := RegisterNative(c.s, id.contract));
    var c' := UserSend(env, c, id, actor, msg).value.0;
    LedgerEffect(env, c1, c', id);
  }

  // ---------- Receiving one token ----------

  lemma SingleAction(r: Route, p: Progress, t: Token)
    requires p.actions == []
    ensures Select(r, p, [t]) == SelectOne(r, p, t)
    ensures Redeemed(SelectOne(r, p, t).actions) == if Returns(r, p.outgoing, t.id) then [t.id] else []
    ensures Created(SelectOne(r, p, t).actions) == if Returns(r, p.outgoing, t.id) then [] else [t]
  {
    assert Select(r, p, [t][..0]) == p;
    var actions := SelectOne(r, p, t).actions;
    assert |actions| == 1 && Redeemed(actions[..0]) == [] && Created(actions[..0]) == [];
  }

  /** The packet passes the handler's checks and names one token. */
  ghost predicate Accepts(env: Env, c: Chain, packet: Packet, t: Token) {
    PacketError(env, c.s, packet).None? && Tokens(packet.data.value) == [t]
  }

  lemma PerformOne(sender: Addr, l: Ledger, m: NftMsg)
    ensures PerformAll(sender, l, [m]) == Perform(sender, l, m)
  {
    match Perform(sender, l, m) {
      case None =>
      case Some(l1) => assert PerformAll(sender, l1, [m][1..]) == Some(l1);
    }
  }

  lemma OneTransfer(contract: Addr, t: TokenId, to: Addr)
    ensures Transfers(contract, [t], to) == [Transfer(contract, t, to)]
  {
    assert Transfers(contract, [t][..0], to) == [];
  }

  /** The submessage that redeems one token. */
  lemma RedeemRuns(env: Env, s: Storage, packet: Packet, t: TokenId, newAddr: Addr)
    requires packet.data.Some? && env.valid(packet.data.value.receiver)
    requires PacketRoute(packet).local.Some? && PacketRoute(packet).local.value in s.classToNft
    ensures var contract := s.classToNft[PacketRoute(packet).local.value];
            RunSides(env, s, packet, [t], [], newAddr) ==
              Success((s, [Transfer(contract, t, packet.data.value.receiver)]))
  {
    var contract, to := s.classToNft[PacketRoute(packet).local.value], packet.data.value.receiver;
    OneTransfer(contract, t, to);
    var none: seq<NftMsg> := [];
    assert [Transfer(contract, t, to)] + none == [Transfer(contract, t, to)];
  }

  lemma MappedNft(env: Env, c: Chain, k: Key)
    requires ValidChain(env, c) && k in c.s.outgoing && NftAt(c, k).Some?
    ensures k.classId in c.s.classToNft
    ensures var id := NftId(c.s.classToNft[k.classId], k.tokenId);
            id in c.ledger.nfts && c.ledger.nfts[id] == NftAt(c, k).value
  {
  }

  /** What the handler makes of one returning token. */
  lemma RedeemHandler(env: Env, c: Chain, packet: Packet, t: Token)
    requires Accepts(env, c, packet, t) && Returns(PacketRoute(packet), c.s.outgoing, t.id)
    ensures ReceiveIbcPacket(env, c.s, packet).Success?
    ensures ReceiveIbcPacket(env, c.s, packet).value.0 ==
              c.s.(outgoing := c.s.outgoing - {Key(PacketRoute(packet).local.value, t.id)})
    ensures Redeemed(Actions(c.s, packet)) == [t.id] && Created(Actions(c.s, packet)) == []
  {
    SingleAction(PacketRoute(packet), Progress(c.s.outgoing, c.s.incoming, []), t);
  }

  /** A token that is out on the packet's channel, and locked: it is unlocked for the receiver, without fail. */
  lemma RedeemDelivers(env: Env, c: Chain, packet: Packet, t: Token, newAddr: Addr)
    requires ValidChain(env, c) && Accepts(env, c, packet, t)
    requires Returns(PacketRoute(packet), c.s.outgoing, t.id)
    requires NftAt(c, Key(PacketRoute(packet).local.value, t.id)).Some?
    requires NftAt(c, Key(PacketRoute(packet).local.value, t.id)).value.owner == env.self
    ensures var k := Key(PacketRoute(packet).local.value, t.id);
            && k.classId in c.s.classToNft
            && var id := NftId(c.s.classToNft[k.classId], t.id);
            && id in c.ledger.nfts
            && Deliver(env, c, packet, newAddr)
               == (Chain(c.s.(outgoing := c.s.outgoing - {k}),
                         c.ledger.(nfts := c.ledger.nfts[
                                             id := c.ledger.nfts[id].(owner := packet.data.value.receiver)])),
                   AckSuccess)
  {
    var k := Key(PacketRoute(packet).local.value, t.id);
    MappedNft(env, c, k);
    RedeemHandler(env, c, packet, t);
    DeliverSides(env, c, packet, newAddr);
    RedeemRuns(env, c.s.(outgoing := c.s.outgoing - {k}), packet, t.id, newAddr);
    PerformOne(env.self, c.ledger, Transfer(c.s.classToNft[k.classId], t.id, packet.data.value.receiver));
  }

  lemma RedeemEffect(env: Env, c: Chain, packet: Packet, t: Token, newAddr: Addr)
    requires ValidChain(env, c) && Accepts(env, c, packet, t) && packet.dest.port == env.port
    requires Returns(PacketRoute(packet), c.s.outgoing, t.id)
    requires NftAt(c, Key(PacketRoute(packet).local.value, t.id)).Some?
    requires NftAt(c, Key(PacketRoute(packet).local.value, t.id)).value.owner == env.self
    ensures var k := Key(PacketRoute(packet).local.value, t.id);
            var (c', ack) := Deliver(env, c, packet, newAddr);
            && ack == AckSuccess && ValidChain(env, c')
            && NftAt(c', k) == Some(NftAt(c, k).value.(owner := packet.data.value.receiver))
            && (forall j | j != k :: NftAt(c', j) == NftAt(c, j))
            && c'.s == c.s.(outgoing := c.s.outgoing - {k})
  {
    RedeemDelivers(env, c, packet, t, newAddr);
    DeliverKeepsValid(env, c, packet, newAddr);
    GivenAway(
      env, c, Deliver(env, c, packet, newAddr).0,
      Key(PacketRoute(packet).local.value, t.id), packet.data.value.receiver);
  }

  /** The bridge gives one NFT away and forgets its OUTGOING entry. */
  lemma GivenAway(env: Env, c: Chain, c': Chain, k: Key, to: Addr)
    requires
      && ValidChain(env, c)
      && k.classId in c.s.classToNft
      && NftId(c.s.classToNft[k.classId], k.tokenId) in c.ledger.nfts
    requires var id := NftId(c.s.classToNft[k.classId], k.tokenId);
             c' ==
               Chain(c.s.(outgoing := c.s.outgoing - {k}),
                     c.ledger.(nfts := c.ledger.nfts[id := c.ledger.nfts[id].(owner := to)]))
    ensures NftAt(c, k).Some? && NftAt(c', k) == Some(NftAt(c, k).value.(owner := to))
    ensures forall j | j != k :: NftAt(c', j) == NftAt(c, j)
  {
    LedgerEffect(env, c, c', NftId(c.s.classToNft[k.classId], k.tokenId));
  }

  /** A collection instantiated for a prefixed class holds nothing yet. */
  lemma InstantiateEffect(env: Env, c: Chain, c': Chain, x: ClassId, a: Addr)
    requires ValidChain(env, c) && x !in c.s.classToNft && !SlashFree(x) && SlashFree(a) && a !in c.ledger.collections
    requires c'.s.classToNft == c.s.classToNft[x := a] && c'.s.nftToClass == c.s.nftToClass[a := x]
    requires c'.ledger.nfts == c.ledger.nfts
    ensures forall k :: NftAt(c', k) == NftAt(c, k)
  {
    if a in c.s.classToNft {
      NativeIsItself(env, c.s, a);
    }
  }

  /** The address a chain gives a new contract is one nobody uses yet. */
  predicate FreshAddress(env: Env, c: Chain, a: Addr) {
    IsAddress(a) && env.valid(a) && a !in c.ledger.collections && a != env.self
  }

  /** The messages that create one voucher. */
  function OneCreation(env: Env, mapped: bool, a: Addr, x: ClassId, t: Token, to: Addr): seq<NftMsg> {
    if mapped then [Mint(a, t.id, t.uri, to)] else [Instantiate(a, x, env.self), Mint(a, t.id, t.uri, to)]
  }

  lemma OneMint(contract: Addr, t: Token, to: Addr)
    ensures Mints(contract, [t], to) == [Mint(contract, t.id, t.uri, to)]
  {
    assert Mints(contract, [t][..0], to) == [];
  }

  lemma CreateMessages(env: Env, s: Storage, packet: Packet, t: Token, newAddr: Addr)
    requires packet.data.Some?
    ensures var x := PacketRoute(packet).prefixed;
            SidesMessages(env, s, packet, [], [t], newAddr)
            == OneCreation(env, x in s.classToNft, CollectionOf(s, x, newAddr), x, t, packet.data.value.receiver)
  {
    var x := PacketRoute(packet).prefixed;
    var to := packet.data.value.receiver;
    var none: seq<NftMsg> := [];
    OneMint(CollectionOf(s, x, newAddr), t, to);
    var ms := CreationMessages(env, s, x, [t], to, newAddr);
    assert none + ms == ms == OneCreation(env, x in s.classToNft, CollectionOf(s, x, newAddr), x, t, to);
  }

  /** Minting one voucher, into an existing collection or one instantiated for it. */
  function MintOne(env: Env, l: Ledger, mapped: bool, a: Addr, x: ClassId, t: Token, to: Addr): Option<Ledger> {
    if mapped then Perform(env.self, l, Mint(a, t.id, t.uri, to))
    else
      match Perform(env.self, l, Instantiate(a, x, env.self))
      case None => None
      case Some(l1) => Perform(env.self, l1, Mint(a, t.id, t.uri, to))
  }

  lemma PerformTwo(sender: Addr, l: Ledger, m: NftMsg, n: NftMsg)
    ensures PerformAll(sender, l, [m, n]) ==
            match Perform(sender, l, m) case None => None case Some(l1) => Perform(sender, l1, n)
  {
    match Perform(sender, l, m) {
      case None =>
      case Some(l1) =>
        assert [m, n][1..] == [n];
        PerformOne(sender, l1, n);
    }
  }

  lemma MintOneIs(env: Env, l: Ledger, mapped: bool, a: Addr, x: ClassId, t: Token, to: Addr)
    ensures PerformAll(env.self, l, OneCreation(env, mapped, a, x, t, to)) == MintOne(env, l, mapped, a, x, t, to)
  {
    var mint := Mint(a, t.id, t.uri, to);
    if mapped {
      PerformOne(env.self, l, mint);
    } else {
      PerformTwo(env.self, l, Instantiate(a, x, env.self), mint);
    }
  }

  /** The submessage that creates one voucher. */
  lemma CreateRuns(env: Env, s: Storage, packet: Packet, t: Token, newAddr: Addr)
    requires packet.data.Some? && env.valid(packet.data.value.receiver)
    ensures var x := PacketRoute(packet).prefixed;
            var r := RunSides(env, s, packet, [], [t], newAddr);
            if x in s.classToNft || env.valid(newAddr)
            then r == Success((AfterSides(s, packet, [t], newAddr),
                               OneCreation(env, x in s.classToNft, CollectionOf(s, x, newAddr), x, t,
                                           packet.data.value.receiver)))
            else r.Failure?
  {
    SidesSucceed(env, s, packet, t, newAddr);
    if RunSides(env, s, packet, [], [t], newAddr).Success? {
      SidesEffect(env, s, packet, [], [t], newAddr);
      CreateMessages(env, s, packet, t, newAddr);
    }
  }

  /** A token that is not out on the packet's channel. */
  lemma CreateDelivers(env: Env, c: Chain, packet: Packet, t: Token, newAddr: Addr)
    requires Accepts(env, c, packet, t) && !Returns(PacketRoute(packet), c.s.outgoing, t.id)
    ensures var x := PacketRoute(packet).prefixed;
            var d := packet.data.value;
            var s1 := c.s.(incoming := c.s.incoming[Key(x, t.id) := packet.dest.channel]);
            var l' := MintOne(env, c.ledger, x in c.s.classToNft, CollectionOf(c.s, x, newAddr), x, t, d.receiver);
            Deliver(env, c, packet, newAddr) ==
              if l'.Some? && (x in c.s.classToNft || env.valid(newAddr))
              then (Chain(AfterSides(s1, packet, [t], newAddr), l'.value), AckSuccess)
              else (c.(s := s1), AckFail)
  {
    var r := PacketRoute(packet);
    SingleAction(r, Progress(c.s.outgoing, c.s.incoming, []), t);
    var s1 := ReceiveIbcPacket(env, c.s, packet).value.0;
    assert s1 == c.s.(incoming := c.s.incoming[Key(r.prefixed, t.id) := packet.dest.channel]);
    DeliverSides(env, c, packet, newAddr);
    CreateRuns(env, s1, packet, t, newAddr);
    MintOneIs(
      env, c.ledger, r.prefixed in c.s.classToNft,
      CollectionOf(c.s, r.prefixed, newAddr), r.prefixed, t, packet.data.value.receiver);
  }

  lemma SidesSucceed(env: Env, s: Storage, packet: Packet, t: Token, newAddr: Addr)
    requires packet.data.Some? && env.valid(packet.data.value.receiver)
    ensures RunSides(env, s, packet, [], [t], newAddr).Success? <==>
            PacketRoute(packet).prefixed in s.classToNft || env.valid(newAddr)
  {
  }

  /** What a created voucher changes. */
  lemma CreateEffect(env: Env, c: Chain, packet: Packet, t: Token, newAddr: Addr)
    requires ValidChain(env, c) && packet.dest.port == env.port
    requires Accepts(env, c, packet, t) && !Returns(PacketRoute(packet), c.s.outgoing, t.id)
    requires Deliver(env, c, packet, newAddr).1 == AckSuccess
    ensures var k := Key(PacketRoute(packet).prefixed, t.id);
            var c' := Deliver(env, c, packet, newAddr).0;
            && ValidChain(env, c')
            && NftAt(c, k) == None && NftAt(c', k) == Some(Nft(packet.data.value.receiver, t.uri))
            && (forall j | j != k :: NftAt(c', j) == NftAt(c, j))
            && c'.s.outgoing == c.s.outgoing
            && c'.s.incoming == c.s.incoming[k := packet.dest.channel]
            && c'.s.metadata == c.s.metadata[k := t.data]
  {
    DeliverKeepsValid(env, c, packet, newAddr);
    CreateDelivers(env, c, packet, t, newAddr);
    SaveOne(c.s.metadata, PacketRoute(packet).prefixed, t);
    PrefixedHasSlash(packet.dest, packet.data.value.classId);
    MintOneEffect(
      env, c, Deliver(env, c, packet, newAddr).0, PacketRoute(packet).prefixed, newAddr, t, packet.data.value.receiver);
  }

  lemma CreateKeepsContracts(env: Env, c: Chain, packet: Packet, t: Token, newAddr: Addr)
    requires Accepts(env, c, packet, t) && !Returns(PacketRoute(packet), c.s.outgoing, t.id)
    requires Deliver(env, c, packet, newAddr).1 == AckSuccess
    ensures var c' := Deliver(env, c, packet, newAddr).0;
            forall x | x in c.s.classToNft :: x in c'.s.classToNft && c'.s.classToNft[x] == c.s.classToNft[x]
  {
    CreateDelivers(env, c, packet, t, newAddr);
  }

  lemma MintOneEffect(env: Env, c: Chain, c': Chain, x: ClassId, newAddr: Addr, t: Token, to: Addr)
    requires ValidChain(env, c) && ValidChain(env, c') && !SlashFree(x)
    requires x in c.s.classToNft ==> c'.s.classToNft == c.s.classToNft && c'.s.nftToClass == c.s.nftToClass
    requires x !in c.s.classToNft ==>
               c'.s.classToNft == c.s.classToNft[x := newAddr] && c'.s.nftToClass == c.s.nftToClass[newAddr := x]
    requires MintOne(env, c.ledger, x in c.s.classToNft, CollectionOf(c.s, x, newAddr), x, t, to) == Some(c'.ledger)
    ensures NftAt(c, Key(x, t.id)) == None && NftAt(c', Key(x, t.id)) == Some(Nft(to, t.uri))
    ensures forall j | j != Key(x, t.id) :: NftAt(c', j) == NftAt(c, j)
  {
    if x in c.s.classToNft {
      LedgerEffect(env, c, c', NftId(c.s.classToNft[x], t.id));
    } else {
      FirstMintEffect(env, c, c', x, newAddr, t, to);
    }
  }

  lemma FirstMintEffect(env: Env, c: Chain, c': Chain, x: ClassId, newAddr: Addr, t: Token, to: Addr)
    requires ValidChain(env, c) && ValidChain(env, c') && !SlashFree(x) && x !in c.s.classToNft
    requires c'.s.classToNft == c.s.classToNft[x := newAddr] && c'.s.nftToClass == c.s.nftToClass[newAddr := x]
    requires MintOne(env, c.ledger, false, newAddr, x, t, to) == Some(c'.ledger)
    ensures NftAt(c, Key(x, t.id)) == None && NftAt(c', Key(x, t.id)) == Some(Nft(to, t.uri))
    ensures forall j | j != Key(x, t.id) :: NftAt(c', j) == NftAt(c, j)
  {
    var c1 := Chain(c'.s, Perform(env.self, c.ledger, Instantiate(newAddr, x, env.self)).value);
    InstantiateEffect(env, c, c1, x, newAddr);
    InstantiatedIsValid(env, c', c1.ledger);
    LedgerEffect(env, c1, c', NftId(newAddr, t.id));
  }

  lemma SaveOne(m: map<Key, Option<Binary>>, x: ClassId, t: Token)
    ensures SaveMetadata(m, x, [t]) == m[Key(x, t.id) := t.data]
  {
    assert SaveMetadata(m, x, [t][..0]) == m;
  }

  /** Taking NFTs out of a ledger leaves a valid chain. */
  lemma InstantiatedIsValid(env: Env, c: Chain, l: Ledger)
    requires ValidChain(env, c) && l.collections == c.ledger.collections && l.nfts.Keys <= c.ledger.nfts.Keys
    ensures ValidChain(env, Chain(c.s, l))
  {
  }

  /** A voucher that does not exist yet is always created. */
  lemma CreateSucceeds(env: Env, c: Chain, packet: Packet, t: Token, newAddr: Addr)
    requires ValidChain(env, c) && Accepts(env, c, packet, t)
    requires !Returns(PacketRoute(packet), c.s.outgoing, t.id)
    requires NftAt(c, Key(PacketRoute(packet).prefixed, t.id)) == None && FreshAddress(env, c, newAddr)
    ensures Deliver(env, c, packet, newAddr).1 == AckSuccess
  {
    CreateDelivers(env, c, packet, t, newAddr);
    PrefixedHasSlash(packet.dest, packet.data.value.classId);
  }

  // ---------- Settling one token ----------

  /** Giving the token back cannot fail while the bridge owns it. */
  lemma RefundEffect(env: Env, c: Chain, packet: Packet, k: Key)
    requires ValidChain(env, c) && packet.data.Some?
    requires packet.data.value.classId == k.classId && packet.data.value.tokenIds == [k.tokenId]
    requires k.classId in c.s.classToNft && env.valid(packet.data.value.sender)
    requires NftAt(c, k).Some? && NftAt(c, k).value.owner == env.self
    ensures TimeOut(env, c, packet).Some?
    ensures forall ack | ack != Some(AckSuccess) :: Acknowledge(env, c, packet, ack) == TimeOut(env, c, packet)
    ensures var c' := TimeOut(env, c, packet).value;
            && ValidChain(env, c')
            && NftAt(c', k) == Some(NftAt(c, k).value.(owner := packet.data.value.sender))
            && (forall j | j != k :: NftAt(c', j) == NftAt(c, j))
            && c'.s == c.s.(outgoing := c.s.outgoing - {k})
  {
    var contract := c.s.classToNft[k.classId];
    var to := packet.data.value.sender;
    var m := Transfer(contract, k.tokenId, to);
    assert Transfers(contract, [k.tokenId], to) == Transfers(contract, [k.tokenId][..0], to) + [m] == [m];
    assert RemoveKeys(c.s.outgoing, k.classId, [k.tokenId][..0]) == c.s.outgoing;
    assert RemoveKeys(c.s.outgoing, k.classId, [k.tokenId]) == c.s.outgoing - {k};
    PerformOne(env.self, c.ledger, m);
    FailKeepsValid(env, c.s, packet);
    PerformAllKeepsValid(env.self, c.ledger, [m]);
    LedgerEffect(env, c, TimeOut(env, c, packet).value, NftId(contract, k.tokenId));
  }

  /** The bridge burns one NFT. */
  lemma BurnedAway(env: Env, c: Chain, c': Chain, k: Key)
    requires ValidChain(env, c) && k.classId in c.s.classToNft
    requires c'.s.classToNft == c.s.classToNft && c'.s.nftToClass == c.s.nftToClass
    requires c'.ledger.nfts == c.ledger.nfts - {NftId(c.s.classToNft[k.classId], k.tokenId)}
    ensures NftAt(c', k) == None && forall j | j != k :: NftAt(c', j) == NftAt(c, j)
  {
    LedgerEffect(env, c, c', NftId(c.s.classToNft[k.classId], k.tokenId));
  }

  /** A success ack burns the token exactly when it came in on the channel it left by, and cannot fail to. */
  lemma AckEffect(env: Env, c: Chain, packet: Packet, k: Key)
    requires ValidChain(env, c) && packet.data.Some?
    requires packet.data.value.classId == k.classId && packet.data.value.tokenIds == [k.tokenId]
    requires k.classId in c.s.classToNft
    requires k in c.s.incoming && c.s.incoming[k] == packet.src.channel ==>
               NftAt(c, k).Some? && NftAt(c, k).value.owner == env.self
    ensures Acknowledge(env, c, packet, Some(AckSuccess)).Some?
    ensures var c' := Acknowledge(env, c, packet, Some(AckSuccess)).value;
            if k in c.s.incoming && c.s.incoming[k] == packet.src.channel then
              && ValidChain(env, c') && c'.ledger.collections == c.ledger.collections
              && NftAt(c', k) == None && (forall j | j != k :: NftAt(c', j) == NftAt(c, j))
              && c'.s == c.s.(incoming := c.s.incoming - {k}, metadata := c.s.metadata - {k})
            else c' == c
  {
    var contract := c.s.classToNft[k.classId];
    var p := BurnProgress(c.s.incoming, c.s.metadata, []);
    assert BurnAll(p, k.classId, contract, packet.src.channel, [k.tokenId][..0]) == p;
    assert BurnAll(p, k.classId, contract, packet.src.channel, [k.tokenId])
        == BurnOne(p, k.classId, contract, packet.src.channel, k.tokenId);
    if k in c.s.incoming && c.s.incoming[k] == packet.src.channel {
      var m := Burn(contract, k.tokenId);
      assert p.messages + [m] == [m];
      PerformOne(env.self, c.ledger, m);
      AckKeepsValid(env, c.s, packet, Some(AckSuccess));
      PerformAllKeepsValid(env.self, c.ledger, [m]);
      BurnedAway(env, c, Acknowledge(env, c, packet, Some(AckSuccess)).value, k);
    }
  }
}
