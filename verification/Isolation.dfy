/** A counterparty can only reach what was sent to it: packets with arbitrary contents stay in their channel. */
module Isolation {
  import opened Types
  import opened ClassIds
  import opened Receive
  import opened Handlers
  import opened Invariants
  import opened Cw721
  import opened Chain
  import opened Delivery

  /** The token is out on `channel`, and its NFT locked in the bridge. */
  ghost predicate IsOut(env: Env, c: Chain, k: Key, channel: ChannelId) {
    && k in c.s.outgoing && c.s.outgoing[k] == channel
    && k.classId in c.s.classToNft
    && var id := NftId(c.s.classToNft[k.classId], k.tokenId);
    id in c.ledger.nfts && c.ledger.nfts[id].owner == env.self
  }

  lemma HandlerKeepsOut(env: Env, c: Chain, packet: Packet, k: Key)
    requires ReceiveIbcPacket(env, c.s, packet).Success?
    requires k in c.s.outgoing && c.s.outgoing[k] != packet.dest.channel
    ensures var s1 := ReceiveIbcPacket(env, c.s, packet).value.0;
            k in s1.outgoing && s1.outgoing[k] == c.s.outgoing[k]
  {
    SelectOutgoing(PacketRoute(packet), Progress(c.s.outgoing, c.s.incoming, []), Tokens(packet.data.value));
  }

  lemma {:induction false} RedeemedWasOut(s: Storage, packet: Packet, t: TokenId)
    requires packet.data.Some? && t in Redeemed(Actions(s, packet))
    ensures Returns(PacketRoute(packet), s.outgoing, t)
  {
    ActionsMeetSpec(s, packet);
    var i := RedeemedHasAction(Actions(s, packet), t);
    assert Actions(s, packet)[i] == ActionFor(PacketRoute(packet), s.outgoing, Tokens(packet.data.value), i);
  }

  lemma {:induction false} RedeemedHasAction(actions: seq<Action>, t: TokenId) returns (i: nat)
    requires t in Redeemed(actions)
    ensures i < |actions| && actions[i].Redemption? && actions[i].tokenId == t
  {
    var n := |actions| - 1;
    if actions[n].Redemption? && actions[n].tokenId == t {
      i := n;
    } else {
      i := RedeemedHasAction(actions[..n], t);
    }
  }

  /** The messages of a successful delivery do not name a token that is out on another channel. */
  lemma NotNamed(
      env: Env, c: Chain, packet: Packet, newAddr: Addr, k: Key, channel: ChannelId,
      redeemed: seq<TokenId>, created: seq<Token>)
    requires ValidChain(env, c) && IsOut(env, c, k, channel) && packet.dest.channel != channel
    requires Succeeds(env, c, packet, newAddr, redeemed, created)
    ensures var s1 := ReceiveIbcPacket(env, c.s, packet).value.0;
            var ms := SidesMessages(env, s1, packet, redeemed, created, newAddr);
            forall m | m in ms :: !Names(m, NftId(c.s.classToNft[k.classId], k.tokenId)) && !m.Burn?
  {
    var s1 := ReceiveIbcPacket(env, c.s, packet).value.0;
    var ms := SidesMessages(env, s1, packet, redeemed, created, newAddr);
    var id := NftId(c.s.classToNft[k.classId], k.tokenId);
    MessagesAre(env, s1, packet, redeemed, created, newAddr);
    PerformAllGives(env.self, c.ledger, ms, packet.data.value.receiver);
    forall m | m in ms ensures !Names(m, id) && !m.Burn? {
      if m.Transfer? && Names(m, id) {
        RedeemedWasOut(c.s, packet, m.token);
      }
    }
  }

  lemma SuccessKeepsOut(
      env: Env, c: Chain, packet: Packet, newAddr: Addr, k: Key, channel: ChannelId,
      redeemed: seq<TokenId>, created: seq<Token>)
    requires ValidChain(env, c) && IsOut(env, c, k, channel) && packet.dest.channel != channel
    requires Succeeds(env, c, packet, newAddr, redeemed, created)
    requires var s1 := ReceiveIbcPacket(env, c.s, packet).value.0; k in s1.outgoing && s1.outgoing[k] == channel
    ensures var c' := Deliver(env, c, packet, newAddr).0;
            var id := NftId(c.s.classToNft[k.classId], k.tokenId);
            && k in c'.s.outgoing && c'.s.outgoing[k] == channel
            && k.classId in c'.s.classToNft && c'.s.classToNft[k.classId] == c.s.classToNft[k.classId]
            && id in c'.ledger.nfts && c'.ledger.nfts[id] == c.ledger.nfts[id]
  {
    var ms := SidesMessages(env, ReceiveIbcPacket(env, c.s, packet).value.0, packet, redeemed, created, newAddr);
    NotNamed(env, c, packet, newAddr, k, channel, redeemed, created);
    PerformAllFrame(env.self, c.ledger, ms, NftId(c.s.classToNft[k.classId], k.tokenId));
    SidesKeepMappings(ReceiveIbcPacket(env, c.s, packet).value.0, packet, created, newAddr, k.classId);
  }

  lemma SidesKeepMappings(s: Storage, packet: Packet, created: seq<Token>, newAddr: Addr, x: ClassId)
    requires packet.data.Some? && x in s.classToNft
    ensures var s' := AfterSides(s, packet, created, newAddr);
            x in s'.classToNft && s'.classToNft[x] == s.classToNft[x] && s'.outgoing == s.outgoing
  {
  }

  /** A packet that arrives on another channel changes neither the entry nor the owner. */
  lemma OtherChannelKeepsOut(env: Env, c: Chain, packet: Packet, newAddr: Addr, k: Key, channel: ChannelId)
    requires ValidChain(env, c) && IsOut(env, c, k, channel) && packet.dest.channel != channel
    ensures var c' := Deliver(env, c, packet, newAddr).0;
            && IsOut(env, c', k, channel)
            && c'.s.classToNft[k.classId] == c.s.classToNft[k.classId]
            && var id := NftId(c.s.classToNft[k.classId], k.tokenId);
               c'.ledger.nfts[id] == c.ledger.nfts[id]
  {
    if ReceiveIbcPacket(env, c.s, packet).Success? {
      HandlerKeepsOut(env, c, packet, k);
      if Deliver(env, c, packet, newAddr).1 == AckSuccess {
        var redeemed, created := SuccessfulDelivery(env, c, packet, newAddr);
        SuccessKeepsOut(env, c, packet, newAddr, k, channel, redeemed, created);
      }
    }
  }

  /** A delivery creates NFTs only in the collection of the class prefixed by the receiving endpoint. */
  lemma MintsStayInPrefix(env: Env, c: Chain, packet: Packet, newAddr: Addr, id: NftId)
    requires ValidChain(env, c) && packet.dest.port == env.port
    requires id !in c.ledger.nfts && id in Deliver(env, c, packet, newAddr).0.ledger.nfts
    ensures var s' := Deliver(env, c, packet, newAddr).0.s;
            && packet.data.Some?
            && id.contract in s'.nftToClass
            && s'.nftToClass[id.contract] == EndpointPrefix(packet.dest) + packet.data.value.classId
  {
    var redeemed, created := SuccessfulDelivery(env, c, packet, newAddr);
    var s1 := ReceiveIbcPacket(env, c.s, packet).value.0;
    var ms := SidesMessages(env, s1, packet, redeemed, created, newAddr);
    MessagesAre(env, s1, packet, redeemed, created, newAddr);
    SuccessKeepsStorage(env, c, packet, newAddr);
    if forall m | m in ms :: !Names(m, id) && !m.Burn? {
      PerformAllFrame(env.self, c.ledger, ms, id);
      assert false;
    }
    var m :| m in ms && (Names(m, id) || m.Burn?);
    if m.Transfer? {
      RedeemedIsUnlocked(env, c.ledger, s1, packet, redeemed, created, newAddr, m.token);
      assert false;
    }
  }

  datatype Arrival = Arrival(packet: Packet, newAddr: Addr)

  ghost function DeliverAll(env: Env, c: Chain, arrivals: seq<Arrival>): Chain {
    if arrivals == [] then c
    else
      var init, last := arrivals[..|arrivals| - 1], arrivals[|arrivals| - 1];
      Deliver(env, DeliverAll(env, c, init), last.packet, last.newAddr).0
  }

  /** No sequence of packets on other channels moves a locked NFT or its OUTGOING entry. */
  lemma {:induction false} OtherChannelsKeepOut(env: Env, c: Chain, arrivals: seq<Arrival>, k: Key, channel: ChannelId)
    requires ValidChain(env, c) && IsOut(env, c, k, channel)
    requires forall a | a in arrivals :: a.packet.dest.port == env.port && a.packet.dest.channel != channel
    ensures var c' := DeliverAll(env, c, arrivals);
            && ValidChain(env, c') && IsOut(env, c', k, channel)
            && c'.s.classToNft[k.classId] == c.s.classToNft[k.classId]
            && var id := NftId(c.s.classToNft[k.classId], k.tokenId);
               c'.ledger.nfts[id] == c.ledger.nfts[id]
  {
    if arrivals != [] {
      var init, last := arrivals[..|arrivals| - 1], arrivals[|arrivals| - 1];
      assert last in arrivals && forall a | a in init :: a in arrivals;
      OtherChannelsKeepOut(env, c, init, k, channel);
      OtherChannelKeepsOut(env, DeliverAll(env, c, init), last.packet, last.newAddr, k, channel);
      DeliverKeepsValid(env, DeliverAll(env, c, init), last.packet, last.newAddr);
    }
  }
}
