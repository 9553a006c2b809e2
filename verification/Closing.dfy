/** How acks and timeouts close a packet, whatever it contains and however many tokens it names. */
module Closing {
  import opened Types
  import opened Handlers
  import opened Invariants
  import opened Cw721
  import opened Chain
  import opened Effects
  import opened Outcome

  /** The packet is about the token. */
  predicate IsNamed(packet: Packet, k: Key) {
    packet.data.Some? && packet.data.value.classId == k.classId && k.tokenId in packet.data.value.tokenIds
  }

  lemma SettledIsValid(env: Env, c: Chain, r: Result<(Storage, seq<NftMsg>)>)
    requires ValidChain(env, c) && Settle(env, c, r).Some? && ValidStorage(env, r.value.0)
    requires r.value.0.nftToClass == c.s.nftToClass
    ensures ValidChain(env, Settle(env, c, r).value)
  {
    PerformAllKeepsValid(env.self, c.ledger, r.value.1);
  }

  lemma SettlingKeepsChain(env: Env, c: Chain, packet: Packet, ack: Option<Ack>)
    requires ValidChain(env, c)
    ensures TimeOut(env, c, packet).Some? ==> ValidChain(env, TimeOut(env, c, packet).value)
    ensures Acknowledge(env, c, packet, ack).Some? ==> ValidChain(env, Acknowledge(env, c, packet, ack).value)
  {
    if TimeOut(env, c, packet).Some? {
      FailKeepsValid(env, c.s, packet);
      SettledIsValid(env, c, HandlePacketFail(env, c.s, packet));
    }
    if Acknowledge(env, c, packet, ack).Some? {
      AckKeepsValid(env, c.s, packet, ack);
      SettledIsValid(env, c, IbcPacketAck(env, c.s, packet, ack));
    }
  }

  // ---------- Refunds ----------

  lemma OwnsNamed(env: Env, c: Chain, d: PacketData)
    requires ValidChain(env, c) && d.classId in c.s.classToNft
    ensures OwnsAll(c.ledger, env.self, c.s.classToNft[d.classId], d.tokenIds) <==>
            forall t | t in d.tokenIds :: IsHeld(env, c, Key(d.classId, t))
  {
    forall t | t in d.tokenIds
      ensures IsHeld(env, c, Key(d.classId, t)) <==>
              var id := NftId(c.s.classToNft[d.classId], t);
              id in c.ledger.nfts && c.ledger.nfts[id].owner == env.self
    {
    }
  }

  /** The bridge owns the NFT. */
  predicate IsHeld(env: Env, c: Chain, k: Key) {
    NftAt(c, k).Some? && NftAt(c, k).value.owner == env.self
  }

  /**
   A refund goes through exactly when the packet parses and names a mapped class and a sender that is an
   address, and the bridge has all its tokens, each named once unless they go to the bridge itself. Acks
   that are anything but a success do the same.
   */
  lemma RefundIff(env: Env, c: Chain, packet: Packet)
    requires ValidChain(env, c)
    ensures TimeOut(env, c, packet).Some? <==>
              && packet.data.Some?
              && var d := packet.data.value;
              && d.classId in c.s.classToNft && env.valid(d.sender)
              && (forall t | t in d.tokenIds :: IsHeld(env, c, Key(d.classId, t)))
              && (NoRepeats(d.tokenIds) || d.sender == env.self)
    ensures forall ack | ack != Some(AckSuccess) :: Acknowledge(env, c, packet, ack) == TimeOut(env, c, packet)
  {
    if packet.data.Some? && packet.data.value.classId in c.s.classToNft {
      var d := packet.data.value;
      OwnsNamed(env, c, d);
      TransfersRun(env.self, c.ledger, c.s.classToNft[d.classId], d.tokenIds, d.sender);
    }
  }

  lemma RefundMoves(env: Env, c: Chain, packet: Packet, k: Key)
    requires ValidChain(env, c) && TimeOut(env, c, packet).Some?
    ensures var c' := TimeOut(env, c, packet).value;
            NftAt(c', k) == if IsNamed(packet, k) && NftAt(c, k).Some?
                            then Some(NftAt(c, k).value.(owner := packet.data.value.sender)) else NftAt(c, k)
  {
    var d, a := packet.data.value, ContractOf(c.s, k.classId);
    TransfersRun(env.self, c.ledger, c.s.classToNft[d.classId], d.tokenIds, d.sender);
    if a.Some? && a.value == c.s.classToNft[d.classId] {
      ContractsDiffer(env, c.s, k.classId, d.classId);
    }
  }

  lemma RefundForgets(env: Env, c: Chain, packet: Packet, k: Key)
    requires ValidChain(env, c) && TimeOut(env, c, packet).Some?
    ensures var c' := TimeOut(env, c, packet).value;
            && c'.s == c.s.(outgoing := c'.s.outgoing)
            && (k in c'.s.outgoing <==> k in c.s.outgoing && !IsNamed(packet, k))
            && (k in c'.s.outgoing ==> c'.s.outgoing[k] == c.s.outgoing[k])
  {
    RemoveKeysShrinks(c.s.outgoing, packet.data.value.classId, packet.data.value.tokenIds);
  }

  /** It gives each named token to the packet's sender and forgets its OUTGOING entry, and changes nothing else. */
  lemma RefundGivesBack(env: Env, c: Chain, packet: Packet, k: Key)
    requires ValidChain(env, c) && TimeOut(env, c, packet).Some?
    ensures var c' := TimeOut(env, c, packet).value;
            && ValidChain(env, c') && c'.s == c.s.(outgoing := c'.s.outgoing)
            && (k in c'.s.outgoing <==> k in c.s.outgoing && !IsNamed(packet, k))
            && (k in c'.s.outgoing ==> c'.s.outgoing[k] == c.s.outgoing[k])
            && (if IsNamed(packet, k)
                then
                  && IsHeld(env, c, k)
                  && NftAt(c', k) == Some(NftAt(c, k).value.(owner := packet.data.value.sender))
                else NftAt(c', k) == NftAt(c, k))
  {
    SettlingKeepsChain(env, c, packet, None);
    RefundMoves(env, c, packet, k);
    RefundForgets(env, c, packet, k);
    RefundIff(env, c, packet);
    assert IsNamed(packet, k) ==> k == Key(packet.data.value.classId, k.tokenId);
  }

  // ---------- Burns ----------

  /** The keys of a packet that came in on the channel. */
  function CameIn(incoming: map<Key, ChannelId>, classId: ClassId, channel: ChannelId, ids: seq<TokenId>): set<Key> {
    set t | t in ids && Key(classId, t) in incoming && incoming[Key(classId, t)] == channel :: Key(classId, t)
  }

  function Without(l: Ledger, contract: Addr, keys: set<Key>): Ledger {
    l.(nfts := map id | id in l.nfts && !(id.contract == contract && IsOf(keys, id.token)) :: l.nfts[id])
  }

  predicate IsOf(keys: set<Key>, t: TokenId) {
    exists k :: k in keys && k.tokenId == t
  }

  predicate AllOwned(l: Ledger, owner: Addr, contract: Addr, keys: set<Key>) {
    forall k | k in keys :: NftId(contract, k.tokenId) in l.nfts && l.nfts[NftId(contract, k.tokenId)].owner == owner
  }

  /** The loop takes exactly the keys that came in on the channel out of both maps. */
  lemma {:induction false} BurnAllIs(
      p: BurnProgress, classId: ClassId, contract: Addr, channel: ChannelId, ids: seq<TokenId>)
    ensures var q := BurnAll(p, classId, contract, channel, ids);
            var keys := CameIn(p.incoming, classId, channel, ids);
            q.incoming == p.incoming - keys && q.metadata == p.metadata - keys
  {
    if ids != [] {
      var n := |ids| - 1;
      BurnAllIs(p, classId, contract, channel, ids[..n]);
      assert ids == ids[..n] + [ids[n]];
    }
  }

  /** Its messages go through exactly when the bridge owns all those tokens, and burn them. */
  lemma {:induction false} BurnsRun(
      sender: Addr, l: Ledger, p: BurnProgress, classId: ClassId, contract: Addr, channel: ChannelId, ids: seq<TokenId>)
    requires p.messages == []
    ensures var keys := CameIn(p.incoming, classId, channel, ids);
            PerformAll(sender, l, BurnAll(p, classId, contract, channel, ids).messages) ==
            if AllOwned(l, sender, contract, keys) then Some(Without(l, contract, keys)) else None
  {
    if ids == [] {
      assert CameIn(p.incoming, classId, channel, ids) == {};
      assert Without(l, contract, {}).nfts == l.nfts;
    } else {
      var n := |ids| - 1;
      var key, before := Key(classId, ids[n]), CameIn(p.incoming, classId, channel, ids[..n]);
      var q := BurnAll(p, classId, contract, channel, ids[..n]);
      BurnsRun(sender, l, p, classId, contract, channel, ids[..n]);
      BurnAllIs(p, classId, contract, channel, ids[..n]);
      assert ids == ids[..n] + [ids[n]];
      if key in q.incoming && q.incoming[key] == channel {
        assert CameIn(p.incoming, classId, channel, ids) == before + {key};
        PerformAllAppend(sender, l, q.messages, [Burn(contract, ids[n])]);
        assert key !in before && forall k | k in before :: k == Key(classId, k.tokenId);
        assert AllOwned(l, sender, contract, before + {key}) <==>
               AllOwned(l, sender, contract, before) && AllOwned(l, sender, contract, {key});
        BurnsOne(sender, l, contract, before, key);
      } else {
        assert CameIn(p.incoming, classId, channel, ids) == before;
      }
    }
  }

  lemma BurnsOne(sender: Addr, l: Ledger, contract: Addr, before: set<Key>, key: Key)
    requires !IsOf(before, key.tokenId)
    ensures PerformAll(sender, Without(l, contract, before), [Burn(contract, key.tokenId)]) ==
            if AllOwned(l, sender, contract, {key}) then Some(Without(l, contract, before + {key})) else None
  {
    PerformOne(sender, Without(l, contract, before), Burn(contract, key.tokenId));
    if AllOwned(l, sender, contract, {key}) {
      forall t ensures IsOf(before + {key}, t) <==> IsOf(before, t) || t == key.tokenId {
        assert key in before + {key};
      }
      assert Without(l, contract, before + {key}).nfts
          == Without(l, contract, before).nfts - {NftId(contract, key.tokenId)};
    }
  }

  // ---------- Success acks ----------

  /** The packet names the token on the channel that it came in on. */
  predicate IsReturned(c: Chain, packet: Packet, k: Key) {
    IsNamed(packet, k) && k in c.s.incoming && c.s.incoming[k] == packet.src.channel
  }

  /**
   A success ack goes through exactly when the packet parses and names a mapped class, and the bridge has
   all the tokens it returned.
   */
  lemma AckIff(env: Env, c: Chain, packet: Packet)
    requires ValidChain(env, c)
    ensures Acknowledge(env, c, packet, Some(AckSuccess)).Some? <==>
              && packet.data.Some? && packet.data.value.classId in c.s.classToNft
              && forall k | IsReturned(c, packet, k) :: IsHeld(env, c, k)
  {
    if packet.data.Some? && packet.data.value.classId in c.s.classToNft {
      var d := packet.data.value;
      var keys := CameIn(c.s.incoming, d.classId, packet.src.channel, d.tokenIds);
      BurnsRun(env.self, c.ledger, BurnProgress(c.s.incoming, c.s.metadata, []), d.classId,
               c.s.classToNft[d.classId], packet.src.channel, d.tokenIds);
      ReturnedAre(c, packet);
      OwnsReturned(env, c, d.classId, keys);
    }
  }

  lemma OwnsReturned(env: Env, c: Chain, classId: ClassId, keys: set<Key>)
    requires ValidChain(env, c) && classId in c.s.classToNft && forall k | k in keys :: k.classId == classId
    ensures AllOwned(c.ledger, env.self, c.s.classToNft[classId], keys) <==> forall k | k in keys :: IsHeld(env, c, k)
  {
    forall k | k in keys
      ensures IsHeld(env, c, k) <==>
              var id := NftId(c.s.classToNft[classId], k.tokenId);
              id in c.ledger.nfts && c.ledger.nfts[id].owner == env.self
    {
    }
  }

  lemma ReturnedAre(c: Chain, packet: Packet)
    requires packet.data.Some?
    ensures var d := packet.data.value;
            forall k :: IsReturned(c, packet, k) <==>
              k in CameIn(c.s.incoming, d.classId, packet.src.channel, d.tokenIds)
  {
    var d := packet.data.value;
    forall k | IsReturned(c, packet, k) ensures k in CameIn(c.s.incoming, d.classId, packet.src.channel, d.tokenIds) {
      assert k == Key(d.classId, k.tokenId);
    }
  }

  lemma AckForgets(env: Env, c: Chain, packet: Packet, k: Key)
    requires Acknowledge(env, c, packet, Some(AckSuccess)).Some?
    ensures var c' := Acknowledge(env, c, packet, Some(AckSuccess)).value;
            && c'.s == c.s.(incoming := c'.s.incoming, metadata := c'.s.metadata)
            && (k in c'.s.incoming <==> k in c.s.incoming && !IsReturned(c, packet, k))
            && (k in c'.s.incoming ==> c'.s.incoming[k] == c.s.incoming[k])
            && (k in c'.s.metadata <==> k in c.s.metadata && !IsReturned(c, packet, k))
            && (k in c'.s.metadata ==> c'.s.metadata[k] == c.s.metadata[k])
  {
    var d := packet.data.value;
    BurnAllIs(BurnProgress(c.s.incoming, c.s.metadata, []), d.classId, c.s.classToNft[d.classId],
              packet.src.channel, d.tokenIds);
    ReturnedAre(c, packet);
  }

  lemma AckMoves(env: Env, c: Chain, packet: Packet, k: Key)
    requires ValidChain(env, c) && Acknowledge(env, c, packet, Some(AckSuccess)).Some?
    ensures var c' := Acknowledge(env, c, packet, Some(AckSuccess)).value;
            NftAt(c', k) == if IsReturned(c, packet, k) then None else NftAt(c, k)
  {
    var d, a := packet.data.value, ContractOf(c.s, k.classId);
    BurnsRun(env.self, c.ledger, BurnProgress(c.s.incoming, c.s.metadata, []), d.classId,
             c.s.classToNft[d.classId], packet.src.channel, d.tokenIds);
    ReturnedAre(c, packet);
    if a.Some? && a.value == c.s.classToNft[d.classId] {
      ContractsDiffer(env, c.s, k.classId, d.classId);
      var keys := CameIn(c.s.incoming, d.classId, packet.src.channel, d.tokenIds);
      assert IsOf(keys, k.tokenId) <==> k in keys by {
        assert forall x | x in keys :: x == Key(d.classId, x.tokenId);
      }
    }
  }

  /** It burns each token it returned, with its INCOMING and metadata entries, and changes nothing else. */
  lemma AckBurnsReturned(env: Env, c: Chain, packet: Packet, k: Key)
    requires ValidChain(env, c) && Acknowledge(env, c, packet, Some(AckSuccess)).Some?
    ensures var c' := Acknowledge(env, c, packet, Some(AckSuccess)).value;
            && ValidChain(env, c') && c'.s == c.s.(incoming := c'.s.incoming, metadata := c'.s.metadata)
            && if IsReturned(c, packet, k)
               then NftAt(c', k) == None && k !in c'.s.incoming && k !in c'.s.metadata
               else
                 && NftAt(c', k) == NftAt(c, k)
                 && (k in c'.s.incoming <==> k in c.s.incoming) && (k in c'.s.metadata <==> k in c.s.metadata)
                 && (k in c.s.incoming ==> c'.s.incoming[k] == c.s.incoming[k])
                 && (k in c.s.metadata ==> c'.s.metadata[k] == c.s.metadata[k])
  {
    SettlingKeepsChain(env, c, packet, Some(AckSuccess));
    AckForgets(env, c, packet, k);
    AckMoves(env, c, packet, k);
  }
}
