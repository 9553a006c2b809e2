/**
 What can free a locked token, when anything may happen on its chain: packets, acks and timeouts with any
 contents.
 */
module Escrow {
  import opened Types
  import opened ClassIds
  import opened Receive
  import opened Handlers
  import opened EntryPoints
  import opened Cw721
  import opened Chain
  import opened Delivery
  import opened Isolation
  import opened Effects
  import opened Outcome
  import opened Closing

  datatype Act =
    | Arrives(packet: Packet, newAddr: Addr)
    | Sends(id: NftId, actor: Addr, msg: OutgoingMsg)
    | Acks(packet: Packet, ack: Option<Ack>)
    | TimesOut(packet: Packet)
    | UsersTrade(ledger: Ledger)
    | Pauses(sender: Addr)
    | Upgrades(pauser: Option<Addr>, proxy: Option<Addr>)

  /** Users leave alone what the bridge owns, and who may mint what. */
  ghost predicate UsersCan(env: Env, l: Ledger, l': Ledger) {
    && ValidLedger(l') && env.self !in l'.collections
    && (forall a | a in l.collections :: a in l'.collections && l'.collections[a] == l.collections[a])
    && (forall id | id in l.nfts && l.nfts[id].owner == env.self :: id in l'.nfts && l'.nfts[id] == l.nfts[id])
  }

  predicate CanArrive(env: Env, c: Chain, packet: Packet, newAddr: Addr) {
    packet.dest.port == env.port && FreshAddress(env, c, newAddr)
  }

  /** One transaction; one that fails changes nothing. */
  ghost function Do(env: Env, c: Chain, e: Act): Chain {
    match e
    case Arrives(packet, newAddr) =>
      if CanArrive(env, c, packet, newAddr) then Deliver(env, c, packet, newAddr).0 else c
    case Sends(id, actor, msg) =>
      var r := UserSend(env, c, id, actor, msg);
      if r.Some? then r.value.0 else c
    case Acks(packet, ack) =>
      var r := Acknowledge(env, c, packet, ack);
      if r.Some? then r.value else c
    case TimesOut(packet) =>
      var r := TimeOut(env, c, packet);
      if r.Some? then r.value else c
    case UsersTrade(ledger) => if UsersCan(env, c.ledger, ledger) then c.(ledger := ledger) else c
    case Pauses(sender) =>
      var r := Execute(env, c.s, sender, ExecuteMsg.Pause, World(None, ""));
      if r.Success? then c.(s := r.value.0) else c
    case Upgrades(pauser, proxy) =>
      var r := Migrated(env, c.s, pauser, proxy);
      if r.Success? then c.(s := r.value) else c
  }

  ghost function DoAll(env: Env, c: Chain, es: seq<Act>): Chain {
    if es == [] then c else Do(env, DoAll(env, c, es[..|es| - 1]), es[|es| - 1])
  }

  /** The transaction takes the token out of the bridge's hands, or its entry out of OUTGOING. */
  ghost predicate Frees(env: Env, c: Chain, e: Act, k: Key) {
    match e
    case Arrives(packet, newAddr) =>
      CanArrive(env, c, packet, newAddr) && Passes(env, c.s, packet) && RedeemsKey(c.s, packet, k)
    case Acks(packet, ack) =>
      && IsNamed(packet, k) && Acknowledge(env, c, packet, ack).Some?
      && (ack != Some(AckSuccess) || (k in c.s.incoming && c.s.incoming[k] == packet.src.channel))
    case TimesOut(packet) => IsNamed(packet, k) && TimeOut(env, c, packet).Some?
    case _ => false
  }

  /** All that a transaction needs to have to do with a token to free it, whatever the state. */
  predicate Concerns(e: Act, k: Key, channel: ChannelId) {
    match e
    case Arrives(packet, _) =>
      && packet.dest.channel == channel && packet.data.Some?
      && packet.data.value.classId == EndpointPrefix(packet.src) + k.classId && k.tokenId in packet.data.value.tokenIds
    case Acks(packet, _) => IsNamed(packet, k)
    case TimesOut(packet) => IsNamed(packet, k)
    case _ => false
  }

  lemma OutIff(env: Env, c: Chain, k: Key, channel: ChannelId)
    requires ValidChain(env, c)
    ensures IsOut(env, c, k, channel) <==>
            && k in c.s.outgoing && c.s.outgoing[k] == channel
            && NftAt(c, k).Some? && NftAt(c, k).value.owner == env.self
  {
  }

  // ---------- Packets ----------

  lemma FreeingConcerns(env: Env, c: Chain, e: Act, k: Key, channel: ChannelId)
    requires Frees(env, c, e, k) && k in c.s.outgoing && c.s.outgoing[k] == channel
    ensures Concerns(e, k, channel)
  {
    if e.Arrives? {
      var d := e.packet.data.value;
      PassesIff(env, c.s, e.packet);
      PopIsInverse(e.packet.src, d.classId, k.classId);
      TokensOfValid(d);
    }
  }

  /** A packet that does not redeem the token does not create it either. */
  lemma StaysAfterPacket(env: Env, c: Chain, packet: Packet, newAddr: Addr, k: Key)
    requires ValidChain(env, c) && FreshAddress(env, c, newAddr) && NftAt(c, k).Some?
    requires Passes(env, c.s, packet) && !RedeemsKey(c.s, packet, k)
    ensures NftAt(Deliver(env, c, packet, newAddr).0, k) == NftAt(c, k)
  {
    SucceedsIff(env, c, packet, newAddr);
    if Deliverable(env, c, packet) {
      SuccessChangesOnly(env, c, packet, newAddr, k);
    } else {
      FailedAckRollsBack(env, c, packet, newAddr);
    }
  }

  lemma EntryStays(env: Env, c: Chain, packet: Packet, newAddr: Addr, k: Key)
    requires
      && ValidChain(env, c)
      && FreshAddress(env, c, newAddr)
      && Passes(env, c.s, packet)
      && k in c.s.outgoing
    ensures var c' := Deliver(env, c, packet, newAddr).0;
            if RedeemsKey(c.s, packet, k) then k !in c'.s.outgoing
            else k in c'.s.outgoing && c'.s.outgoing[k] == c.s.outgoing[k]
  {
    PassesIff(env, c.s, packet);
    OutgoingAfter(env, c, packet, newAddr);
  }

  lemma PacketFrees(env: Env, c: Chain, packet: Packet, newAddr: Addr, k: Key, channel: ChannelId)
    requires ValidChain(env, c) && CanArrive(env, c, packet, newAddr) && IsOut(env, c, k, channel)
    ensures var c' := Deliver(env, c, packet, newAddr).0;
            && ValidChain(env, c')
            && (IsOut(env, c', k, channel) <==> !Passes(env, c.s, packet) || !RedeemsKey(c.s, packet, k))
            && (IsOut(env, c', k, channel) ==> NftAt(c', k) == NftAt(c, k))
  {
    DeliverKeepsValid(env, c, packet, newAddr);
    OutIff(env, c, k, channel);
    OutIff(env, Deliver(env, c, packet, newAddr).0, k, channel);
    PassesIff(env, c.s, packet);
    if !Passes(env, c.s, packet) {
      ErrorChangesNothing(env, c, packet, newAddr);
    } else {
      EntryStays(env, c, packet, newAddr, k);
      if !RedeemsKey(c.s, packet, k) {
        StaysAfterPacket(env, c, packet, newAddr, k);
      }
    }
  }

  // ---------- Refunds ----------

  lemma RefundFrees(env: Env, c: Chain, packet: Packet, k: Key, channel: ChannelId)
    requires ValidChain(env, c) && TimeOut(env, c, packet).Some? && IsOut(env, c, k, channel)
    ensures var c' := TimeOut(env, c, packet).value;
            && ValidChain(env, c')
            && (IsOut(env, c', k, channel) <==> !IsNamed(packet, k))
            && (IsOut(env, c', k, channel) ==> NftAt(c', k) == NftAt(c, k))
  {
    RefundGivesBack(env, c, packet, k);
    OutIff(env, c, k, channel);
    OutIff(env, TimeOut(env, c, packet).value, k, channel);
  }

  lemma AckFrees(env: Env, c: Chain, packet: Packet, ack: Option<Ack>, k: Key, channel: ChannelId)
    requires ValidChain(env, c) && Acknowledge(env, c, packet, ack).Some? && IsOut(env, c, k, channel)
    ensures var c' := Acknowledge(env, c, packet, ack).value;
            && ValidChain(env, c')
            && (IsOut(env, c', k, channel) <==> !Frees(env, c, Acks(packet, ack), k))
            && (IsOut(env, c', k, channel) ==> NftAt(c', k) == NftAt(c, k))
  {
    if ack != Some(AckSuccess) {
      RefundIff(env, c, packet);
      RefundFrees(env, c, packet, k, channel);
    } else {
      OutIff(env, c, k, channel);
      AckBurnsReturned(env, c, packet, k);
      OutIff(env, Acknowledge(env, c, packet, ack).value, k, channel);
    }
  }

  // ---------- Sends and users ----------

  /** Nobody sends what the bridge has. */
  lemma SendFreesNothing(env: Env, c: Chain, id: NftId, actor: Addr, msg: OutgoingMsg, k: Key, channel: ChannelId)
    requires ValidChain(env, c) && UserSend(env, c, id, actor, msg).Some? && IsOut(env, c, k, channel)
    ensures var c' := UserSend(env, c, id, actor, msg).value.0;
            ValidChain(env, c') && IsOut(env, c', k, channel) && NftAt(c', k) == NftAt(c, k)
  {
    OutIff(env, c, k, channel);
    UserSendIsSendNft(env, c, id, actor, msg);
    UserSendEffect(env, c, id, actor, msg);
    OutIff(env, UserSend(env, c, id, actor, msg).value.0, k, channel);
  }

  lemma TradeFreesNothing(env: Env, c: Chain, l: Ledger, k: Key, channel: ChannelId)
    requires ValidChain(env, c) && UsersCan(env, c.ledger, l) && IsOut(env, c, k, channel)
    ensures var c' := c.(ledger := l);
            ValidChain(env, c') && IsOut(env, c', k, channel) && NftAt(c', k) == NftAt(c, k)
  {
  }

  lemma SettingsFreeNothing(env: Env, c: Chain, proxy: Option<Addr>, po: PauseState, k: Key, channel: ChannelId)
    requires ValidChain(env, c) && IsOut(env, c, k, channel)
    ensures var c' := c.(s := c.s.(proxy := proxy, po := po));
            ValidChain(env, c') && IsOut(env, c', k, channel) && NftAt(c', k) == NftAt(c, k)
  {
  }

  // ---------- Any transaction, any run ----------

  /** A token that is out stays out, its NFT as it was. */
  ghost predicate StillOut(env: Env, c: Chain, c': Chain, k: Key, channel: ChannelId) {
    ValidChain(env, c') && IsOut(env, c', k, channel) && NftAt(c', k) == NftAt(c, k)
  }

  /**
   Exactly three things free a locked token: a packet that passes the checks and redeems it, delivered or
   not; a refund that names it; and a success ack that names it on the channel it came in on.
   */
  lemma FreedIff(env: Env, c: Chain, e: Act, k: Key, channel: ChannelId)
    requires ValidChain(env, c) && IsOut(env, c, k, channel)
    ensures StillOut(env, c, Do(env, c, e), k, channel) <==> !Frees(env, c, e, k)
    ensures IsOut(env, Do(env, c, e), k, channel) <==> !Frees(env, c, e, k)
  {
    match e {
      case Arrives(packet, newAddr) =>
        if CanArrive(env, c, packet, newAddr) {
          PacketFrees(env, c, packet, newAddr, k, channel);
        }
      case Sends(id, actor, msg) =>
        if UserSend(env, c, id, actor, msg).Some? {
          SendFreesNothing(env, c, id, actor, msg, k, channel);
        }
      case Acks(packet, ack) =>
        if Acknowledge(env, c, packet, ack).Some? {
          AckFrees(env, c, packet, ack, k, channel);
        }
      case TimesOut(packet) =>
        if TimeOut(env, c, packet).Some? {
          RefundFrees(env, c, packet, k, channel);
        }
      case UsersTrade(ledger) =>
        if UsersCan(env, c.ledger, ledger) {
          TradeFreesNothing(env, c, ledger, k, channel);
        }
      case Pauses(sender) =>
        PauseIs(env, c.s, sender, World(None, ""));
        SettingsFreeNothing(env, c, c.s.proxy, PauseState(None, true), k, channel);
      case Upgrades(pauser, proxy) =>
        MigrateIs(env, c.s, pauser, proxy);
        SettingsFreeNothing(env, c, proxy, PauseState(pauser, false), k, channel);
    }
  }

  /** The token is still out after `i` transactions, and the next one, if there is one, frees it. */
  ghost predicate IsFreedAt(env: Env, c: Chain, es: seq<Act>, i: nat, k: Key, channel: ChannelId) {
    && i <= |es| && StillOut(env, c, DoAll(env, c, es[..i]), k, channel)
    && (i < |es| ==> Frees(env, DoAll(env, c, es[..i]), es[i], k) && Concerns(es[i], k, channel))
  }

  /**
   In any run, a locked token leaves through its own channel or its own packet only: the transaction that
   frees it is a packet that arrives on the channel the token went out by and names it under the sender's
   prefix, or an ack or timeout that names it.
   */
  lemma {:induction false} FreedThroughItsChannel(
      env: Env, c: Chain, es: seq<Act>, k: Key, channel: ChannelId)
    returns (i: nat)
    requires ValidChain(env, c) && IsOut(env, c, k, channel)
    ensures IsFreedAt(env, c, es, i, k, channel)
    decreases |es|
  {
    if es == [] {
      i := NotFreedYet(env, c, es, k, channel);
    } else {
      i := FreedThroughItsChannel(env, c, es[..|es| - 1], k, channel);
      i := FreedNext(env, c, es, i, k, channel);
    }
  }

  lemma NotFreedYet(env: Env, c: Chain, es: seq<Act>, k: Key, channel: ChannelId) returns (i: nat)
    requires ValidChain(env, c) && IsOut(env, c, k, channel) && es == []
    ensures IsFreedAt(env, c, es, i, k, channel)
  {
    i := 0;
  }

  lemma FreedNext(env: Env, c: Chain, es: seq<Act>, i: nat, k: Key, channel: ChannelId) returns (j: nat)
    requires es != [] && IsFreedAt(env, c, es[..|es| - 1], i, k, channel)
    ensures IsFreedAt(env, c, es, j, k, channel)
  {
    if i < |es| - 1 {
      FreedBefore(env, c, es, i, k, channel);
      j := i;
    } else {
      j := FreedLast(env, c, es, k, channel);
    }
  }

  lemma FreedBefore(env: Env, c: Chain, es: seq<Act>, i: nat, k: Key, channel: ChannelId)
    requires es != [] && i < |es| - 1 && IsFreedAt(env, c, es[..|es| - 1], i, k, channel)
    ensures IsFreedAt(env, c, es, i, k, channel)
  {
    assert es[..|es| - 1][..i] == es[..i] && es[..|es| - 1][i] == es[i];
  }

  lemma FreedLast(env: Env, c: Chain, es: seq<Act>, k: Key, channel: ChannelId) returns (i: nat)
    requires es != [] && IsFreedAt(env, c, es[..|es| - 1], |es| - 1, k, channel)
    ensures IsFreedAt(env, c, es, i, k, channel)
  {
    var m, e := DoAll(env, c, es[..|es| - 1]), es[|es| - 1];
    assert es[..|es| - 1][..|es| - 1] == es[..|es| - 1];
    FreedOrStillOut(env, c, m, e, k, channel);
    assert es[..|es|] == es;
    i := if Frees(env, m, e, k) then |es| - 1 else |es|;
  }

  lemma FreedOrStillOut(env: Env, c: Chain, m: Chain, e: Act, k: Key, channel: ChannelId)
    requires StillOut(env, c, m, k, channel)
    ensures if Frees(env, m, e, k) then Concerns(e, k, channel) else StillOut(env, c, Do(env, m, e), k, channel)
  {
    FreedIff(env, m, e, k, channel);
    if Frees(env, m, e, k) {
      FreeingConcerns(env, m, e, k, channel);
    }
  }

  // ---------- The chain stays valid ----------

  lemma SettingsKeepChain(env: Env, c: Chain, proxy: Option<Addr>, po: PauseState)
    requires ValidChain(env, c)
    ensures ValidChain(env, c.(s := c.s.(proxy := proxy, po := po)))
  {
  }

  lemma DoKeepsValid(env: Env, c: Chain, e: Act)
    requires ValidChain(env, c)
    ensures ValidChain(env, Do(env, c, e))
  {
    match e {
      case Arrives(packet, newAddr) =>
        if CanArrive(env, c, packet, newAddr) {
          DeliverKeepsValid(env, c, packet, newAddr);
        }
      case Sends(id, actor, msg) =>
        if UserSend(env, c, id, actor, msg).Some? {
          UserSendKeepsValid(env, c, id, actor, msg);
        }
      case Acks(packet, ack) => SettlingKeepsChain(env, c, packet, ack);
      case TimesOut(packet) => SettlingKeepsChain(env, c, packet, None);
      case UsersTrade(_) =>
      case Pauses(sender) =>
        PauseIs(env, c.s, sender, World(None, ""));
        SettingsKeepChain(env, c, c.s.proxy, PauseState(None, true));
      case Upgrades(pauser, proxy) =>
        MigrateIs(env, c.s, pauser, proxy);
        SettingsKeepChain(env, c, proxy, PauseState(pauser, false));
    }
  }
}
