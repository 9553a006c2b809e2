/** When the calls of `execute` and `migrate` go through, and what they answer. */
module EntryPoints {
  import opened Types
  import opened Receive
  import opened Handlers
  import opened Invariants

  // ---------- Instantiate, pause and migrate ----------

  /** A new bridge has no proxy and empty maps, is not paused, and has the pauser it was given. */
  lemma InstantiateIs(env: Env, pauser: Option<Addr>)
    ensures var r := Instantiated(env, pauser);
            && (r.Success? <==> IsNoneOrValid(env, pauser))
            && (r.Success? ==>
                  r.value.proxy == None && r.value.po == PauseState(pauser, false)
                  && r.value.classToNft == map[] && r.value.nftToClass == map[] && r.value.classes == map[]
                  && r.value.outgoing == map[] && r.value.incoming == map[] && r.value.metadata == map[])
  {
  }

  /** Exactly the pauser of a running bridge pauses it; that uses the nomination up and changes nothing else. */
  lemma PauseIs(env: Env, s: Storage, sender: Addr, w: World)
    ensures var r := Execute(env, s, sender, ExecuteMsg.Pause, w);
            && (r.Success? <==> !s.po.paused && s.po.pauser == Some(sender))
            && (r.Success? ==> r.value == (s.(po := PauseState(None, true)), Response([], [])))
            && (r.Failure? ==> r.error == if s.po.paused then Paused else Unauthorized)
  {
  }

  /** A migration replaces proxy and pauser and unpauses, if both are absent or addresses, and touches nothing else. */
  lemma MigrateIs(env: Env, s: Storage, pauser: Option<Addr>, proxy: Option<Addr>)
    ensures var r := Migrated(env, s, pauser, proxy);
            && (r.Success? <==> IsNoneOrValid(env, pauser) && IsNoneOrValid(env, proxy))
            && (r.Success? ==> r.value == s.(proxy := proxy, po := PauseState(pauser, false)))
            && (r.Failure? ==> r.error == InvalidAddress)
  {
  }

  predicate IsNoneOrValid(env: Env, a: Option<Addr>) {
    a.None? || env.valid(a.value)
  }

  /** The reply to an instantiated proxy sets it. */
  lemma ProxyReplyIs(env: Env, s: Storage, contract: Addr)
    ensures var r := ReplyProxy(env, s, contract);
            && (r.Success? <==> env.valid(contract))
            && (r.Success? ==> r.value == s.(proxy := Some(contract)))
  {
  }

  // ---------- Sends ----------

  /** A class that the bridge has mapped has a record. */
  predicate HasRecord(s: Storage, contract: Addr) {
    contract in s.nftToClass ==>
      s.nftToClass[contract] in s.classes && s.classes[s.nftToClass[contract]].id == s.nftToClass[contract]
  }

  function AsList<T>(o: Option<T>): Option<seq<T>> {
    if o.Some? then Some([o.value]) else None
  }

  /**
   One packet, over the channel asked for, with all the bridge knows of the class and the token; an
   OUTGOING entry; and a native class for a contract not seen before. Nothing else.
   */
  predicate IsSend(
      s: Storage, contract: Addr, tokenId: TokenId, sender: Addr, msg: OutgoingMsg, uri: Option<string>,
      s': Storage, r: Response)
  {
    var cls := RecordOf(s, contract);
    var data := FlatLookup(s.metadata, Key(cls.id, tokenId));
    && r.messages == [] && |r.packets| == 1 && r.packets[0].channel == msg.channel
    && r.packets[0].data ==
         PacketData(cls.id, cls.uri, cls.data, [tokenId], AsList(uri), AsList(data), sender, msg.receiver)
    && s'.outgoing == s.outgoing[Key(cls.id, tokenId) := msg.channel]
    && s' ==
         s.(classToNft := s'.classToNft, nftToClass := s'.nftToClass, classes := s'.classes, outgoing := s'.outgoing)
    && (contract in s.nftToClass ==>
          s'.classToNft == s.classToNft && s'.nftToClass == s.nftToClass && s'.classes == s.classes)
    && (contract !in s.nftToClass ==>
          && s'.classToNft == s.classToNft[contract := contract]
          && s'.nftToClass == s.nftToClass[contract := contract]
          && s'.classes == s.classes[contract := Class(contract, None, None)])
  }

  lemma SendNftIs(
      env: Env, s: Storage, contract: Addr, tokenId: TokenId, sender: Addr, msg: Option<OutgoingMsg>,
      info: Option<Option<string>>)
    requires HasRecord(s, contract)
    ensures var r := Sent(SendNft(env, s, contract, tokenId, sender, msg, info));
            && (r.Success? <==> env.valid(sender) && msg.Some? && info.Some?)
            && (r.Success? ==> IsSend(s, contract, tokenId, sender, msg.value, info.value, r.value.0, r.value.1))
            && (r.Failure? ==> IsTrueOfSend(env, sender, msg, info, r.error))
  {
  }

  predicate IsTrueOfSend(env: Env, sender: Addr, msg: Option<OutgoingMsg>, info: Option<Option<string>>, e: Error) {
    match e
    case InvalidAddress => !env.valid(sender)
    case ParseFailed => msg.None?
    case QueryFailed => info.None?
    case _ => false
  }

  /** Without a proxy, any cw721 sends for the owner it names, while the bridge is not paused. */
  lemma DirectSendIs(
      env: Env, s: Storage, contract: Addr, tokenId: TokenId, sender: Addr, msg: Option<OutgoingMsg>, w: World)
    requires HasRecord(s, contract)
    ensures var r := Execute(env, s, contract, ReceiveNft(tokenId, sender, msg), w);
            && (r.Success? <==>
                  !s.po.paused && s.proxy.None? && env.valid(sender) && msg.Some? && w.nftInfo.Some?)
            && (r.Success? ==>
                  IsSend(s, contract, tokenId, sender, msg.value, w.nftInfo.value, r.value.0, r.value.1))
            && (r.Failure? ==>
                  match r.error
                  case Paused => s.po.paused
                  case Unauthorized => s.proxy.Some?
                  case e => IsTrueOfSend(env, sender, msg, w.nftInfo, e))
  {
    SendNftIs(env, s, contract, tokenId, sender, msg, w.nftInfo);
  }

  /** With a proxy, the proxy alone sends, for the cw721 it names. */
  lemma ProxySendIs(
      env: Env, s: Storage, caller: Addr, contract: Addr, tokenId: TokenId, sender: Addr, msg: Option<OutgoingMsg>,
      w: World)
    requires HasRecord(s, contract)
    ensures var r := Execute(env, s, caller, ReceiveProxyNft(contract, tokenId, sender, msg), w);
            && (r.Success? <==>
                  && !s.po.paused && s.proxy == Some(caller) && env.valid(contract)
                  && env.valid(sender) && msg.Some? && w.nftInfo.Some?)
            && (r.Success? ==>
                  IsSend(s, contract, tokenId, sender, msg.value, w.nftInfo.value, r.value.0, r.value.1))
            && (r.Failure? ==>
                  match r.error
                  case Paused => s.po.paused
                  case Unauthorized => s.proxy != Some(caller)
                  case InvalidAddress => !env.valid(contract) || !env.valid(sender)
                  case e => IsTrueOfSend(env, sender, msg, w.nftInfo, e))
  {
    SendNftIs(env, s, contract, tokenId, sender, msg, w.nftInfo);
  }

  // ---------- Callbacks ----------

  /** Callbacks are for the bridge itself. */
  lemma CallbackIs(env: Env, s: Storage, sender: Addr, cb: Callback, w: World)
    ensures var r := Execute(env, s, sender, SelfCall(cb), w);
            && (r.Success? <==>
                  !s.po.paused && sender == env.self && RunCallback(env, s, cb, w.newAddr).Success?)
            && (r.Success? ==>
                  r.value.1.packets == []
                  && RunCallback(env, s, cb, w.newAddr).value == (r.value.0, r.value.1.messages))
  {
  }

  /** A redemption needs a mapped class and a valid receiver, and transfers its tokens in order. */
  lemma {:induction false} RedeemIs(env: Env, s: Storage, receiver: Addr, redeem: VoucherRedemption, newAddr: Addr)
    ensures var r := RunCallback(env, s, RedeemVouchers(receiver, redeem), newAddr);
            && (r.Success? <==> redeem.cls.id in s.classToNft && env.valid(receiver))
            && (r.Success? ==>
                  && r.value.0 == s && |r.value.1| == |redeem.tokenIds|
                  && forall i | 0 <= i < |redeem.tokenIds| ::
                       r.value.1[i] == Transfer(s.classToNft[redeem.cls.id], redeem.tokenIds[i], receiver))
  {
    if redeem.cls.id in s.classToNft {
      TransfersInOrder(s.classToNft[redeem.cls.id], redeem.tokenIds, receiver);
    }
  }

  lemma {:induction false} TransfersInOrder(contract: Addr, ids: seq<TokenId>, to: Addr)
    ensures |Transfers(contract, ids, to)| == |ids|
    ensures forall i | 0 <= i < |ids| :: Transfers(contract, ids, to)[i] == Transfer(contract, ids[i], to)
  {
    if ids != [] {
      TransfersInOrder(contract, ids[..|ids| - 1], to);
    }
  }

  /** A mint needs a mapped class and a valid receiver, and asks for its tokens in order, each with its own uri. */
  lemma {:induction false} MintIs(
      env: Env, s: Storage, classId: ClassId, ts: seq<Token>, receiver: Addr, newAddr: Addr)
    ensures var r := RunCallback(env, s, MintVouchers(classId, ts, receiver), newAddr);
            && (r.Success? <==> classId in s.classToNft && env.valid(receiver))
            && (r.Success? ==>
                  && r.value.0 == s.(metadata := r.value.0.metadata) && |r.value.1| == |ts|
                  && forall i | 0 <= i < |ts| ::
                       r.value.1[i] == Mint(s.classToNft[classId], ts[i].id, ts[i].uri, receiver))
  {
    if classId in s.classToNft {
      MintsInOrder(s.classToNft[classId], ts, receiver);
    }
  }

  lemma {:induction false} MintsInOrder(contract: Addr, ts: seq<Token>, to: Addr)
    ensures |Mints(contract, ts, to)| == |ts|
    ensures forall i | 0 <= i < |ts| :: Mints(contract, ts, to)[i] == Mint(contract, ts[i].id, ts[i].uri, to)
  {
    if ts != [] {
      MintsInOrder(contract, ts[..|ts| - 1], to);
    }
  }
}
