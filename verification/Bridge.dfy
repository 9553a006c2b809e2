/**
 The contract itself: its storage items as fields, its entry points as methods. Each method does
 what the function of `Handlers` with the same role says.
 */
module Bridge {
  import opened Types
  import opened ClassIds
  import opened Receive
  import opened PauseOnce
  import opened Handlers
  import opened EntryPoints
  import opened ZipOptional

  /** What a handler answers, without the storage it leaves. */
  function Answer<T>(r: Result<(Storage, T)>): Result<T> {
    match r
    case Success((_, t)) => Success(t)
    case Failure(e) => Failure(e)
  }

  type Item = ((TokenId, Option<string>), Option<Binary>)

  function AsToken(item: Item): Token {
    Token(item.0.0, item.0.1, item.1)
  }

  ghost predicate AreTokens(items: seq<Item>, tokens: seq<Token>) {
    |items| == |tokens| && forall i | 0 <= i < |items| :: tokens[i] == AsToken(items[i])
  }

  lemma SelectNext(r: Route, p: Progress, ts: seq<Token>, n: nat)
    requires n < |ts|
    ensures Select(r, p, ts[..n + 1]) == SelectOne(r, Select(r, p, ts[..n]), ts[n])
  {
    assert ts[..n + 1][..n] == ts[..n];
  }

  /** What the next item is, and what is left after it. */
  lemma FirstToken(item: Item, rest: seq<Item>, tokens: seq<Token>, done: nat)
    requires done <= |tokens| && AreTokens([item] + rest, tokens[done..])
    ensures done < |tokens| && tokens[done] == AsToken(item) && |rest| == |tokens| - done - 1
    ensures rest != [] ==> AreTokens([rest[0]] + rest[1..], tokens[done + 1..])
  {
    var all := [item] + rest;
    assert all[0] == item && tokens[done..][0] == tokens[done];
    forall i | 0 <= i < |rest| ensures tokens[done + 1..][i] == AsToken(rest[i]) {
      assert all[i + 1] == rest[i] && tokens[done..][i + 1] == tokens[done + 1..][i];
    }
  }

  class Bridge {
    var proxy: Option<Addr>
    const po: PauseOrchestrator
    var classToNft: map<ClassId, Addr>
    var nftToClass: map<Addr, ClassId>
    var classes: map<ClassId, Class>
    var outgoing: map<Key, ChannelId>
    var incoming: map<Key, ChannelId>
    var metadata: map<Key, Option<Binary>>

    ghost function State(): Storage
      reads this, po
    {
      Storage(proxy, po.State(), classToNft, nftToClass, classes, outgoing, incoming, metadata)
    }

    constructor ()
      ensures fresh(po)
      ensures State() == Storage(None, PauseState(None, false), map[], map[], map[], map[], map[], map[])
    {
      po := new PauseOrchestrator();
      proxy := None;
      classToNft, nftToClass, classes := map[], map[], map[];
      outgoing, incoming, metadata := map[], map[], map[];
    }

    method Snapshot() returns (s: Storage)
      ensures s == State()
    {
      return Storage(
        proxy, PauseState(po.pauser, po.paused), classToNft, nftToClass, classes, outgoing, incoming, metadata);
    }

    /** What the chain does to the storage when a transaction fails. */
    method Restore(s: Storage)
      modifies this, po
      ensures State() == s
    {
      proxy := s.proxy;
      po.pauser, po.paused := s.po.pauser, s.po.paused;
      classToNft, nftToClass, classes := s.classToNft, s.nftToClass, s.classes;
      outgoing, incoming, metadata := s.outgoing, s.incoming, s.metadata;
    }

    // ---------- contract.rs ----------

    method Instantiate(env: Env, pauser: Option<Addr>) returns (r: Result<()>)
      requires State() == Storage(None, PauseState(None, false), map[], map[], map[], map[], map[], map[])
      modifies this, po
      ensures r.Success? <==> pauser.None? || env.valid(pauser.value)
      ensures State() == old(State()).(po := if r.Success? then PauseState(pauser, false) else old(po.State()))
      ensures r.Success? ==> Instantiated(env, pauser) == Success(State())
      ensures r.Failure? ==> Instantiated(env, pauser) == Failure(r.error)
    {
      InstantiateIs(env, pauser);
      proxy := None;
      r := po.Nominate(env.valid, pauser);
    }

    method Migrate(env: Env, pauser: Option<Addr>, proxy: Option<Addr>) returns (r: Result<()>)
      modifies this, po
      ensures r.Success? <==> IsNoneOrValid(env, pauser) && IsNoneOrValid(env, proxy)
      ensures r.Success? ==> State() == old(State()).(proxy := proxy, po := PauseState(pauser, false))
      ensures r.Failure? ==> r.error == InvalidAddress && State() == old(State())
      ensures match Migrated(env, old(State()), pauser, proxy)
              case Success(s) => r.Success? && State() == s
              case Failure(e) => r == Failure(e) && State() == old(State())
    {
      if proxy.Some? && !env.valid(proxy.value) {
        return Failure(InvalidAddress);
      }
      var before := this.proxy;
      this.proxy := proxy;
      r := po.Nominate(env.valid, pauser);
      if r.Failure? {
        this.proxy := before;
      }
    }

    method ReceiveNft(
        env: Env, contract: Addr, tokenId: TokenId, sender: Addr, msg: Option<OutgoingMsg>,
        nftInfo: Option<Option<string>>) returns (r: Result<SendPacket>)
      modifies this
      ensures r == Answer(SendNft(env, old(State()), contract, tokenId, sender, msg, nftInfo))
      ensures r.Success? ==> State() == SendNft(env, old(State()), contract, tokenId, sender, msg, nftInfo).value.0
      ensures HasRecord(old(State()), contract) ==> (r.Success? <==> env.valid(sender) && msg.Some? && nftInfo.Some?)
      ensures HasRecord(old(State()), contract) && r.Success? ==>
                IsSend(
                  old(State()), contract, tokenId, sender, msg.value, nftInfo.value, State(), Response([r.value], []))
    {
      if !env.valid(sender) {
        return Failure(InvalidAddress);
      }
      if msg.None? {
        return Failure(ParseFailed);
      }
      var cls;
      if contract in nftToClass {
        if nftToClass[contract] !in classes {
          return Failure(NotFound);
        }
        cls := classes[nftToClass[contract]];
      } else {
        cls := Class(contract, None, None);
        nftToClass := nftToClass[contract := cls.id];
        classToNft := classToNft[cls.id := contract];
        classes := classes[cls.id := cls];
      }
      if nftInfo.None? {
        return Failure(QueryFailed);
      }
      var key := Key(cls.id, tokenId);
      var data := OutgoingData(cls, tokenId, nftInfo.value, FlatLookup(metadata, key), sender, msg.value.receiver);
      outgoing := outgoing[key := msg.value.channel];
      if HasRecord(old(State()), contract) {
        SendNftIs(env, old(State()), contract, tokenId, sender, msg, nftInfo);
      }
      return Success(SendPacket(msg.value.channel, data));
    }

    method MintVouchers(env: Env, classId: ClassId, tokens: seq<Token>, receiver: Addr) returns (r: Result<seq<NftMsg>>)
      modifies this
      ensures r == Answer(CallbackMint(env, old(State()), classId, tokens, receiver))
      ensures r.Success? ==> State() == CallbackMint(env, old(State()), classId, tokens, receiver).value.0
    {
      if !env.valid(receiver) {
        return Failure(InvalidAddress);
      }
      if classId !in classToNft {
        return Failure(NotFound);
      }
      var contract := classToNft[classId];
      var messages := [];
      for i := 0 to |tokens|
        invariant State() == old(State()).(metadata := SaveMetadata(old(metadata), classId, tokens[..i]))
        invariant messages == Mints(contract, tokens[..i], receiver)
      {
        assert tokens[..i + 1][..i] == tokens[..i];
        metadata := metadata[Key(classId, tokens[i].id) := tokens[i].data];
        messages := messages + [Mint(contract, tokens[i].id, tokens[i].uri, receiver)];
      }
      assert tokens[..|tokens|] == tokens;
      return Success(messages);
    }

    method CreateVouchers(
        env: Env, receiver: Addr, create: VoucherCreation, newAddr: Addr)
      returns (r: Result<seq<NftMsg>>)
      modifies this
      ensures r == Answer(CallbackCreate(env, old(State()), receiver, create, newAddr))
      ensures r.Success? ==> State() == CallbackCreate(env, old(State()), receiver, create, newAddr).value.0
    {
      var id := create.cls.id;
      var known := id in classToNft;
      classes := classes[id := create.cls];
      if known {
        r := MintVouchers(env, id, create.tokens, receiver);
      } else {
        var registered := RegisterCollection(env, newAddr, id);
        if registered.Failure? {
          return Failure(registered.error);
        }
        r := MintVouchers(env, id, create.tokens, receiver);
        if r.Success? {
          r := Success([NftMsg.Instantiate(newAddr, id, env.self)] + r.value);
        }
      }
    }

    method RunCallback(env: Env, cb: Callback, newAddr: Addr) returns (r: Result<seq<NftMsg>>)
      modifies this
      ensures r == Answer(Handlers.RunCallback(env, old(State()), cb, newAddr))
      ensures r.Success? ==> State() == Handlers.RunCallback(env, old(State()), cb, newAddr).value.0
      decreases cb
    {
      match cb {
        case CreateVouchers(receiver, create) =>
          r := CreateVouchers(env, receiver, create, newAddr);
        case RedeemVouchers(receiver, redeem) =>
          if redeem.cls.id !in classToNft {
            return Failure(NotFound);
          }
          if !env.valid(receiver) {
            return Failure(InvalidAddress);
          }
          r := Success(Transfers(classToNft[redeem.cls.id], redeem.tokenIds, receiver));
        case MintVouchers(classId, tokens, receiver) =>
          r := MintVouchers(env, classId, tokens, receiver);
        case Conjunction(operands) =>
          r := RunCallbacks(env, operands, newAddr);
      }
    }

    method RunCallbacks(env: Env, cbs: seq<Callback>, newAddr: Addr) returns (r: Result<seq<NftMsg>>)
      modifies this
      ensures r == Answer(RunAll(env, old(State()), cbs, newAddr))
      ensures r.Success? ==> State() == RunAll(env, old(State()), cbs, newAddr).value.0
      decreases cbs
    {
      if cbs == [] {
        return Success([]);
      }
      r := RunCallback(env, cbs[0], newAddr);
      if r.Success? {
        var first := r.value;
        r := RunCallbacks(env, cbs[1..], newAddr);
        if r.Success? {
          r := Success(first + r.value);
        }
      }
    }

    /** `execute`, with the rollback that follows an error. */
    method Execute(env: Env, sender: Addr, msg: ExecuteMsg, w: World) returns (r: Result<Response>)
      modifies this, po
      ensures r == Answer(Handlers.Execute(env, old(State()), sender, msg, w))
      ensures State() ==
                if r.Success? then Handlers.Execute(env, old(State()), sender, msg, w).value.0 else old(State())
      ensures msg.Pause? ==> (r.Success? <==> !old(po.paused) && old(po.pauser) == Some(sender))
      ensures msg.Pause? && r.Success? ==> State() == old(State()).(po := PauseState(None, true))
    {
      PauseIs(env, State(), sender, w);
      var before := Snapshot();
      r := Dispatch(env, sender, msg, w);
      if r.Failure? {
        Restore(before);
      }
    }

    method Dispatch(env: Env, sender: Addr, msg: ExecuteMsg, w: World) returns (r: Result<Response>)
      modifies this, po
      ensures r == Answer(Handlers.Execute(env, old(State()), sender, msg, w))
      ensures r.Success? ==> State() == Handlers.Execute(env, old(State()), sender, msg, w).value.0
    {
      var running := po.ErrorIfPaused();
      if running.Failure? {
        return Failure(running.error);
      }
      match msg {
        case ReceiveNft(tokenId, nftSender, out) =>
          if proxy.Some? {
            return Failure(Unauthorized);
          }
          var sent := ReceiveNft(env, sender, tokenId, nftSender, out, w.nftInfo);
          r := if sent.Success? then Success(Response([sent.value], [])) else Failure(sent.error);
        case ReceiveProxyNft(eyeball, tokenId, nftSender, out) =>
          if proxy.None? || proxy.value != sender {
            return Failure(Unauthorized);
          }
          if !env.valid(eyeball) {
            return Failure(InvalidAddress);
          }
          var sent := ReceiveNft(env, eyeball, tokenId, nftSender, out, w.nftInfo);
          r := if sent.Success? then Success(Response([sent.value], [])) else Failure(sent.error);
        case Pause =>
          var paused := po.PauseBy(sender);
          r := if paused.Success? then Success(Response([], [])) else Failure(paused.error);
        case SelfCall(callback) =>
          if sender != env.self {
            return Failure(Unauthorized);
          }
          var run := RunCallback(env, callback, w.newAddr);
          r := if run.Success? then Success(Response([], run.value)) else Failure(run.error);
      }
    }

    // ---------- ibc.rs and ibc_packet_receive.rs ----------

    /** `reply` to an instantiated cw721. */
    method RegisterCollection(env: Env, contract: Addr, name: string) returns (r: Result<()>)
      modifies this
      ensures r.Success? <==> env.valid(contract)
      ensures r.Success? ==> State() == old(State()).(classToNft := classToNft, nftToClass := nftToClass)
      ensures r.Success? ==>
                && classToNft == old(classToNft)[name := contract]
                && nftToClass == old(nftToClass)[contract := name]
      ensures r.Failure? ==> r.error == InvalidAddress && unchanged(this)
    {
      if !env.valid(contract) {
        return Failure(InvalidAddress);
      }
      classToNft := classToNft[name := contract];
      nftToClass := nftToClass[contract := name];
      return Success(());
    }

    /** `reply` to an instantiated proxy. */
    method RegisterProxy(env: Env, contract: Addr) returns (r: Result<()>)
      modifies this
      ensures r.Success? <==> env.valid(contract)
      ensures State() == if r.Success? then old(State()).(proxy := Some(contract)) else old(State())
      ensures r.Failure? ==> r.error == InvalidAddress
    {
      if !env.valid(contract) {
        return Failure(InvalidAddress);
      }
      proxy := Some(contract);
      return Success(());
    }

    /** `receive_ibc_packet`: decides token by token, updating the maps as it goes. */
    method ReceivePacket(env: Env, packet: Packet) returns (r: Result<Callback>)
      modifies this
      ensures r == Answer(ReceiveIbcPacket(env, old(State()), packet))
      ensures State() == if r.Success? then ReceiveIbcPacket(env, old(State()), packet).value.0 else old(State())
      ensures r.Success? <==>
                && !old(po.paused) && packet.data.Some? && WellFormed(packet.data.value)
                && env.valid(packet.data.value.receiver)
    {
      var running := po.ErrorIfPaused();
      if running.Failure? {
        return Failure(running.error);
      }
      if packet.data.None? {
        return Failure(ParseFailed);
      }
      var d := packet.data.value;
      var invalid := Validate(d);
      ValidateIs(d);
      if invalid.Some? {
        return Failure(invalid.value);
      }
      if !env.valid(d.receiver) {
        return Failure(InvalidAddress);
      }
      var actions := SelectActions(packet, d);
      var aggregate := ActionAggregator(d.classUri, d.classData, None, None).AddAll(actions);
      return Success(IntoSubmessage(aggregate, d.receiver));
    }

    method SelectActions(packet: Packet, d: PacketData) returns (actions: seq<Action>)
      requires packet.data == Some(d)
      modifies this
      ensures actions == Selection(old(State()), packet).actions
      ensures var p := Selection(old(State()), packet);
              State() == old(State()).(outgoing := p.outgoing, incoming := p.incoming)
    {
      var withUris := new ZipOptional(d.tokenIds, d.tokenUris);
      var pairs := withUris.Drain();
      var withData := new ZipOptional(pairs, d.tokenData);
      assert AreTokens(withData.Remaining(), Tokens(d));
      actions := SelectEach(packet, d, withData, Tokens(d));
    }

    method SelectEach(
        packet: Packet, d: PacketData, items: ZipOptional<(TokenId, Option<string>), Binary>, ghost tokens: seq<Token>)
      returns (actions: seq<Action>)
      requires packet.data == Some(d) && AreTokens(items.Remaining(), tokens)
      modifies this, items
      ensures Progress(outgoing, incoming, actions)
           == Select(PacketRoute(packet), Progress(old(outgoing), old(incoming), []), tokens)
      ensures State() == old(State()).(outgoing := outgoing, incoming := incoming)
    {
      ghost var route, start, done := PacketRoute(packet), Progress(outgoing, incoming, []), 0;
      actions := [];
      var next := items.Next();
      while next.Some?
        invariant done <= |tokens| && (next.None? ==> done == |tokens|)
        invariant next.Some? ==> AreTokens([next.value] + items.Remaining(), tokens[done..])
        invariant Progress(outgoing, incoming, actions) == Select(route, start, tokens[..done])
        invariant State() == old(State()).(outgoing := outgoing, incoming := incoming)
        decreases |tokens| - done
      {
        ghost var rest := items.Remaining();
        FirstToken(next.value, rest, tokens, done);
        actions := SelectToken(packet, d, AsToken(next.value), actions);
        SelectNext(route, start, tokens, done);
        next := items.Next();
        done := done + 1;
      }
      assert tokens[..done] == tokens;
    }

    /** The decision for one token. */
    method SelectToken(packet: Packet, d: PacketData, t: Token, before: seq<Action>) returns (actions: seq<Action>)
      requires packet.data == Some(d)
      modifies this
      ensures var local := TryPopSourcePrefix(packet.src, d.classId);
              if && local.Some? && Key(local.value, t.id) in old(outgoing)
                 && old(outgoing)[Key(local.value, t.id)] == packet.dest.channel
              then
                && actions == before + [Redemption(local.value, t.id)]
                && State() == old(State()).(outgoing := old(outgoing) - {Key(local.value, t.id)})
              else
                var prefixed := EndpointPrefix(packet.dest) + d.classId;
                && actions == before + [Creation(prefixed, t)]
                && State() == old(State()).(incoming := old(incoming)[Key(prefixed, t.id) := packet.dest.channel])
      ensures Progress(outgoing, incoming, actions) ==
                SelectOne(PacketRoute(packet), Progress(old(outgoing), old(incoming), before), t)
    {
      var local := TryPopSourcePrefix(packet.src, d.classId);
      if local.Some? {
        var key := Key(local.value, t.id);
        if key in outgoing && outgoing[key] == packet.dest.channel {
          outgoing := outgoing - {key};
          return before + [Redemption(local.value, t.id)];
        }
      }
      var prefixed := EndpointPrefix(packet.dest) + d.classId;
      incoming := incoming[Key(prefixed, t.id) := packet.dest.channel];
      return before + [Creation(prefixed, t)];
    }

    method PacketFail(env: Env, packet: Packet) returns (r: Result<seq<NftMsg>>)
      modifies this
      ensures r == Answer(HandlePacketFail(env, old(State()), packet))
      ensures State() == if r.Success? then HandlePacketFail(env, old(State()), packet).value.0 else old(State())
    {
      if packet.data.None? {
        return Failure(ParseFailed);
      }
      var d := packet.data.value;
      if d.classId !in classToNft {
        return Failure(NotFound);
      }
      if !env.valid(d.sender) {
        return Failure(InvalidAddress);
      }
      var contract := classToNft[d.classId];
      var messages := [];
      for i := 0 to |d.tokenIds|
        invariant State() == old(State()).(outgoing := RemoveKeys(old(outgoing), d.classId, d.tokenIds[..i]))
        invariant messages == Transfers(contract, d.tokenIds[..i], d.sender)
      {
        assert d.tokenIds[..i + 1][..i] == d.tokenIds[..i];
        outgoing := outgoing - {Key(d.classId, d.tokenIds[i])};
        messages := messages + [Transfer(contract, d.tokenIds[i], d.sender)];
      }
      assert d.tokenIds[..|d.tokenIds|] == d.tokenIds;
      return Success(messages);
    }

    method PacketAck(env: Env, packet: Packet, ack: Option<Ack>) returns (r: Result<seq<NftMsg>>)
      modifies this
      ensures r == Answer(IbcPacketAck(env, old(State()), packet, ack))
      ensures State() == if r.Success? then IbcPacketAck(env, old(State()), packet, ack).value.0 else old(State())
      ensures ack != Some(AckSuccess) ==>
                && r == Answer(HandlePacketFail(env, old(State()), packet))
                && (r.Success? ==> State() == HandlePacketFail(env, old(State()), packet).value.0)
    {
      if ack.None? || ack.value.AckFail? {
        r := PacketFail(env, packet);
        return;
      }
      if packet.data.None? {
        return Failure(ParseFailed);
      }
      var d := packet.data.value;
      if d.classId !in classToNft {
        return Failure(NotFound);
      }
      var contract := classToNft[d.classId];
      var messages := [];
      ghost var start := BurnProgress(incoming, metadata, []);
      for i := 0 to |d.tokenIds|
        invariant State() == old(State()).(incoming := incoming, metadata := metadata)
        invariant BurnProgress(incoming, metadata, messages) ==
                    BurnAll(start, d.classId, contract, packet.src.channel, d.tokenIds[..i])
      {
        assert d.tokenIds[..i + 1][..i] == d.tokenIds[..i];
        var key := Key(d.classId, d.tokenIds[i]);
        if key in incoming && incoming[key] == packet.src.channel {
          incoming := incoming - {key};
          metadata := metadata - {key};
          messages := messages + [Burn(contract, d.tokenIds[i])];
        }
      }
      assert d.tokenIds[..|d.tokenIds|] == d.tokenIds;
      return Success(messages);
    }
  }
}
