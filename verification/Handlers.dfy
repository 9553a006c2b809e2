/**
 What each entry point of the bridge does to its storage, and what it sends out. A `Failure`
 reverts the transaction, except in `IbcPacketReceive`, which turns it into an error ack.
 */
module Handlers {
  import opened Types
  import opened Receive
  import opened PauseOnce

  datatype SendPacket = SendPacket(channel: ChannelId, data: PacketData)

  /** Messages and packets that leave with a response. */
  datatype Response = Response(packets: seq<SendPacket>, messages: seq<NftMsg>)

  datatype ExecuteMsg =
    | ReceiveNft(tokenId: TokenId, sender: Addr, msg: Option<OutgoingMsg>)
    | ReceiveProxyNft(eyeball: Addr, tokenId: TokenId, sender: Addr, msg: Option<OutgoingMsg>)
    | Pause
    | SelfCall(callback: Callback)

  /**
   What a handler learns from the chain while it runs: the cw721's answer to `NftInfo` (`None`
   when the query fails) and the address that an instantiated contract gets.
   */
  datatype World = World(nftInfo: Option<Option<string>>, newAddr: Addr)

  // ---------- contract.rs ----------

  function Instantiated(env: Env, pauser: Option<Addr>): Result<Storage> {
    match SetPauser(env.valid, pauser)
    case Success(po) => Success(Storage(None, po, map[], map[], map[], map[], map[], map[]))
    case Failure(e) => Failure(e)
  }

  function Migrated(env: Env, s: Storage, pauser: Option<Addr>, proxy: Option<Addr>): Result<Storage> {
    if proxy.Some? && !env.valid(proxy.value) then Failure(InvalidAddress)
    else
      match SetPauser(env.valid, pauser)
      case Success(po) => Success(s.(proxy := proxy, po := po))
      case Failure(e) => Failure(e)
  }

  /** A contract seen for the first time becomes the native class named after it. */
  function RegisterNative(s: Storage, contract: Addr): Storage {
    if contract in s.nftToClass then s
    else s.(nftToClass := s.nftToClass[contract := contract],
            classToNft := s.classToNft[contract := contract],
            classes := s.classes[contract := Class(contract, None, None)])
  }

  function OutgoingData(
      cls: Class, tokenId: TokenId, uri: Option<string>, data: Option<Binary>, sender: Addr, receiver: Addr): PacketData
  {
    PacketData(cls.id, cls.uri, cls.data, [tokenId],
               if uri.Some? then Some([uri.value]) else None,
               if data.Some? then Some([data.value]) else None,
               sender, receiver)
  }

  function SendNft(
      env: Env, s: Storage, contract: Addr, tokenId: TokenId, sender: Addr, msg: Option<OutgoingMsg>,
      nftInfo: Option<Option<string>>): Result<(Storage, SendPacket)>
  {
    if !env.valid(sender) then Failure(InvalidAddress)
    else if msg.None? then Failure(ParseFailed)
    else
      var s1 := RegisterNative(s, contract);
      if s1.nftToClass[contract] !in s1.classes then Failure(NotFound)
      else if nftInfo.None? then Failure(QueryFailed)
      else
        var cls := s1.classes[s1.nftToClass[contract]];
        var key := Key(cls.id, tokenId);
        var data := OutgoingData(cls, tokenId, nftInfo.value, FlatLookup(s1.metadata, key), sender, msg.value.receiver);
        Success((s1.(outgoing := s1.outgoing[key := msg.value.channel]), SendPacket(msg.value.channel, data)))
  }

  function Execute(env: Env, s: Storage, sender: Addr, msg: ExecuteMsg, w: World): Result<(Storage, Response)> {
    if s.po.paused then Failure(Paused)
    else
      match msg
      case ReceiveNft(tokenId, nftSender, out) =>
        if s.proxy.Some? then Failure(Unauthorized)
        else Sent(SendNft(env, s, sender, tokenId, nftSender, out, w.nftInfo))
      case ReceiveProxyNft(eyeball, tokenId, nftSender, out) =>
        if s.proxy != Some(sender) then Failure(Unauthorized)
        else if !env.valid(eyeball) then Failure(InvalidAddress)
        else Sent(SendNft(env, s, eyeball, tokenId, nftSender, out, w.nftInfo))
      case Pause =>
        (match TryPause(s.po, sender)
         case Success(po) => Success((s.(po := po), Response([], [])))
         case Failure(e) => Failure(e))
      case SelfCall(callback) =>
        if sender != env.self then Failure(Unauthorized)
        else
          match RunCallback(env, s, callback, w.newAddr)
          case Success((s1, messages)) => Success((s1, Response([], messages)))
          case Failure(e) => Failure(e)
  }

  function Sent(r: Result<(Storage, SendPacket)>): Result<(Storage, Response)> {
    match r
    case Success((s, p)) => Success((s, Response([p], [])))
    case Failure(e) => Failure(e)
  }

  function SaveMetadata(
      metadata: map<Key, Option<Binary>>, classId: ClassId, ts: seq<Token>): map<Key, Option<Binary>> {
    if ts == [] then metadata
    else
      var t := ts[|ts| - 1];
      SaveMetadata(metadata, classId, ts[..|ts| - 1])[Key(classId, t.id) := t.data]
  }

  function Mints(contract: Addr, ts: seq<Token>, owner: Addr): seq<NftMsg> {
    if ts == []
    then []
    else Mints(contract, ts[..|ts| - 1], owner) + [Mint(contract, ts[|ts| - 1].id, ts[|ts| - 1].uri, owner)]
  }

  function Transfers(contract: Addr, ids: seq<TokenId>, recipient: Addr): seq<NftMsg> {
    if ids == []
    then []
    else Transfers(contract, ids[..|ids| - 1], recipient) + [Transfer(contract, ids[|ids| - 1], recipient)]
  }

  function CallbackMint(
      env: Env, s: Storage, classId: ClassId, ts: seq<Token>, receiver: Addr): Result<(Storage, seq<NftMsg>)> {
    if !env.valid(receiver) then Failure(InvalidAddress)
    else if classId !in s.classToNft then Failure(NotFound)
    else Success((s.(metadata := SaveMetadata(s.metadata, classId, ts)), Mints(s.classToNft[classId], ts, receiver)))
  }

  /** The collection is instantiated, and `ReplyInstantiated` runs, before the mint message does. */
  function CallbackCreate(
      env: Env, s: Storage, receiver: Addr, create: VoucherCreation, newAddr: Addr): Result<(Storage, seq<NftMsg>)> {
    var id := create.cls.id;
    var s1 := s.(classes := s.classes[id := create.cls]);
    if id in s.classToNft then CallbackMint(env, s1, id, create.tokens, receiver)
    else
      match ReplyInstantiated(env, s1, newAddr, id)
      case Failure(e) => Failure(e)
      case Success(s2) =>
        match CallbackMint(env, s2, id, create.tokens, receiver)
        case Failure(e) => Failure(e)
        case Success((s3, mints)) => Success((s3, [Instantiate(newAddr, id, env.self)] + mints))
  }

  function CallbackRedeem(
      env: Env, s: Storage, receiver: Addr, redeem: VoucherRedemption): Result<(Storage, seq<NftMsg>)> {
    if redeem.cls.id !in s.classToNft then Failure(NotFound)
    else if !env.valid(receiver) then Failure(InvalidAddress)
    else Success((s, Transfers(s.classToNft[redeem.cls.id], redeem.tokenIds, receiver)))
  }

  function RunCallback(env: Env, s: Storage, cb: Callback, newAddr: Addr): Result<(Storage, seq<NftMsg>)>
    decreases cb
  {
    match cb
    case CreateVouchers(receiver, create) => CallbackCreate(env, s, receiver, create, newAddr)
    case RedeemVouchers(receiver, redeem) => CallbackRedeem(env, s, receiver, redeem)
    case MintVouchers(classId, tokens, receiver) => CallbackMint(env, s, classId, tokens, receiver)
    case Conjunction(operands) => RunAll(env, s, operands, newAddr)
  }

  function RunAll(env: Env, s: Storage, cbs: seq<Callback>, newAddr: Addr): Result<(Storage, seq<NftMsg>)>
    decreases cbs
  {
    if cbs == [] then Success((s, []))
    else
      match RunCallback(env, s, cbs[0], newAddr)
      case Failure(e) => Failure(e)
      case Success((s1, m1)) =>
        match RunAll(env, s1, cbs[1..], newAddr)
        case Failure(e) => Failure(e)
        case Success((s2, m2)) => Success((s2, m1 + m2))
  }

  // ---------- ibc.rs and ibc_packet_receive.rs ----------

  /** `reply` to an instantiated cw721: its name is the class ID. */
  function ReplyInstantiated(env: Env, s: Storage, contract: Addr, name: string): Result<Storage> {
    if !env.valid(contract) then Failure(InvalidAddress)
    else Success(s.(classToNft := s.classToNft[name := contract], nftToClass := s.nftToClass[contract := name]))
  }

  /** `reply` to an instantiated proxy. */
  function ReplyProxy(env: Env, s: Storage, contract: Addr): Result<Storage> {
    if !env.valid(contract) then Failure(InvalidAddress) else Success(s.(proxy := Some(contract)))
  }

  function PacketRoute(packet: Packet): Route
    requires packet.data.Some?
  {
    RouteOf(packet.src, packet.dest, packet.data.value.classId)
  }

  function Selection(s: Storage, packet: Packet): Progress
    requires packet.data.Some?
  {
    Select(PacketRoute(packet), Progress(s.outgoing, s.incoming, []), Tokens(packet.data.value))
  }

  function PacketError(env: Env, s: Storage, packet: Packet): Option<Error> {
    if s.po.paused then Some(Paused)
    else if packet.data.None? then Some(ParseFailed)
    else if Validate(packet.data.value).Some? then Validate(packet.data.value)
    else if !env.valid(packet.data.value.receiver) then Some(InvalidAddress)
    else None
  }

  /** The handler proper: what it saves stays saved even when the submessage it asks for fails. */
  function ReceiveIbcPacket(env: Env, s: Storage, packet: Packet): Result<(Storage, Callback)> {
    if PacketError(env, s, packet).Some? then Failure(PacketError(env, s, packet).value)
    else
      var d := packet.data.value;
      var p := Selection(s, packet);
      var sub := IntoSubmessage(ActionAggregator(d.classUri, d.classData, None, None).AddAll(p.actions), d.receiver);
      Success((s.(outgoing := p.outgoing, incoming := p.incoming), sub))
  }

  /** `try_get_ack_error`: what does not parse is a failure. */
  function AckFailed(ack: Option<Ack>): bool {
    ack != Some(AckSuccess)
  }

  datatype BurnProgress = BurnProgress(
    incoming: map<Key, ChannelId>, metadata: map<Key, Option<Binary>>, messages: seq<NftMsg>)

  function BurnOne(p: BurnProgress, classId: ClassId, contract: Addr, channel: ChannelId, t: TokenId): BurnProgress {
    var key := Key(classId, t);
    if key in p.incoming && p.incoming[key] == channel then
      BurnProgress(p.incoming - {key}, p.metadata - {key}, p.messages + [Burn(contract, t)])
    else p
  }

  function BurnAll(
      p: BurnProgress, classId: ClassId, contract: Addr, channel: ChannelId, ids: seq<TokenId>): BurnProgress {
    if ids == [] then p
    else BurnOne(BurnAll(p, classId, contract, channel, ids[..|ids| - 1]), classId, contract, channel, ids[|ids| - 1])
  }

  function RemoveKeys(outgoing: map<Key, ChannelId>, classId: ClassId, ids: seq<TokenId>): map<Key, ChannelId> {
    if ids == [] then outgoing else RemoveKeys(outgoing, classId, ids[..|ids| - 1]) - {Key(classId, ids[|ids| - 1])}
  }

  /** An error ack or a timeout: give the tokens back to their sender. */
  function HandlePacketFail(env: Env, s: Storage, packet: Packet): Result<(Storage, seq<NftMsg>)> {
    if packet.data.None? then Failure(ParseFailed)
    else
      var d := packet.data.value;
      if d.classId !in s.classToNft then Failure(NotFound)
      else if !env.valid(d.sender) then Failure(InvalidAddress)
      else Success((s.(outgoing := RemoveKeys(s.outgoing, d.classId, d.tokenIds)),
                    Transfers(s.classToNft[d.classId], d.tokenIds, d.sender)))
  }

  function IbcPacketAck(env: Env, s: Storage, packet: Packet, ack: Option<Ack>): Result<(Storage, seq<NftMsg>)> {
    if AckFailed(ack) then HandlePacketFail(env, s, packet)
    else if packet.data.None? then Failure(ParseFailed)
    else
      var d := packet.data.value;
      if d.classId !in s.classToNft then Failure(NotFound)
      else
        var p := BurnAll(
          BurnProgress(s.incoming, s.metadata, []), d.classId, s.classToNft[d.classId], packet.src.channel, d.tokenIds);
        Success((s.(incoming := p.incoming, metadata := p.metadata), p.messages))
  }
}
