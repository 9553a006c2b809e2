/**
 Runs of one bridge: any callers, any cw721 behaviour, any packet contents, in any order. Only
 committed transactions appear; `accepted` says whether the cw721s took the messages they were sent.
 */
module Runs {
  import opened Types
  import opened Receive
  import opened Handlers
  import opened Invariants
  import opened EntryPoints

  datatype Event =
    | Call(sender: Addr, msg: ExecuteMsg, world: World)
    | Migrate(pauser: Option<Addr>, proxy: Option<Addr>)
    | ProxyMade(contract: Addr)
    | PacketIn(packet: Packet, newAddr: Addr, accepted: bool)
    | AckIn(packet: Packet, ack: Option<Ack>, accepted: bool)
    | TimeoutIn(packet: Packet, accepted: bool)

  ghost predicate ValidEnv(env: Env) {
    IsAddress(env.self) && forall a | env.valid(a) :: IsAddress(a)
  }

  /** Self-calls happen only inside a receive; packets arrive on our port; new contracts are new. */
  predicate CanHappen(env: Env, s: Storage, e: Event) {
    match e
    case Call(sender, _, _) => IsAddress(sender) && sender != env.self
    case PacketIn(packet, newAddr, _) => packet.dest.port == env.port && IsAddress(newAddr) && newAddr !in s.nftToClass
    case _ => true
  }

  function Committed(s: Storage, r: Result<(Storage, seq<NftMsg>)>, accepted: bool): Storage {
    if r.Success? && accepted then r.value.0 else s
  }

  function Step(env: Env, s: Storage, e: Event): Storage {
    if !CanHappen(env, s, e) then s
    else
      match e
      case Call(sender, msg, world) =>
        var r := Execute(env, s, sender, msg, world);
        if r.Success? then r.value.0 else s
      case Migrate(pauser, proxy) =>
        var r := Migrated(env, s, pauser, proxy);
        if r.Success? then r.value else s
      case ProxyMade(contract) =>
        var r := ReplyProxy(env, s, contract);
        if r.Success? then r.value else s
      case PacketIn(packet, newAddr, accepted) =>
        var r := ReceiveIbcPacket(env, s, packet);
        if r.Failure? then s
        else Committed(r.value.0, RunCallback(env, r.value.0, r.value.1, newAddr), accepted)
      case AckIn(packet, ack, accepted) => Committed(s, IbcPacketAck(env, s, packet, ack), accepted)
      case TimeoutIn(packet, accepted) => Committed(s, HandlePacketFail(env, s, packet), accepted)
  }

  function Run(env: Env, s: Storage, es: seq<Event>): Storage {
    if es == [] then s else Step(env, Run(env, s, es[..|es| - 1]), es[|es| - 1])
  }

  lemma StepKeepsValid(env: Env, s: Storage, e: Event)
    requires ValidEnv(env) && ValidStorage(env, s)
    ensures ValidStorage(env, Step(env, s, e))
  {
    if CanHappen(env, s, e) {
      match e {
        case Call(sender, msg, world) =>
          if Execute(env, s, sender, msg, world).Success? {
            CallKeepsValid(env, s, sender, msg, world);
          }
        case Migrate(_, _) =>
        case ProxyMade(_) =>
        case PacketIn(packet, newAddr, _) =>
          if ReceiveIbcPacket(env, s, packet).Success? {
            ReceiveKeepsValid(env, s, packet, newAddr);
          }
        case AckIn(packet, ack, _) =>
          if IbcPacketAck(env, s, packet, ack).Success? {
            AckKeepsValid(env, s, packet, ack);
          }
        case TimeoutIn(packet, _) =>
          if HandlePacketFail(env, s, packet).Success? {
            FailKeepsValid(env, s, packet);
          }
      }
    }
  }

  lemma CallKeepsValid(env: Env, s: Storage, sender: Addr, msg: ExecuteMsg, world: World)
    requires ValidEnv(env) && ValidStorage(env, s) && IsAddress(sender) && sender != env.self
    requires Execute(env, s, sender, msg, world).Success?
    ensures ValidStorage(env, Execute(env, s, sender, msg, world).value.0)
  {
    match msg {
      case ReceiveNft(tokenId, nftSender, out) =>
        SendKeepsValid(env, s, sender, tokenId, nftSender, out, world.nftInfo);
      case ReceiveProxyNft(eyeball, tokenId, nftSender, out) =>
        SendKeepsValid(env, s, eyeball, tokenId, nftSender, out, world.nftInfo);
      case Pause =>
      case SelfCall(_) =>
    }
  }

  /** Inverse class maps, recorded classes, no dangling keys, INCOMING true to class IDs: in every reachable state. */
  lemma {:induction false} RunKeepsValid(env: Env, pauser: Option<Addr>, es: seq<Event>)
    requires ValidEnv(env) && Instantiated(env, pauser).Success?
    ensures ValidStorage(env, Run(env, Instantiated(env, pauser).value, es))
  {
    if es != [] {
      RunKeepsValid(env, pauser, es[..|es| - 1]);
      StepKeepsValid(env, Run(env, Instantiated(env, pauser).value, es[..|es| - 1]), es[|es| - 1]);
    }
  }

  /** A class keeps the contract it was first mapped to. */
  predicate KeepsMappings(s: Storage, s': Storage) {
    && (forall x | x in s.classToNft :: x in s'.classToNft && s'.classToNft[x] == s.classToNft[x])
    && (forall a | a in s.nftToClass :: a in s'.nftToClass && s'.nftToClass[a] == s.nftToClass[a])
  }

  lemma RegisterKeepsMappings(env: Env, s: Storage, contract: Addr)
    requires ValidStorage(env, s) && IsAddress(contract)
    ensures KeepsMappings(s, RegisterNative(s, contract))
  {
    if contract !in s.nftToClass && contract in s.classToNft {
      NativeIsItself(env, s, contract);
    }
  }

  lemma SendKeepsMappings(
      env: Env, s: Storage, contract: Addr, tokenId: TokenId, sender: Addr,
      msg: Option<OutgoingMsg>, info: Option<Option<string>>)
    requires ValidStorage(env, s) && IsAddress(contract)
    requires SendNft(env, s, contract, tokenId, sender, msg, info).Success?
    ensures KeepsMappings(s, SendNft(env, s, contract, tokenId, sender, msg, info).value.0)
  {
    RegisterKeepsMappings(env, s, contract);
  }

  lemma CallKeepsMappings(env: Env, s: Storage, sender: Addr, msg: ExecuteMsg, world: World)
    requires ValidEnv(env) && ValidStorage(env, s) && IsAddress(sender) && sender != env.self
    requires Execute(env, s, sender, msg, world).Success?
    ensures KeepsMappings(s, Execute(env, s, sender, msg, world).value.0)
  {
    match msg {
      case ReceiveNft(tokenId, nftSender, out) =>
        SendKeepsMappings(env, s, sender, tokenId, nftSender, out, world.nftInfo);
      case ReceiveProxyNft(eyeball, tokenId, nftSender, out) =>
        SendKeepsMappings(env, s, eyeball, tokenId, nftSender, out, world.nftInfo);
      case Pause =>
      case SelfCall(_) =>
    }
  }

  lemma ReceiveKeepsMappings(env: Env, s: Storage, packet: Packet, newAddr: Addr)
    requires ReceiveIbcPacket(env, s, packet).Success? && newAddr !in s.nftToClass
    requires var (s1, cb) := ReceiveIbcPacket(env, s, packet).value; RunCallback(env, s1, cb, newAddr).Success?
    ensures var (s1, cb) := ReceiveIbcPacket(env, s, packet).value;
            KeepsMappings(s, RunCallback(env, s1, cb, newAddr).value.0)
  {
    var (s1, cb) := ReceiveIbcPacket(env, s, packet).value;
    SubmessageRuns(env, s, packet, s1, newAddr);
    var created := Created(Actions(s, packet));
    assert RunCallback(env, s1, cb, newAddr).value.0 == CreateSide(env, s1, packet, created, newAddr).value.0;
    if created != [] {
      var d := packet.data.value;
      CreateKeepsMappings(
        env, s1, d.receiver,
        VoucherCreation(Class(PacketRoute(packet).prefixed, d.classUri, d.classData), created), newAddr);
    }
  }

  lemma CreateKeepsMappings(env: Env, s: Storage, receiver: Addr, create: VoucherCreation, newAddr: Addr)
    requires CallbackCreate(env, s, receiver, create, newAddr).Success? && newAddr !in s.nftToClass
    ensures KeepsMappings(s, CallbackCreate(env, s, receiver, create, newAddr).value.0)
  {
  }

  lemma StepKeepsMappings(env: Env, s: Storage, e: Event)
    requires ValidEnv(env) && ValidStorage(env, s)
    ensures KeepsMappings(s, Step(env, s, e))
  {
    if CanHappen(env, s, e) {
      match e {
        case Call(sender, msg, world) =>
          if Execute(env, s, sender, msg, world).Success? {
            CallKeepsMappings(env, s, sender, msg, world);
          }
        case Migrate(_, _) =>
        case ProxyMade(_) =>
        case PacketIn(_, _, _) => PacketKeepsMappings(env, s, e);
        case AckIn(packet, ack, _) => SettlingKeepsMappings(env, s, packet, ack);
        case TimeoutIn(packet, _) => SettlingKeepsMappings(env, s, packet, None);
      }
    }
  }

  lemma SettlingKeepsMappings(env: Env, s: Storage, packet: Packet, ack: Option<Ack>)
    ensures HandlePacketFail(env, s, packet).Success? ==> KeepsMappings(s, HandlePacketFail(env, s, packet).value.0)
    ensures IbcPacketAck(env, s, packet, ack).Success? ==> KeepsMappings(s, IbcPacketAck(env, s, packet, ack).value.0)
  {
  }

  lemma PacketKeepsMappings(env: Env, s: Storage, e: Event)
    requires CanHappen(env, s, e) && e.PacketIn?
    ensures KeepsMappings(s, Step(env, s, e))
  {
    if ReceiveIbcPacket(env, s, e.packet).Success? {
      var (s1, cb) := ReceiveIbcPacket(env, s, e.packet).value;
      if RunCallback(env, s1, cb, e.newAddr).Success? {
        ReceiveKeepsMappings(env, s, e.packet, e.newAddr);
      }
    }
  }

  /**
   Once mapped, a class and a contract belong together for the rest of the run: no voucher contract becomes
   a native class.
   */
  lemma {:induction false} MappingsAreForever(env: Env, pauser: Option<Addr>, es: seq<Event>, more: seq<Event>)
    requires ValidEnv(env) && Instantiated(env, pauser).Success?
    ensures var s := Instantiated(env, pauser).value;
            KeepsMappings(Run(env, s, es), Run(env, s, es + more))
  {
    var s := Instantiated(env, pauser).value;
    if more == [] {
      assert es + more == es;
    } else {
      var init, e := more[..|more| - 1], more[|more| - 1];
      assert (es + more)[..|es + more| - 1] == es + init;
      MappingsAreForever(env, pauser, es, init);
      RunKeepsValid(env, pauser, es + init);
      StepKeepsMappings(env, Run(env, s, es + init), e);
    }
  }

  // ---------- Who may do what ----------

  /**
   A call goes through only for those it is meant for, and only the bridge itself, running a received
   packet, makes cw721 contracts move anything.
   */
  lemma CallsAreAuthorized(env: Env, s: Storage, sender: Addr, msg: ExecuteMsg, world: World)
    requires Execute(env, s, sender, msg, world).Success?
    ensures var (s', r) := Execute(env, s, sender, msg, world).value;
            && !s.po.paused
            && (r.packets != [] ==>
                  if s.proxy.Some? then msg.ReceiveProxyNft? && s.proxy.value == sender else msg.ReceiveNft?)
            && (sender != env.self ==> r.messages == [])
            && (s'.po != s.po && sender != env.self ==> s.po.pauser == Some(sender) && s'.po.paused)
            && (sender != env.self ==>
                  forall k | k in s'.outgoing :: EntryFrom(s.outgoing, r.packets, k, s'.outgoing[k]))
  {
    match msg {
      case ReceiveNft(tokenId, nftSender, out) =>
        SendChangesOutgoing(env, s, sender, tokenId, nftSender, out, world.nftInfo);
      case ReceiveProxyNft(eyeball, tokenId, nftSender, out) =>
        SendChangesOutgoing(env, s, eyeball, tokenId, nftSender, out, world.nftInfo);
      case _ =>
    }
  }

  predicate SentKey(packets: seq<SendPacket>, k: Key, channel: ChannelId) {
    exists p :: p in packets && p.channel == channel && p.data.classId == k.classId && p.data.tokenIds == [k.tokenId]
  }

  /** The entry was there before, or is of one of the packets. */
  predicate EntryFrom(outgoing: map<Key, ChannelId>, packets: seq<SendPacket>, k: Key, channel: ChannelId) {
    (k in outgoing && outgoing[k] == channel) || SentKey(packets, k, channel)
  }

  // ---------- Packets that were sent can be settled ----------

  /** What is known of a packet when it leaves. */
  predicate GoodPacket(env: Env, s: Storage, d: PacketData) {
    WellFormed(d) && d.classId in s.classToNft && env.valid(d.sender)
  }

  lemma SendIsGood(
      env: Env, s: Storage, contract: Addr, tokenId: TokenId, sender: Addr,
      msg: Option<OutgoingMsg>, info: Option<Option<string>>)
    requires ValidStorage(env, s) && IsAddress(contract)
    requires SendNft(env, s, contract, tokenId, sender, msg, info).Success?
    ensures var (s', p) := SendNft(env, s, contract, tokenId, sender, msg, info).value; GoodPacket(env, s', p.data)
  {
    SentPacketIsValid(env, s, contract, tokenId, sender, msg, info);
  }

  lemma CallSendsGood(env: Env, s: Storage, sender: Addr, msg: ExecuteMsg, world: World)
    requires ValidEnv(env) && ValidStorage(env, s) && IsAddress(sender) && sender != env.self
    requires Execute(env, s, sender, msg, world).Success?
    ensures var (s', r) := Execute(env, s, sender, msg, world).value;
            forall p | p in r.packets :: GoodPacket(env, s', p.data)
  {
    match msg {
      case ReceiveNft(tokenId, nftSender, out) => SendIsGood(env, s, sender, tokenId, nftSender, out, world.nftInfo);
      case ReceiveProxyNft(eyeball, tokenId, nftSender, out) =>
        SendIsGood(env, s, eyeball, tokenId, nftSender, out, world.nftInfo);
      case Pause =>
      case SelfCall(_) =>
    }
  }

  lemma GoodPacketsSettle(env: Env, s: Storage, d: PacketData, packet: Packet, ack: Option<Ack>)
    requires GoodPacket(env, s, d) && packet.data == Some(d)
    ensures HandlePacketFail(env, s, packet).Success? && IbcPacketAck(env, s, packet, ack).Success?
  {
  }

  lemma GoodPacketsStay(env: Env, s: Storage, s': Storage, d: PacketData)
    requires GoodPacket(env, s, d) && KeepsMappings(s, s')
    ensures GoodPacket(env, s', d)
  {
  }

  /** The event commits a call that sends `p`. */
  predicate SendsPacket(env: Env, s: Storage, e: Event, p: SendPacket) {
    && CanHappen(env, s, e) && e.Call? && Execute(env, s, e.sender, e.msg, e.world).Success?
    && p in Execute(env, s, e.sender, e.msg, e.world).value.1.packets
  }

  lemma SentIsGood(env: Env, s: Storage, e: Event, p: SendPacket)
    requires ValidEnv(env) && ValidStorage(env, s) && SendsPacket(env, s, e, p)
    ensures GoodPacket(env, Step(env, s, e), p.data)
  {
    CallSendsGood(env, s, e.sender, e.msg, e.world);
  }

  lemma RunOneMore(env: Env, s: Storage, es: seq<Event>, e: Event)
    ensures Run(env, s, es + [e]) == Step(env, Run(env, s, es), e)
  {
    assert (es + [e])[..|es + [e]| - 1] == es;
  }

  /**
   Every packet that any run sends passes its counterparty's validation, and at any later point of the
   run its ack, error ack or timeout finds everything it loads.
   */
  lemma SentPacketsSettle(
      env: Env, pauser: Option<Addr>, es: seq<Event>, e: Event, more: seq<Event>,
      p: SendPacket, packet: Packet, ack: Option<Ack>)
    requires ValidEnv(env) && Instantiated(env, pauser).Success?
    requires SendsPacket(env, Run(env, Instantiated(env, pauser).value, es), e, p) && packet.data == Some(p.data)
    ensures WellFormed(p.data)
    ensures var s' := Run(env, Instantiated(env, pauser).value, es + [e] + more);
            HandlePacketFail(env, s', packet).Success? && IbcPacketAck(env, s', packet, ack).Success?
  {
    var s0 := Instantiated(env, pauser).value;
    var later := Run(env, s0, es + [e] + more);
    RunKeepsValid(env, pauser, es);
    SentIsGood(env, Run(env, s0, es), e, p);
    RunOneMore(env, s0, es, e);
    MappingsAreForever(env, pauser, es + [e], more);
    GoodPacketsStay(env, Run(env, s0, es + [e]), later, p.data);
    GoodPacketsSettle(env, later, p.data, packet, ack);
  }

  // ---------- query_token_metadata ----------

  datatype QueryOutcome = Answer(token: Option<Token>) | QueryError | DebugAssertFailed

  function QueryTokenMetadata(s: Storage, k: Key, nftInfo: Option<Option<string>>): QueryOutcome {
    if k !in s.metadata then Answer(None)
    else if k.classId !in s.classToNft then DebugAssertFailed
    else if nftInfo.None? then QueryError
    else Answer(Some(Token(k.tokenId, nftInfo.value, s.metadata[k])))
  }

  /** The assertion in the metadata query cannot fail in a reachable state. */
  lemma DebugAssertHolds(env: Env, pauser: Option<Addr>, es: seq<Event>, k: Key, nftInfo: Option<Option<string>>)
    requires ValidEnv(env) && Instantiated(env, pauser).Success?
    ensures QueryTokenMetadata(Run(env, Instantiated(env, pauser).value, es), k, nftInfo) != DebugAssertFailed
  {
    RunKeepsValid(env, pauser, es);
  }

  // ---------- Redemptions never outnumber sends ----------

  /** The committed sends of `k` in one step. */
  function SendsIn(env: Env, s: Storage, e: Event, k: Key): nat {
    if !CanHappen(env, s, e) || !e.Call? then 0
    else
      var r := Execute(env, s, e.sender, e.msg, e.world);
      if r.Success? && |r.value.1.packets| == 1 && r.value.1.packets[0].data.classId == k.classId
         && r.value.1.packets[0].data.tokenIds == [k.tokenId] then 1 else 0
  }

  function Sends(env: Env, s: Storage, es: seq<Event>, k: Key): nat {
    if es == [] then 0
    else Sends(env, s, es[..|es| - 1], k) + SendsIn(env, Run(env, s, es[..|es| - 1]), es[|es| - 1], k)
  }

  /** The redemptions of `k` that one step decides on, duplicates in a packet included. */
  function RedemptionsIn(env: Env, s: Storage, e: Event, k: Key): nat {
    if CanHappen(env, s, e) && e.PacketIn? && ReceiveIbcPacket(env, s, e.packet).Success?
       && PacketRoute(e.packet).local == Some(k.classId)
    then multiset(Redeemed(Actions(s, e.packet)))[k.tokenId]
    else 0
  }

  function Redemptions(env: Env, s: Storage, es: seq<Event>, k: Key): nat {
    if es == [] then 0
    else Redemptions(env, s, es[..|es| - 1], k) + RedemptionsIn(env, Run(env, s, es[..|es| - 1]), es[|es| - 1], k)
  }

  predicate Occurs(ts: seq<Token>, t: TokenId) {
    exists i :: 0 <= i < |ts| && ts[i].id == t
  }

  lemma OccursSplit(ts: seq<Token>, t: TokenId)
    requires ts != []
    ensures Occurs(ts, t) <==> Occurs(ts[..|ts| - 1], t) || ts[|ts| - 1].id == t
  {
    var init := ts[..|ts| - 1];
    if i :| 0 <= i < |ts| && ts[i].id == t { assert i < |init| ==> init[i].id == t; }
    if i :| 0 <= i < |init| && init[i].id == t { assert ts[i].id == t; }
  }

  lemma LastAction(r: Route, outgoing: map<Key, ChannelId>, ts: seq<Token>)
    requires ts != []
    ensures ActionFor(r, outgoing, ts, |ts| - 1).Redemption? <==>
            Returns(r, outgoing, ts[|ts| - 1].id) && !Occurs(ts[..|ts| - 1], ts[|ts| - 1].id)
  {
    var n := |ts| - 1;
    if j :| 0 <= j < n && ts[j].id == ts[n].id { assert ts[..n][j].id == ts[n].id; }
    if j :| 0 <= j < n && ts[..n][j].id == ts[n].id { assert ts[j].id == ts[n].id; }
  }

  predicate Follow(r: Route, outgoing: map<Key, ChannelId>, ts: seq<Token>, actions: seq<Action>) {
    |actions| == |ts| && forall i | 0 <= i < |ts| :: actions[i] == ActionFor(r, outgoing, ts, i)
  }

  lemma FollowInit(r: Route, outgoing: map<Key, ChannelId>, ts: seq<Token>, actions: seq<Action>)
    requires Follow(r, outgoing, ts, actions) && ts != []
    ensures Follow(r, outgoing, ts[..|ts| - 1], actions[..|ts| - 1])
  {
    assert forall i | 0 <= i < |ts| - 1 :: ActionFor(r, outgoing, ts[..|ts| - 1], i) == ActionFor(r, outgoing, ts, i);
  }

  lemma {:induction false} RedeemedCount(
      r: Route, outgoing: map<Key, ChannelId>, ts: seq<Token>, actions: seq<Action>, t: TokenId)
    requires Follow(r, outgoing, ts, actions)
    ensures multiset(Redeemed(actions))[t] == if Returns(r, outgoing, t) && Occurs(ts, t) then 1 else 0
  {
    if ts != [] {
      var n := |ts| - 1;
      var before, a := Redeemed(actions[..n]), actions[n];
      FollowInit(r, outgoing, ts, actions);
      RedeemedCount(r, outgoing, ts[..n], actions[..n], t);
      OccursSplit(ts, t);
      LastAction(r, outgoing, ts);
      assert a == ActionFor(r, outgoing, ts, n);
      assert Redeemed(actions) == before + if a.Redemption? then [ts[n].id] else [];
    }
  }

  lemma StepCounts(env: Env, s: Storage, e: Event, k: Key)
    requires ValidStorage(env, s)
    ensures RedemptionsIn(env, s, e, k) + (if k in Step(env, s, e).outgoing then 1 else 0)
         <= SendsIn(env, s, e, k) + (if k in s.outgoing then 1 else 0)
  {
    if CanHappen(env, s, e) {
      match e {
        case Call(sender, msg, world) => CallCounts(env, s, e, k);
        case Migrate(_, _) =>
        case ProxyMade(_) =>
        case PacketIn(packet, newAddr, _) => PacketCounts(env, s, e, k);
        case AckIn(packet, ack, _) =>
          if packet.data.Some? { RemoveKeysShrinks(s.outgoing, packet.data.value.classId, packet.data.value.tokenIds); }
        case TimeoutIn(packet, _) =>
          if packet.data.Some? { RemoveKeysShrinks(s.outgoing, packet.data.value.classId, packet.data.value.tokenIds); }
      }
    }
  }

  lemma CallCounts(env: Env, s: Storage, e: Event, k: Key)
    requires ValidStorage(env, s) && CanHappen(env, s, e) && e.Call?
    ensures (if k in Step(env, s, e).outgoing then 1 else 0)
         <= SendsIn(env, s, e, k) + (if k in s.outgoing then 1 else 0)
  {
    if Execute(env, s, e.sender, e.msg, e.world).Success? {
      match e.msg {
        case ReceiveNft(tokenId, nftSender, out) =>
          SendChangesOutgoing(env, s, e.sender, tokenId, nftSender, out, e.world.nftInfo);
        case ReceiveProxyNft(eyeball, tokenId, nftSender, out) =>
          SendChangesOutgoing(env, s, eyeball, tokenId, nftSender, out, e.world.nftInfo);
        case _ =>
      }
    }
  }

  lemma SendChangesOutgoing(
      env: Env, s: Storage, contract: Addr, tokenId: TokenId, sender: Addr,
      msg: Option<OutgoingMsg>, info: Option<Option<string>>)
    requires SendNft(env, s, contract, tokenId, sender, msg, info).Success?
    ensures var (s', p) := SendNft(env, s, contract, tokenId, sender, msg, info).value;
            && p.data.tokenIds == [tokenId]
            && s'.outgoing == s.outgoing[Key(p.data.classId, tokenId) := p.channel]
            && s'.po == s.po
  {
  }

  /** A key leaves OUTGOING exactly when the packet redeems it. */
  lemma RedeemedLeave(r: Route, outgoing: map<Key, ChannelId>, ts: seq<Token>, k: Key)
    ensures k in RedeemedKeys(r, outgoing, ts) <==>
            r.local == Some(k.classId) && Returns(r, outgoing, k.tokenId) && Occurs(ts, k.tokenId)
  {
  }

  lemma PacketCounts(env: Env, s: Storage, e: Event, k: Key)
    requires CanHappen(env, s, e) && e.PacketIn?
    ensures RedemptionsIn(env, s, e, k) + (if k in Step(env, s, e).outgoing then 1 else 0)
         <= if k in s.outgoing then 1 else 0
  {
    if ReceiveIbcPacket(env, s, e.packet).Success? {
      var r := PacketRoute(e.packet);
      var ts := Tokens(e.packet.data.value);
      CallbackIsQuiet(env, s, e);
      assert Step(env, s, e).outgoing == s.outgoing - RedeemedKeys(r, s.outgoing, ts) by {
        SelectOutgoing(r, Progress(s.outgoing, s.incoming, []), ts);
      }
      assert multiset(Redeemed(Actions(s, e.packet)))[k.tokenId] ==
        (if Returns(r, s.outgoing, k.tokenId) && Occurs(ts, k.tokenId) then 1 else 0) by {
        ActionsMeetSpec(s, e.packet);
        RedeemedCount(r, s.outgoing, ts, Actions(s, e.packet), k.tokenId);
      }
      RedeemedLeave(r, s.outgoing, ts, k);
    }
  }

  /** Callbacks leave OUTGOING, INCOMING and the settings alone. */
  predicate SameMaps(s: Storage, s': Storage) {
    s'.outgoing == s.outgoing && s'.incoming == s.incoming && s'.po == s.po && s'.proxy == s.proxy
  }

  lemma CreateKeepsMaps(env: Env, s: Storage, receiver: Addr, create: VoucherCreation, newAddr: Addr)
    requires CallbackCreate(env, s, receiver, create, newAddr).Success?
    ensures SameMaps(s, CallbackCreate(env, s, receiver, create, newAddr).value.0)
  {
  }

  lemma CallbackKeepsOutgoing(env: Env, s: Storage, packet: Packet, newAddr: Addr)
    requires ReceiveIbcPacket(env, s, packet).Success?
    requires var (s1, cb) := ReceiveIbcPacket(env, s, packet).value; RunCallback(env, s1, cb, newAddr).Success?
    ensures var (s1, cb) := ReceiveIbcPacket(env, s, packet).value;
            SameMaps(s1, RunCallback(env, s1, cb, newAddr).value.0)
  {
    var (s1, cb) := ReceiveIbcPacket(env, s, packet).value;
    SubmessageRuns(env, s, packet, s1, newAddr);
    var created := Created(Actions(s, packet));
    assert RunCallback(env, s1, cb, newAddr).value.0 == CreateSide(env, s1, packet, created, newAddr).value.0;
    if created != [] {
      var d := packet.data.value;
      var create := VoucherCreation(Class(PacketRoute(packet).prefixed, d.classUri, d.classData), created);
      CreateKeepsMaps(env, s1, d.receiver, create, newAddr);
    }
  }

  lemma CallbackIsQuiet(env: Env, s: Storage, e: Event)
    requires CanHappen(env, s, e) && e.PacketIn? && ReceiveIbcPacket(env, s, e.packet).Success?
    ensures SameMaps(ReceiveIbcPacket(env, s, e.packet).value.0, Step(env, s, e))
  {
    var (s1, cb) := ReceiveIbcPacket(env, s, e.packet).value;
    if RunCallback(env, s1, cb, e.newAddr).Success? {
      CallbackKeepsOutgoing(env, s, e.packet, e.newAddr);
    }
  }

  /** Over any run: redemptions of a token, plus one if it is still out, never exceed its sends. */
  lemma {:induction false} RedemptionsAreSent(env: Env, pauser: Option<Addr>, es: seq<Event>, k: Key)
    requires ValidEnv(env) && Instantiated(env, pauser).Success?
    ensures var s := Instantiated(env, pauser).value;
            Redemptions(env, s, es, k) + (if k in Run(env, s, es).outgoing then 1 else 0) <= Sends(env, s, es, k)
  {
    if es != [] {
      var s := Instantiated(env, pauser).value;
      RedemptionsAreSent(env, pauser, es[..|es| - 1], k);
      RunKeepsValid(env, pauser, es[..|es| - 1]);
      StepCounts(env, Run(env, s, es[..|es| - 1]), es[|es| - 1], k);
    }
  }

  // ---------- Where OUTGOING entries come from ----------

  /** A committed call, from someone who may send, that sends the token over the channel. */
  predicate SendsToken(env: Env, s: Storage, e: Event, k: Key, channel: ChannelId) {
    && CanHappen(env, s, e) && e.Call? && !s.po.paused
    && (if s.proxy.Some? then e.msg.ReceiveProxyNft? && s.proxy == Some(e.sender) else e.msg.ReceiveNft?)
    && Execute(env, s, e.sender, e.msg, e.world).Success?
    && SentKey(Execute(env, s, e.sender, e.msg, e.world).value.1.packets, k, channel)
  }

  predicate HasEntry(s: Storage, k: Key, channel: ChannelId) {
    k in s.outgoing && s.outgoing[k] == channel
  }

  lemma EntryStep(env: Env, s: Storage, e: Event, k: Key, channel: ChannelId)
    requires HasEntry(Step(env, s, e), k, channel) && !HasEntry(s, k, channel)
    ensures SendsToken(env, s, e, k, channel)
  {
    match e {
      case Call(sender, msg, world) => CallsAreAuthorized(env, s, sender, msg, world);
      case PacketIn(packet, _, _) =>
        CallbackIsQuiet(env, s, e);
        SelectOutgoing(PacketRoute(packet), Progress(s.outgoing, s.incoming, []), Tokens(packet.data.value));
      case AckIn(packet, _, _) => SettlingAddsNothing(s, packet, k, channel);
      case TimeoutIn(packet, _) => SettlingAddsNothing(s, packet, k, channel);
    }
  }

  lemma SettlingAddsNothing(s: Storage, packet: Packet, k: Key, channel: ChannelId)
    ensures packet.data.Some? && !HasEntry(s, k, channel) ==>
              var outgoing := RemoveKeys(s.outgoing, packet.data.value.classId, packet.data.value.tokenIds);
              k !in outgoing || outgoing[k] != channel
  {
    if packet.data.Some? {
      RemoveKeysShrinks(s.outgoing, packet.data.value.classId, packet.data.value.tokenIds);
    }
  }

  /** The entry has been there since event `i`. */
  predicate StandsSince(env: Env, s: Storage, es: seq<Event>, i: nat, k: Key, channel: ChannelId) {
    forall j | i < j <= |es| :: HasEntry(Run(env, s, es[..j]), k, channel)
  }

  lemma StandsOn(env: Env, s: Storage, es: seq<Event>, i: nat, k: Key, channel: ChannelId)
    requires es != [] && HasEntry(Run(env, s, es), k, channel)
    requires i == |es| - 1 || StandsSince(env, s, es[..|es| - 1], i, k, channel)
    ensures StandsSince(env, s, es, i, k, channel)
  {
    forall j | i < j <= |es| ensures HasEntry(Run(env, s, es[..j]), k, channel) {
      if j == |es| {
        assert es[..j] == es;
      } else {
        assert es[..|es| - 1][..j] == es[..j];
      }
    }
  }

  /**
   Every OUTGOING entry of every run is the mark of a send: a call that went through, by the proxy if
   there was one, sent the token over the entry's channel, and the entry has stood since.
   */
  lemma {:induction false} EntriesWereSent(env: Env, pauser: Option<Addr>, es: seq<Event>, k: Key, channel: ChannelId)
    returns (i: nat)
    requires Instantiated(env, pauser).Success? && HasEntry(Run(env, Instantiated(env, pauser).value, es), k, channel)
    ensures var s := Instantiated(env, pauser).value;
            && i < |es| && SendsToken(env, Run(env, s, es[..i]), es[i], k, channel)
            && StandsSince(env, s, es, i, k, channel)
    decreases |es|
  {
    var s, init := Instantiated(env, pauser).value, es[..|es| - 1];
    if HasEntry(Run(env, s, init), k, channel) {
      i := EntriesWereSent(env, pauser, init, k, channel);
      assert init[..i] == es[..i] && init[i] == es[i];
    } else {
      i := |es| - 1;
      EntryStep(env, Run(env, s, init), es[i], k, channel);
    }
    StandsOn(env, s, es, i, k, channel);
  }

  // ---------- Pause once ----------

  /** A committed pause. */
  function PausesIn(env: Env, s: Storage, e: Event): nat {
    if CanHappen(env, s, e) && e.Call? && e.msg.Pause? && Execute(env, s, e.sender, e.msg, e.world).Success?
    then 1
    else 0
  }

  function Pauses(env: Env, s: Storage, es: seq<Event>): nat {
    if es == [] then 0 else Pauses(env, s, es[..|es| - 1]) + PausesIn(env, Run(env, s, es[..|es| - 1]), es[|es| - 1])
  }

  /** A migration that goes through with a pauser. */
  function NominationsIn(env: Env, s: Storage, e: Event): nat {
    if e.Migrate? && e.pauser.Some? && Migrated(env, s, e.pauser, e.proxy).Success? then 1 else 0
  }

  /** The nominations that took effect, the one at instantiation included. */
  function Nominations(env: Env, pauser: Option<Addr>, es: seq<Event>): nat
    requires Instantiated(env, pauser).Success?
  {
    if es == [] then (if pauser.Some? then 1 else 0)
    else
      var init := es[..|es| - 1];
      Nominations(env, pauser, init) + NominationsIn(env, Run(env, Instantiated(env, pauser).value, init), es[|es| - 1])
  }

  lemma PoChanges(env: Env, s: Storage, e: Event)
    requires ValidEnv(env)
    ensures var po, po' := s.po, Step(env, s, e).po;
            || (po' == po && PausesIn(env, s, e) == 0)
            || (&& e.Migrate? && Migrated(env, s, e.pauser, e.proxy).Success?
                && po' == PauseState(e.pauser, false) && PausesIn(env, s, e) == 0)
            || (e.Call? && !po.paused && po.pauser == Some(e.sender) && po' == PauseState(None, true))
  {
    if CanHappen(env, s, e) {
      if e.Call? {
        CallChangesPo(env, s, e);
      } else if e.PacketIn? && ReceiveIbcPacket(env, s, e.packet).Success? {
        CallbackIsQuiet(env, s, e);
      }
    }
  }

  /** Of all calls, only a pause by the pauser changes the pause state. */
  lemma CallChangesPo(env: Env, s: Storage, e: Event)
    requires ValidEnv(env) && CanHappen(env, s, e) && e.Call?
    ensures var po, po' := s.po, Step(env, s, e).po;
            || (po' == po && PausesIn(env, s, e) == 0)
            || (!po.paused && po.pauser == Some(e.sender) && po' == PauseState(None, true))
  {
    if Execute(env, s, e.sender, e.msg, e.world).Success? {
      match e.msg {
        case ReceiveNft(tokenId, nftSender, out) =>
          SendChangesOutgoing(env, s, e.sender, tokenId, nftSender, out, e.world.nftInfo);
        case ReceiveProxyNft(eyeball, tokenId, nftSender, out) =>
          SendChangesOutgoing(env, s, eyeball, tokenId, nftSender, out, e.world.nftInfo);
        case _ =>
      }
    }
  }

  /** Being paused leaves no pauser, and each nomination buys at most one pause. */
  lemma {:induction false} PausesAreNominated(env: Env, pauser: Option<Addr>, es: seq<Event>)
    requires ValidEnv(env) && Instantiated(env, pauser).Success?
    ensures var s := Instantiated(env, pauser).value;
            var po := Run(env, s, es).po;
            && (po.paused ==> po.pauser.None?)
            && Pauses(env, s, es) + (if po.pauser.Some? then 1 else 0) <= Nominations(env, pauser, es)
  {
    if es != [] {
      PausesAreNominated(env, pauser, es[..|es| - 1]);
      PoChanges(env, Run(env, Instantiated(env, pauser).value, es[..|es| - 1]), es[|es| - 1]);
    }
  }

  /** While paused nothing is sent, and every packet gets an error ack; neither changes anything. */
  lemma PausedRejects(env: Env, s: Storage, e: Event)
    requires s.po.paused
    ensures e.Call? || e.PacketIn? ==> Step(env, s, e) == s
    ensures e.PacketIn? ==> ReceiveIbcPacket(env, s, e.packet) == Failure(Paused)
    ensures e.Call? ==> Execute(env, s, e.sender, e.msg, e.world) == Failure(Paused)
  {
  }

  function Repaused(r: Result<(Storage, seq<NftMsg>)>, po: PauseState): Result<(Storage, seq<NftMsg>)> {
    match r
    case Success((s, messages)) => Success((s.(po := po), messages))
    case Failure(e) => Failure(e)
  }

  lemma FailIgnoresPause(env: Env, s: Storage, packet: Packet, po: PauseState)
    ensures HandlePacketFail(env, s.(po := po), packet) == Repaused(HandlePacketFail(env, s, packet), po)
  {
  }

  /** Acks and timeouts settle in the same way whether the bridge is paused or not. */
  lemma SettlingIgnoresPause(env: Env, s: Storage, packet: Packet, ack: Option<Ack>, po: PauseState)
    ensures IbcPacketAck(env, s.(po := po), packet, ack) == Repaused(IbcPacketAck(env, s, packet, ack), po)
    ensures HandlePacketFail(env, s.(po := po), packet) == Repaused(HandlePacketFail(env, s, packet), po)
  {
    FailIgnoresPause(env, s, packet, po);
  }

  predicate IsSettlement(e: Event) {
    e.AckIn? || e.TimeoutIn? || e.ProxyMade?
  }

  function Settlements(es: seq<Event>): seq<Event> {
    if es == [] then [] else Settlements(es[..|es| - 1]) + if IsSettlement(es[|es| - 1]) then [es[|es| - 1]] else []
  }

  lemma SettlementIgnoresPause(env: Env, s: Storage, e: Event, po: PauseState)
    requires IsSettlement(e)
    ensures Step(env, s.(po := po), e) == Step(env, s, e).(po := po)
  {
    match e {
      case AckIn(packet, ack, _) => SettlingIgnoresPause(env, s, packet, ack, po);
      case TimeoutIn(packet, _) => SettlingIgnoresPause(env, s, packet, None, po);
      case ProxyMade(_) =>
    }
  }

  /**
   Until governance steps in, a paused bridge goes exactly where an unpaused one would go on the acks and
   timeouts alone: every call and every packet in between is rejected without a trace.
   */
  lemma {:induction false} PausedRunSettlesOnly(env: Env, s: Storage, es: seq<Event>, po: PauseState)
    requires s.po.paused && forall e | e in es :: !e.Migrate?
    ensures Run(env, s, es) == Run(env, s.(po := po), Settlements(es)).(po := s.po)
  {
    if es != [] {
      var init, e := es[..|es| - 1], es[|es| - 1];
      PausedRunSettlesOnly(env, s, init, po);
      assert e in es;
      var paused, other := Run(env, s, init), Run(env, s.(po := po), Settlements(init));
      if IsSettlement(e) {
        RunOneMore(env, s.(po := po), Settlements(init), e);
        SettlementIgnoresPause(env, other, e, s.po);
      } else {
        PausedRejects(env, paused, e);
        assert Settlements(es) == Settlements(init);
      }
    }
  }

  lemma {:induction false} RunSplits(env: Env, s: Storage, es: seq<Event>, more: seq<Event>)
    ensures Run(env, s, es + more) == Run(env, Run(env, s, es), more)
  {
    if more == [] {
      assert es + more == es;
    } else {
      assert (es + more)[..|es + more| - 1] == es + more[..|more| - 1];
      RunSplits(env, s, es, more[..|more| - 1]);
    }
  }

  /**
   In every reachable state that has a pauser, the pauser's call goes through; and from then on, until
   governance steps in, the bridge does what its acks, its timeouts and the proxy's reply do, and nothing else.
   */
  lemma PauseStopsTheBridge(env: Env, pauser: Option<Addr>, es: seq<Event>, who: Addr, w: World, more: seq<Event>)
    requires ValidEnv(env) && Instantiated(env, pauser).Success?
    requires IsAddress(who) && who != env.self && Run(env, Instantiated(env, pauser).value, es).po.pauser == Some(who)
    requires forall e | e in more :: !e.Migrate?
    ensures var s := Instantiated(env, pauser).value;
            var paused := Run(env, s, es + [Call(who, ExecuteMsg.Pause, w)]);
            && paused == Run(env, s, es).(po := PauseState(None, true))
            && Run(env, s, es + [Call(who, ExecuteMsg.Pause, w)] + more)
               == Run(env, Run(env, s, es), Settlements(more)).(po := PauseState(None, true))
  {
    var s, pause := Instantiated(env, pauser).value, Call(who, ExecuteMsg.Pause, w);
    PausesAreNominated(env, pauser, es);
    PauseIs(env, Run(env, s, es), who, w);
    RunOneMore(env, s, es, pause);
    RunSplits(env, s, es + [pause], more);
    PausedRunSettlesOnly(env, Run(env, s, es + [pause]), more, Run(env, s, es).po);
  }

  // ---------- Who may send ----------

  /** A migration that goes through, or the reply to an instantiated proxy. */
  predicate SetsProxy(env: Env, e: Event, proxy: Option<Addr>) {
    || (e.Migrate? && e.proxy == proxy && IsNoneOrValid(env, e.pauser) && IsNoneOrValid(env, e.proxy))
    || (e.ProxyMade? && env.valid(e.contract) && proxy == Some(e.contract))
  }

  lemma ProxyStep(env: Env, s: Storage, e: Event, proxy: Option<Addr>)
    ensures SetsProxy(env, e, proxy) ==> Step(env, s, e).proxy == proxy
    ensures !e.Migrate? && !e.ProxyMade? ==> Step(env, s, e).proxy == s.proxy
  {
    match e {
      case Migrate(pauser, p) => MigrateIs(env, s, pauser, p);
      case ProxyMade(contract) => ProxyReplyIs(env, s, contract);
      case PacketIn(packet, _, _) =>
        if CanHappen(env, s, e) && ReceiveIbcPacket(env, s, packet).Success? {
          CallbackIsQuiet(env, s, e);
        }
      case Call(_, _, _) => CallKeepsProxy(env, s, e);
      case _ =>
    }
  }

  lemma CallKeepsProxy(env: Env, s: Storage, e: Event)
    requires e.Call?
    ensures Step(env, s, e).proxy == s.proxy
  {
  }

  lemma {:induction false} ProxyStays(env: Env, s: Storage, es: seq<Event>)
    requires forall e | e in es :: !e.Migrate? && !e.ProxyMade?
    ensures Run(env, s, es).proxy == s.proxy
  {
    if es != [] {
      assert es[|es| - 1] in es && forall e | e in es[..|es| - 1] :: e in es;
      ProxyStays(env, s, es[..|es| - 1]);
      ProxyStep(env, Run(env, s, es[..|es| - 1]), es[|es| - 1], None);
    }
  }

  /** Any cw721 if there is no proxy, the proxy alone if there is one, and nobody while paused. */
  predicate MaySend(env: Env, paused: bool, proxy: Option<Addr>, caller: Addr, msg: ExecuteMsg, w: World) {
    && !paused && w.nftInfo.Some?
    && match msg
       case ReceiveNft(_, sender, out) => proxy.None? && env.valid(sender) && out.Some?
       case ReceiveProxyNft(contract, _, sender, out) =>
         proxy == Some(caller) && env.valid(contract) && env.valid(sender) && out.Some?
       case _ => false
  }

  /**
   Once a migration or the reply to an instantiated proxy has set the proxy, and until the next one, the
   calls that send a packet are exactly those that the proxy setting allows.
   */
  lemma SendsAreGoverned(
      env: Env, pauser: Option<Addr>, es: seq<Event>, e: Event, more: seq<Event>, proxy: Option<Addr>,
      caller: Addr, msg: ExecuteMsg, w: World)
    requires ValidEnv(env) && Instantiated(env, pauser).Success?
    requires SetsProxy(env, e, proxy) && forall x | x in more :: !x.Migrate? && !x.ProxyMade?
    ensures var s := Run(env, Instantiated(env, pauser).value, es + [e] + more);
            var r := Execute(env, s, caller, msg, w);
            r.Success? && r.value.1.packets != [] <==> MaySend(env, s.po.paused, proxy, caller, msg, w)
  {
    var s0 := Instantiated(env, pauser).value;
    var s := Run(env, s0, es + [e] + more);
    RunKeepsValid(env, pauser, es + [e] + more);
    RunSplits(env, s0, es + [e], more);
    RunOneMore(env, s0, es, e);
    ProxyStep(env, Run(env, s0, es), e, proxy);
    ProxyStays(env, Run(env, s0, es + [e]), more);
    SendsIff(env, s, caller, msg, w);
  }

  lemma SendsIff(env: Env, s: Storage, caller: Addr, msg: ExecuteMsg, w: World)
    requires ValidStorage(env, s)
    ensures var r := Execute(env, s, caller, msg, w);
            r.Success? && r.value.1.packets != [] <==> MaySend(env, s.po.paused, s.proxy, caller, msg, w)
  {
    match msg {
      case ReceiveNft(tokenId, sender, out) => DirectSendIs(env, s, caller, tokenId, sender, out, w);
      case ReceiveProxyNft(contract, tokenId, sender, out) =>
        ProxySendIs(env, s, caller, contract, tokenId, sender, out, w);
      case Pause => PauseIs(env, s, caller, w);
      case SelfCall(cb) => CallbackIs(env, s, caller, cb, w);
    }
  }
}
