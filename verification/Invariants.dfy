/** What the bridge's storage looks like in every reachable state, whoever calls and whatever arrives. */
module Invariants {
  import opened Types
  import opened ClassIds
  import opened Receive
  import opened Handlers

  predicate IsAddress(a: Addr) {
    a != "" && SlashFree(a)
  }

  /** CLASS_ID_TO_NFT_CONTRACT and NFT_CONTRACT_TO_CLASS_ID are inverse bijections. */
  predicate MapsAreInverse(classToNft: map<ClassId, Addr>, nftToClass: map<Addr, ClassId>) {
    && (forall x | x in classToNft :: classToNft[x] in nftToClass && nftToClass[classToNft[x]] == x)
    && (forall a | a in nftToClass :: nftToClass[a] in classToNft && classToNft[nftToClass[a]] == a)
  }

  /** A contract is either the native class of its own name or a voucher collection for a prefixed class. */
  predicate ContractsAreNativeOrVoucher(nftToClass: map<Addr, ClassId>) {
    forall a | a in nftToClass :: IsAddress(a) && (nftToClass[a] == a || !SlashFree(nftToClass[a]))
  }

  predicate GoodClass(x: ClassId, c: Class) {
    c.id == x && x != "" && !EmptyIfSome(c.uri) && !EmptyIfSome(c.data)
  }

  predicate ClassesAreRecorded(classToNft: map<ClassId, Addr>, classes: map<ClassId, Class>) {
    && (forall x | x in classToNft :: x in classes)
    && (forall x | x in classes :: GoodClass(x, classes[x]))
  }

  /** No key dangles, and INCOMING's channel is the one its class ID names. */
  predicate KeysAreMapped(env: Env, s: Storage) {
    && (forall k | k in s.outgoing :: k.classId in s.classToNft)
    && (forall k | k in s.metadata :: k.classId in s.classToNft && k in s.incoming)
    && (forall k | k in s.incoming :: TryPopSourcePrefix(Endpoint(env.port, s.incoming[k]), k.classId).Some?)
  }

  predicate ValidStorage(env: Env, s: Storage) {
    && MapsAreInverse(s.classToNft, s.nftToClass)
    && ContractsAreNativeOrVoucher(s.nftToClass)
    && ClassesAreRecorded(s.classToNft, s.classes)
    && KeysAreMapped(env, s)
  }

  /** A class ID without '/' is mapped to the contract of that name. */
  lemma NativeIsItself(env: Env, s: Storage, x: ClassId)
    requires ValidStorage(env, s) && x in s.classToNft && SlashFree(x)
    ensures s.classToNft[x] == x
  {
  }

  // ---------- Sending ----------

  lemma SendKeepsValid(
      env: Env, s: Storage, contract: Addr, tokenId: TokenId, sender: Addr,
      msg: Option<OutgoingMsg>, info: Option<Option<string>>)
    requires ValidStorage(env, s) && IsAddress(contract)
    requires SendNft(env, s, contract, tokenId, sender, msg, info).Success?
    ensures ValidStorage(env, SendNft(env, s, contract, tokenId, sender, msg, info).value.0)
  {
    RegisterKeepsValid(env, s, contract);
  }

  /** Mapping a new class to a new contract keeps both maps inverse to each other. */
  lemma NewClassKeepsValid(env: Env, s: Storage, c: Class, contract: Addr)
    requires ValidStorage(env, s) && c.id !in s.classToNft && contract !in s.nftToClass
    requires IsAddress(contract) && GoodClass(c.id, c) && (c.id == contract || !SlashFree(c.id))
    ensures ValidStorage(env, s.(nftToClass := s.nftToClass[contract := c.id],
                                 classToNft := s.classToNft[c.id := contract],
                                 classes := s.classes[c.id := c]))
  {
    ExtendInverse(s.classToNft, s.nftToClass, c.id, contract);
  }

  lemma ExtendInverse(classToNft: map<ClassId, Addr>, nftToClass: map<Addr, ClassId>, x: ClassId, a: Addr)
    requires MapsAreInverse(classToNft, nftToClass) && x !in classToNft && a !in nftToClass
    ensures MapsAreInverse(classToNft[x := a], nftToClass[a := x])
  {
  }

  lemma RegisterKeepsValid(env: Env, s: Storage, contract: Addr)
    requires ValidStorage(env, s) && IsAddress(contract)
    ensures ValidStorage(env, RegisterNative(s, contract))
  {
    if contract !in s.nftToClass {
      if contract in s.classToNft {
        NativeIsItself(env, s, contract);
      }
      NewClassKeepsValid(env, s, Class(contract, None, None), contract);
    }
  }

  /** What the bridge knows of a contract's class: its record, or none for a contract it has not seen. */
  function RecordOf(s: Storage, contract: Addr): Class {
    if contract in s.nftToClass && s.nftToClass[contract] in s.classes then s.classes[s.nftToClass[contract]]
    else Class(contract, None, None)
  }

  /**
   A packet that the bridge sends is well-formed, names a mapped class, and says all that the bridge knows
   of the class and the token.
   */
  lemma SentPacketIsValid(
      env: Env, s: Storage, contract: Addr, tokenId: TokenId, sender: Addr,
      msg: Option<OutgoingMsg>, info: Option<Option<string>>)
    requires ValidStorage(env, s) && IsAddress(contract)
    requires SendNft(env, s, contract, tokenId, sender, msg, info).Success?
    ensures var (s', p) := SendNft(env, s, contract, tokenId, sender, msg, info).value;
            && WellFormed(p.data)
            && p.data.classId in s'.classToNft && s'.classToNft[p.data.classId] == contract
            && Class(p.data.classId, p.data.classUri, p.data.classData) == RecordOf(s, contract)
            && p.data.sender == sender && msg == Some(OutgoingMsg(p.data.receiver, p.channel))
            && Tokens(p.data) == [Token(tokenId, info.value, FlatLookup(s.metadata, Key(p.data.classId, tokenId)))]
  {
    SentClass(env, s, contract);
    var (s', p) := SendNft(env, s, contract, tokenId, sender, msg, info).value;
    TokensOfValid(p.data);
  }

  /** The class that a contract's tokens are sent under. */
  lemma SentClass(env: Env, s: Storage, contract: Addr)
    requires ValidStorage(env, s) && IsAddress(contract)
    ensures var s1 := RegisterNative(s, contract);
            var x := s1.nftToClass[contract];
            && x in s1.classes && GoodClass(x, s1.classes[x]) && x in s1.classToNft && s1.classToNft[x] == contract
  {
    RegisterKeepsValid(env, s, contract);
  }

  // ---------- Receiving ----------

  function RedeemSide(env: Env, s: Storage, packet: Packet, redeemed: seq<TokenId>): Result<(Storage, seq<NftMsg>)>
    requires packet.data.Some? && (redeemed != [] ==> PacketRoute(packet).local.Some?)
  {
    var d := packet.data.value;
    if redeemed == [] then Success((s, []))
    else
      CallbackRedeem(
        env, s, d.receiver,
        VoucherRedemption(Class(PacketRoute(packet).local.value, d.classUri, d.classData), redeemed))
  }

  function CreateSide(
      env: Env, s: Storage, packet: Packet, created: seq<Token>, newAddr: Addr): Result<(Storage, seq<NftMsg>)>
    requires packet.data.Some?
  {
    var d := packet.data.value;
    if created == [] then Success((s, []))
    else
      CallbackCreate(
        env, s, d.receiver,
        VoucherCreation(Class(PacketRoute(packet).prefixed, d.classUri, d.classData), created), newAddr)
  }

  /** The submessage's two sides, run one after the other. */
  function RunSides(env: Env, s: Storage, packet: Packet, redeemed: seq<TokenId>, created: seq<Token>, newAddr: Addr)
    : Result<(Storage, seq<NftMsg>)>
    requires packet.data.Some? && (redeemed != [] ==> PacketRoute(packet).local.Some?)
  {
    match RedeemSide(env, s, packet, redeemed)
    case Failure(e) => Failure(e)
    case Success((s1, m1)) =>
      match CreateSide(env, s1, packet, created, newAddr)
      case Failure(e) => Failure(e)
      case Success((s2, m2)) => Success((s2, m1 + m2))
  }

  /** The actions of an accepted packet. */
  function Actions(s: Storage, packet: Packet): seq<Action>
    requires packet.data.Some?
  {
    Selection(s, packet).actions
  }

  lemma ActionsMeetSpec(s: Storage, packet: Packet)
    requires packet.data.Some?
    ensures var r := PacketRoute(packet);
            var ts := Tokens(packet.data.value);
            && |Actions(s, packet)| == |ts|
            && (forall i | 0 <= i < |ts| :: Actions(s, packet)[i] == ActionFor(r, s.outgoing, ts, i))
            && ActOn(Actions(s, packet), ts)
            && OneClassPerSide(Actions(s, packet), if r.local.Some? then r.local.value else "", r.prefixed)
            && (Redeemed(Actions(s, packet)) != [] ==> r.local.Some?)
  {
    var r := PacketRoute(packet);
    var ts := Tokens(packet.data.value);
    SelectActions(r, Progress(s.outgoing, s.incoming, []), ts);
    ChosenActions(r, s.outgoing, ts, Actions(s, packet));
  }

  /** Every packet's tokens are partitioned, in order, into those redeemed and those created. */
  lemma PacketIsPartitioned(s: Storage, packet: Packet)
    requires packet.data.Some?
    ensures var ts, actions := Tokens(packet.data.value), Actions(s, packet);
            && Interleave(ts, Redeemed(actions), Created(actions))
            && multiset(Redeemed(actions)) + multiset(Ids(Created(actions))) == multiset(Ids(ts))
  {
    ActionsMeetSpec(s, packet);
    SidesInterleave(Tokens(packet.data.value), Actions(s, packet));
    SidesPartition(Tokens(packet.data.value), Actions(s, packet));
  }

  /** What follows for actions that are chosen token by token. */
  lemma ChosenActions(r: Route, outgoing: map<Key, ChannelId>, ts: seq<Token>, actions: seq<Action>)
    requires |actions| == |ts| && forall i | 0 <= i < |ts| :: actions[i] == ActionFor(r, outgoing, ts, i)
    ensures ActOn(actions, ts)
    ensures OneClassPerSide(actions, if r.local.Some? then r.local.value else "", r.prefixed)
    ensures Redeemed(actions) != [] ==> r.local.Some?
  {
    if r.local.None? {
      NoneRedeemed(actions);
    }
  }

  lemma {:induction false} NoneRedeemed(actions: seq<Action>)
    requires forall a | a in actions :: a.Creation?
    ensures Redeemed(actions) == []
  {
    if actions != [] {
      assert actions[|actions| - 1] in actions;
      NoneRedeemed(actions[..|actions| - 1]);
    }
  }

  /** The aggregate of a packet whose actions have these two sides. */
  function Aggregate(packet: Packet, redeemed: seq<TokenId>, created: seq<Token>): ActionAggregator
    requires packet.data.Some? && (redeemed != [] ==> PacketRoute(packet).local.Some?)
  {
    var d := packet.data.value;
    var r := PacketRoute(packet);
    ActionAggregator(
      d.classUri, d.classData,
      if redeemed == [] then None else Some(VoucherRedemption(Class(r.local.value, d.classUri, d.classData), redeemed)),
      if created == [] then None else Some(VoucherCreation(Class(r.prefixed, d.classUri, d.classData), created)))
  }

  lemma AggregateRuns(
      env: Env, s: Storage, packet: Packet, redeemed: seq<TokenId>, created: seq<Token>, receiver: Addr, newAddr: Addr)
    requires packet.data.Some? && (redeemed != [] ==> PacketRoute(packet).local.Some?)
    requires receiver == packet.data.value.receiver
    ensures RunCallback(env, s, IntoSubmessage(Aggregate(packet, redeemed, created), receiver), newAddr)
         == RunSides(env, s, packet, redeemed, created, newAddr)
  {
    var agg := Aggregate(packet, redeemed, created);
    assert forall m: seq<NftMsg> :: m + [] == m && [] + m == m;
    if redeemed == [] && created == [] {
      assert IntoSubmessage(agg, receiver) == Conjunction([]);
    } else if created == [] {
      assert IntoSubmessage(agg, receiver) == RedeemVouchers(receiver, agg.redemption.value);
    } else if redeemed == [] {
      assert IntoSubmessage(agg, receiver) == CreateVouchers(receiver, agg.creation.value);
    } else {
      var a, b := RedeemVouchers(receiver, agg.redemption.value), CreateVouchers(receiver, agg.creation.value);
      assert IntoSubmessage(agg, receiver) == Conjunction([a, b]);
      RunAllTwo(env, s, a, b, newAddr);
    }
  }

  /** What running the submessage of an accepted packet does. */
  lemma SubmessageRuns(env: Env, s: Storage, packet: Packet, s1: Storage, newAddr: Addr)
    requires ReceiveIbcPacket(env, s, packet).Success?
    ensures Redeemed(Actions(s, packet)) != [] ==> PacketRoute(packet).local.Some?
    ensures RunCallback(env, s1, ReceiveIbcPacket(env, s, packet).value.1, newAddr)
         == RunSides(env, s1, packet, Redeemed(Actions(s, packet)), Created(Actions(s, packet)), newAddr)
  {
    var d := packet.data.value;
    var r := PacketRoute(packet);
    var actions := Actions(s, packet);
    ActionsMeetSpec(s, packet);
    AggregateKeepsAll(d.classUri, d.classData, actions, if r.local.Some? then r.local.value else "", r.prefixed);
    AggregateRuns(env, s1, packet, Redeemed(actions), Created(actions), d.receiver, newAddr);
  }

  function RunBoth(env: Env, s: Storage, a: Callback, b: Callback, newAddr: Addr): Result<(Storage, seq<NftMsg>)> {
    match RunCallback(env, s, a, newAddr)
    case Failure(e) => Failure(e)
    case Success((s1, m1)) =>
      match RunCallback(env, s1, b, newAddr)
      case Failure(e) => Failure(e)
      case Success((s2, m2)) => Success((s2, m1 + m2))
  }

  lemma RunAllOne(env: Env, s: Storage, a: Callback, newAddr: Addr)
    ensures RunAll(env, s, [a], newAddr) == RunCallback(env, s, a, newAddr)
  {
    match RunCallback(env, s, a, newAddr) {
      case Failure(_) =>
      case Success((s1, m1)) =>
        assert RunAll(env, s1, [], newAddr) == Success((s1, []));
        assert m1 + [] == m1;
    }
  }

  lemma RunAllTwo(env: Env, s: Storage, a: Callback, b: Callback, newAddr: Addr)
    ensures RunAll(env, s, [a, b], newAddr) == RunBoth(env, s, a, b, newAddr)
  {
    assert [a, b][1..] == [b];
    match RunCallback(env, s, a, newAddr) {
      case Failure(_) =>
      case Success((s1, m1)) => RunAllOne(env, s1, b, newAddr);
    }
  }

  lemma HandlerKeepsValid(env: Env, s: Storage, packet: Packet)
    requires ValidStorage(env, s) && packet.dest.port == env.port
    requires ReceiveIbcPacket(env, s, packet).Success?
    ensures ValidStorage(env, ReceiveIbcPacket(env, s, packet).value.0)
  {
    var r := PacketRoute(packet);
    var p := Progress(s.outgoing, s.incoming, []);
    SelectOutgoing(r, p, Tokens(packet.data.value));
    SelectIncoming(r, p, Tokens(packet.data.value));
    PopIsInverse(packet.dest, r.prefixed, packet.data.value.classId);
  }

  lemma {:induction false} CreatedHasAction(actions: seq<Action>, t: Token) returns (i: nat)
    requires t in Created(actions)
    ensures i < |actions| && actions[i].Creation? && actions[i].token == t
  {
    var n := |actions| - 1;
    if actions[n].Creation? && actions[n].token == t {
      i := n;
    } else {
      i := CreatedHasAction(actions[..n], t);
    }
  }

  /** INCOMING holds every voucher the packet asks to create. */
  lemma CreatedAreIncoming(env: Env, s: Storage, packet: Packet, t: Token)
    requires ReceiveIbcPacket(env, s, packet).Success? && t in Created(Actions(s, packet))
    ensures Key(PacketRoute(packet).prefixed, t.id) in ReceiveIbcPacket(env, s, packet).value.0.incoming
  {
    var r := PacketRoute(packet);
    var ts := Tokens(packet.data.value);
    var p := Progress(s.outgoing, s.incoming, []);
    ActionsMeetSpec(s, packet);
    SelectIncoming(r, p, ts);
    var i := CreatedHasAction(Actions(s, packet), t);
    assert Actions(s, packet)[i] == ActionFor(r, s.outgoing, ts, i);
    assert Key(r.prefixed, ts[i].id) in CreatedKeys(r, s.outgoing, ts);
  }

  lemma {:induction false} SaveMetadataKeys(m: map<Key, Option<Binary>>, classId: ClassId, ts: seq<Token>, k: Key)
    requires k in SaveMetadata(m, classId, ts)
    ensures k in m || (k.classId == classId && exists t :: t in ts && t.id == k.tokenId)
  {
    if ts != [] && k !in m {
      var n := |ts| - 1;
      if k == Key(classId, ts[n].id) {
        assert ts[n] in ts;
      } else {
        SaveMetadataKeys(m, classId, ts[..n], k);
        var t :| t in ts[..n] && t.id == k.tokenId;
        assert t in ts;
      }
    }
  }

  lemma MintKeepsValid(env: Env, s: Storage, classId: ClassId, ts: seq<Token>, receiver: Addr)
    requires ValidStorage(env, s) && CallbackMint(env, s, classId, ts, receiver).Success?
    requires forall t | t in ts :: Key(classId, t.id) in s.incoming
    ensures ValidStorage(env, CallbackMint(env, s, classId, ts, receiver).value.0)
  {
    forall k | k in SaveMetadata(s.metadata, classId, ts) ensures k.classId in s.classToNft && k in s.incoming {
      SaveMetadataKeys(s.metadata, classId, ts, k);
    }
  }

  lemma ReplyKeepsValid(env: Env, s: Storage, newAddr: Addr, c: Class)
    requires ValidStorage(env, s) && GoodClass(c.id, c) && !SlashFree(c.id)
    requires c.id !in s.classToNft && IsAddress(newAddr) && newAddr !in s.nftToClass
    requires ReplyInstantiated(env, s.(classes := s.classes[c.id := c]), newAddr, c.id).Success?
    ensures ValidStorage(env, ReplyInstantiated(env, s.(classes := s.classes[c.id := c]), newAddr, c.id).value)
  {
    NewClassKeepsValid(env, s, c, newAddr);
  }

  lemma CreateKeepsValid(env: Env, s: Storage, receiver: Addr, create: VoucherCreation, newAddr: Addr)
    requires ValidStorage(env, s) && GoodClass(create.cls.id, create.cls) && !SlashFree(create.cls.id)
    requires create.cls.id in s.classToNft || (IsAddress(newAddr) && newAddr !in s.nftToClass)
    requires forall t | t in create.tokens :: Key(create.cls.id, t.id) in s.incoming
    requires CallbackCreate(env, s, receiver, create, newAddr).Success?
    ensures ValidStorage(env, CallbackCreate(env, s, receiver, create, newAddr).value.0)
  {
    var id := create.cls.id;
    var s1 := s.(classes := s.classes[id := create.cls]);
    if id in s.classToNft {
      assert ValidStorage(env, s1);
      MintKeepsValid(env, s1, id, create.tokens, receiver);
    } else {
      ReplyKeepsValid(env, s, newAddr, create.cls);
      MintKeepsValid(env, ReplyInstantiated(env, s1, newAddr, id).value, id, create.tokens, receiver);
    }
  }

  /** The packet asks for a voucher collection that does not exist yet. */
  predicate Creates(s: Storage, packet: Packet)
    requires packet.data.Some?
  {
    Created(Actions(s, packet)) != [] && PacketRoute(packet).prefixed !in s.classToNft
  }

  /** A received packet with arbitrary contents keeps the storage valid, whether its submessage fails or not. */
  lemma ReceiveKeepsValid(env: Env, s: Storage, packet: Packet, newAddr: Addr)
    requires ValidStorage(env, s) && packet.dest.port == env.port
    requires ReceiveIbcPacket(env, s, packet).Success?
    requires Creates(s, packet) ==> IsAddress(newAddr) && newAddr !in s.nftToClass
    ensures var (s1, cb) := ReceiveIbcPacket(env, s, packet).value;
            && ValidStorage(env, s1)
            && (RunCallback(env, s1, cb, newAddr).Success? ==>
                  ValidStorage(env, RunCallback(env, s1, cb, newAddr).value.0))
  {
    var (s1, cb) := ReceiveIbcPacket(env, s, packet).value;
    HandlerKeepsValid(env, s, packet);
    SubmessageRuns(env, s, packet, s1, newAddr);
    var created := Created(Actions(s, packet));
    if RunCallback(env, s1, cb, newAddr).Success? && created != [] {
      var d := packet.data.value;
      var create := VoucherCreation(Class(PacketRoute(packet).prefixed, d.classUri, d.classData), created);
      PrefixedHasSlash(packet.dest, d.classId);
      forall t | t in created ensures Key(create.cls.id, t.id) in s1.incoming {
        CreatedAreIncoming(env, s, packet, t);
      }
      CreateKeepsValid(env, s1, d.receiver, create, newAddr);
    }
  }

  // ---------- Settling ----------

  lemma {:induction false} RemoveKeysShrinks(outgoing: map<Key, ChannelId>, classId: ClassId, ids: seq<TokenId>)
    ensures RemoveKeys(outgoing, classId, ids) == outgoing - set t | t in ids :: Key(classId, t)
  {
    if ids != [] {
      var n := |ids| - 1;
      RemoveKeysShrinks(outgoing, classId, ids[..n]);
      assert ids == ids[..n] + [ids[n]];
    }
  }

  lemma {:induction false} BurnAllShrinks(
      p: BurnProgress, classId: ClassId, contract: Addr, channel: ChannelId, ids: seq<TokenId>)
    requires forall k | k in p.metadata :: k in p.incoming
    ensures var q := BurnAll(p, classId, contract, channel, ids);
            && (forall k | k in q.metadata :: k in q.incoming && k in p.metadata)
            && (forall k | k in q.incoming :: k in p.incoming && q.incoming[k] == p.incoming[k])
  {
    if ids != [] {
      BurnAllShrinks(p, classId, contract, channel, ids[..|ids| - 1]);
    }
  }

  lemma FailKeepsValid(env: Env, s: Storage, packet: Packet)
    requires ValidStorage(env, s) && HandlePacketFail(env, s, packet).Success?
    ensures ValidStorage(env, HandlePacketFail(env, s, packet).value.0)
  {
    var d := packet.data.value;
    RemoveKeysShrinks(s.outgoing, d.classId, d.tokenIds);
  }

  lemma AckKeepsValid(env: Env, s: Storage, packet: Packet, ack: Option<Ack>)
    requires ValidStorage(env, s) && IbcPacketAck(env, s, packet, ack).Success?
    ensures ValidStorage(env, IbcPacketAck(env, s, packet, ack).value.0)
  {
    if AckFailed(ack) {
      FailKeepsValid(env, s, packet);
    } else {
      var d := packet.data.value;
      BurnAllShrinks(
        BurnProgress(s.incoming, s.metadata, []), d.classId, s.classToNft[d.classId], packet.src.channel, d.tokenIds);
    }
  }
}
