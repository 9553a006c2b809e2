/**
 What a bridge says of a class and a token when it sends them on is what it was told last, on a chain where
 packets, acks and timeouts may have any contents.
 */
module Provenance {
  import opened Types
  import opened ClassIds
  import opened Receive
  import opened Handlers
  import opened Invariants
  import opened EntryPoints
  import opened Cw721
  import opened Chain
  import opened Delivery
  import opened Effects
  import opened Outcome
  import opened Closing
  import opened Escrow

  /** A packet that succeeds and creates tokens of the class. */
  ghost predicate TellsOfClass(env: Env, c: Chain, e: Act, x: ClassId) {
    && e.Arrives? && CanArrive(env, c, e.packet, e.newAddr)
    && Deliver(env, c, e.packet, e.newAddr).1 == AckSuccess && e.packet.data.Some?
    && PacketRoute(e.packet).prefixed == x && exists t :: CreatesToken(c.s, e.packet, t)
  }

  /** The class as the packet describes it. */
  function ToldClass(packet: Packet): Class
    requires packet.data.Some?
  {
    Class(PacketRoute(packet).prefixed, packet.data.value.classUri, packet.data.value.classData)
  }

  predicate HasClass(s: Storage, cls: Class) {
    cls.id in s.classes && s.classes[cls.id] == cls
  }

  /** What a delivery does to the class records. */
  lemma DeliveredClasses(env: Env, c: Chain, packet: Packet, newAddr: Addr)
    requires ValidChain(env, c) && FreshAddress(env, c, newAddr)
    ensures var (c', ack) := Deliver(env, c, packet, newAddr);
            c'.s.classes ==
              if ack == AckSuccess && packet.data.Some? && exists t :: CreatesToken(c.s, packet, t)
              then c.s.classes[ToldClass(packet).id := ToldClass(packet)] else c.s.classes
  {
    PassesIff(env, c.s, packet);
    SucceedsIff(env, c, packet, newAddr);
    if Passes(env, c.s, packet) {
      DeliveryIs(env, c, packet, newAddr);
      CreatesSome(c.s, packet);
    } else {
      ErrorChangesNothing(env, c, packet, newAddr);
    }
  }

  lemma CreatesSome(s: Storage, packet: Packet)
    requires packet.data.Some?
    ensures Created(Actions(s, packet)) != [] <==> exists t :: CreatesToken(s, packet, t)
  {
    SidesAre(s, packet);
    var created := Created(Actions(s, packet));
    if created != [] {
      assert created[0] in created;
    }
  }

  lemma SettlingKeepsClassRecords(env: Env, c: Chain, packet: Packet, ack: Option<Ack>)
    ensures Acknowledge(env, c, packet, ack).Some? ==> Acknowledge(env, c, packet, ack).value.s.classes == c.s.classes
    ensures TimeOut(env, c, packet).Some? ==> TimeOut(env, c, packet).value.s.classes == c.s.classes
  {
  }

  lemma SendKeepsClasses(env: Env, c: Chain, id: NftId, actor: Addr, msg: OutgoingMsg, x: ClassId)
    requires ValidChain(env, c) && UserSend(env, c, id, actor, msg).Some? && x in c.s.classes && !SlashFree(x)
    ensures var c' := UserSend(env, c, id, actor, msg).value.0; x in c'.s.classes && c'.s.classes[x] == c.s.classes[x]
  {
    UserSendStorage(env, c, id, actor, msg);
  }

  /** The record of a voucher class is what the last packet that created tokens of it said. */
  lemma ClassStep(env: Env, c: Chain, e: Act, x: ClassId)
    requires ValidChain(env, c) && !SlashFree(x)
    ensures TellsOfClass(env, c, e, x) ==> HasClass(Do(env, c, e).s, ToldClass(e.packet))
    ensures !TellsOfClass(env, c, e, x) && x in c.s.classes ==>
              x in Do(env, c, e).s.classes && Do(env, c, e).s.classes[x] == c.s.classes[x]
  {
    match e {
      case Arrives(packet, newAddr) =>
        if CanArrive(env, c, packet, newAddr) {
          DeliveredClasses(env, c, packet, newAddr);
        }
      case Sends(id, actor, msg) =>
        if UserSend(env, c, id, actor, msg).Some? && x in c.s.classes {
          SendKeepsClasses(env, c, id, actor, msg, x);
        }
      case Acks(packet, ack) => SettlingKeepsClassRecords(env, c, packet, ack);
      case TimesOut(packet) => SettlingKeepsClassRecords(env, c, packet, None);
      case UsersTrade(_) =>
      case Pauses(sender) => PauseIs(env, c.s, sender, World(None, ""));
      case Upgrades(pauser, proxy) => MigrateIs(env, c.s, pauser, proxy);
    }
  }

  /** Nothing in the run tells of the class. */
  ghost predicate NotRetold(env: Env, c: Chain, es: seq<Act>, x: ClassId) {
    es != [] ==>
      var init := es[..|es| - 1];
      NotRetold(env, c, init, x) && !TellsOfClass(env, DoAll(env, c, init), es[|es| - 1], x)
  }

  lemma {:induction false} ClassStays(env: Env, c: Chain, es: seq<Act>, cls: Class)
    requires ValidChain(env, c) && HasClass(c.s, cls) && !SlashFree(cls.id) && NotRetold(env, c, es, cls.id)
    ensures ValidChain(env, DoAll(env, c, es)) && HasClass(DoAll(env, c, es).s, cls)
  {
    if es != [] {
      var init := es[..|es| - 1];
      ClassStays(env, c, init, cls);
      ClassStep(env, DoAll(env, c, init), es[|es| - 1], cls.id);
      DoKeepsValid(env, DoAll(env, c, init), es[|es| - 1]);
    }
  }

  /** A send passes the record of the contract's class on. */
  lemma SendTellsRecord(env: Env, c: Chain, id: NftId, actor: Addr, msg: OutgoingMsg, cls: Class)
    requires ValidChain(env, c) && UserSend(env, c, id, actor, msg).Some?
    requires HasClass(c.s, cls) && ClassOf(c.s, id.contract) == cls.id && !SlashFree(cls.id)
    ensures var d := UserSend(env, c, id, actor, msg).value.1.data;
            Class(d.classId, d.classUri, d.classData) == cls
  {
    UserSendStorage(env, c, id, actor, msg);
  }

  /**
   After a packet that created tokens of a class, every token of the class that is sent on carries the class
   uri and class data of that packet, whatever happens in between, until another packet creates tokens of it.
   */
  lemma ClassDataIsPassedOn(
      env: Env, c: Chain, packet: Packet, newAddr: Addr, es: seq<Act>, id: NftId, actor: Addr, msg: OutgoingMsg)
    requires ValidChain(env, c) && packet.data.Some?
    requires TellsOfClass(env, c, Arrives(packet, newAddr), PacketRoute(packet).prefixed)
    requires var c1 := Deliver(env, c, packet, newAddr).0;
             && NotRetold(env, c1, es, PacketRoute(packet).prefixed)
             && UserSend(env, DoAll(env, c1, es), id, actor, msg).Some?
             && ClassOf(DoAll(env, c1, es).s, id.contract) == EndpointPrefix(packet.dest) + packet.data.value.classId
    ensures var d := UserSend(env, DoAll(env, Deliver(env, c, packet, newAddr).0, es), id, actor, msg).value.1.data;
            && d.classId == EndpointPrefix(packet.dest) + packet.data.value.classId
            && d.classUri == packet.data.value.classUri && d.classData == packet.data.value.classData
  {
    var c1 := Deliver(env, c, packet, newAddr).0;
    PrefixedHasSlash(packet.dest, packet.data.value.classId);
    DeliveredClasses(env, c, packet, newAddr);
    DeliverKeepsValid(env, c, packet, newAddr);
    ClassStays(env, c1, es, ToldClass(packet));
    SendTellsRecord(env, DoAll(env, c1, es), id, actor, msg, ToldClass(packet));
  }

  // ---------- Tokens ----------

  /** A packet that succeeds and creates the token. */
  ghost predicate TellsOfToken(env: Env, c: Chain, e: Act, k: Key) {
    && e.Arrives? && CanArrive(env, c, e.packet, e.newAddr)
    && Deliver(env, c, e.packet, e.newAddr).1 == AckSuccess && e.packet.data.Some?
    && PacketRoute(e.packet).prefixed == k.classId && exists t :: CreatesToken(c.s, e.packet, t) && t.id == k.tokenId
  }

  /** A success ack that burns the token. */
  ghost predicate Burns(env: Env, c: Chain, e: Act, k: Key) {
    && e.Acks? && e.ack == Some(AckSuccess) && Acknowledge(env, c, e.packet, e.ack).Some?
    && IsReturned(c, e.packet, k)
  }

  predicate SameData(s: Storage, s': Storage, k: Key) {
    (k in s'.metadata <==> k in s.metadata) && (k in s.metadata ==> s'.metadata[k] == s.metadata[k])
  }

  lemma {:induction false} SaveMetadataElse(m: map<Key, Option<Binary>>, x: ClassId, ts: seq<Token>, k: Key)
    requires forall t | t in ts :: Key(x, t.id) != k
    ensures k in SaveMetadata(m, x, ts) <==> k in m
    ensures k in m ==> SaveMetadata(m, x, ts)[k] == m[k]
  {
    if ts != [] {
      assert ts[|ts| - 1] in ts && forall t | t in ts[..|ts| - 1] :: t in ts;
      SaveMetadataElse(m, x, ts[..|ts| - 1], k);
    }
  }

  lemma CreatedSave(m: map<Key, Option<Binary>>, x: ClassId, created: seq<Token>, k: Key)
    requires Distinct(created)
    ensures var m' := if created == [] then m else SaveMetadata(m, x, created);
            && (forall t | t in created && Key(x, t.id) == k :: k in m' && m'[k] == t.data)
            && ((forall t | t in created :: Key(x, t.id) != k) ==>
                  (k in m' <==> k in m) && (k in m ==> m'[k] == m[k]))
  {
    forall t | t in created && Key(x, t.id) == k
      ensures k in SaveMetadata(m, x, created) && SaveMetadata(m, x, created)[k] == t.data
    {
      SaveMetadataHas(m, x, created, t);
    }
    if forall t | t in created :: Key(x, t.id) != k {
      SaveMetadataElse(m, x, created, k);
    }
  }

  /** What a delivery does to the data of a token. */
  lemma DeliveredData(env: Env, c: Chain, packet: Packet, newAddr: Addr, k: Key)
    requires ValidChain(env, c) && CanArrive(env, c, packet, newAddr)
    ensures var c' := Deliver(env, c, packet, newAddr).0;
            if TellsOfToken(env, c, Arrives(packet, newAddr), k)
            then forall t | CreatesToken(c.s, packet, t) && t.id == k.tokenId ::
              k in c'.s.metadata && c'.s.metadata[k] == t.data
            else SameData(c.s, c'.s, k)
  {
    PassesIff(env, c.s, packet);
    SucceedsIff(env, c, packet, newAddr);
    if Passes(env, c.s, packet) {
      DeliveryIs(env, c, packet, newAddr);
      if Deliverable(env, c, packet) {
        SelectionIs(env, c, packet, newAddr);
        CreatedSave(c.s.metadata, PacketRoute(packet).prefixed, Created(Actions(c.s, packet)), k);
      }
    } else {
      ErrorChangesNothing(env, c, packet, newAddr);
    }
  }

  /** A token's data stays what it was, but for a packet that creates the token and an ack that burns it. */
  lemma TokenStep(env: Env, c: Chain, e: Act, k: Key)
    requires ValidChain(env, c) && !TellsOfToken(env, c, e, k) && !Burns(env, c, e, k)
    ensures SameData(c.s, Do(env, c, e).s, k)
  {
    match e {
      case Arrives(packet, newAddr) =>
        if CanArrive(env, c, packet, newAddr) {
          DeliveredData(env, c, packet, newAddr, k);
        }
      case Sends(id, actor, msg) =>
        if UserSend(env, c, id, actor, msg).Some? {
          UserSendEffect(env, c, id, actor, msg);
        }
      case Acks(packet, ack) => AckedData(env, c, packet, ack, k);
      case TimesOut(packet) =>
        if TimeOut(env, c, packet).Some? {
          RefundGivesBack(env, c, packet, k);
        }
      case UsersTrade(_) =>
      case Pauses(sender) => PauseIs(env, c.s, sender, World(None, ""));
      case Upgrades(pauser, proxy) => MigrateIs(env, c.s, pauser, proxy);
    }
  }

  lemma AckedData(env: Env, c: Chain, packet: Packet, ack: Option<Ack>, k: Key)
    requires ValidChain(env, c) && !Burns(env, c, Acks(packet, ack), k)
    ensures Acknowledge(env, c, packet, ack).Some? ==> SameData(c.s, Acknowledge(env, c, packet, ack).value.s, k)
  {
    if Acknowledge(env, c, packet, ack).Some? {
      if ack == Some(AckSuccess) {
        AckBurnsReturned(env, c, packet, k);
      } else {
        RefundIff(env, c, packet);
        RefundGivesBack(env, c, packet, k);
      }
    }
  }

  /** Nothing in the run creates the token again or burns it. */
  ghost predicate NotReplaced(env: Env, c: Chain, es: seq<Act>, k: Key) {
    es != [] ==>
      var init := es[..|es| - 1];
      && NotReplaced(env, c, init, k)
      && !TellsOfToken(env, DoAll(env, c, init), es[|es| - 1], k) && !Burns(env, DoAll(env, c, init), es[|es| - 1], k)
  }

  lemma {:induction false} DataStays(env: Env, c: Chain, es: seq<Act>, k: Key)
    requires ValidChain(env, c) && NotReplaced(env, c, es, k)
    ensures ValidChain(env, DoAll(env, c, es)) && SameData(c.s, DoAll(env, c, es).s, k)
  {
    if es != [] {
      var init := es[..|es| - 1];
      DataStays(env, c, init, k);
      TokenStep(env, DoAll(env, c, init), es[|es| - 1], k);
      DoKeepsValid(env, DoAll(env, c, init), es[|es| - 1]);
    }
  }

  lemma SendTellsData(env: Env, c: Chain, id: NftId, actor: Addr, msg: OutgoingMsg)
    requires ValidChain(env, c) && UserSend(env, c, id, actor, msg).Some?
    ensures UserSend(env, c, id, actor, msg).value.1.data.tokenData == AsList(FlatLookup(c.s.metadata, KeyOf(c.s, id)))
  {
    UserSendStorage(env, c, id, actor, msg);
    var d := UserSend(env, c, id, actor, msg).value.1.data;
    TokensOfValid(d);
    if d.tokenData.Some? {
      assert d.tokenData.value == [d.tokenData.value[0]];
    }
  }

  /**
   A token that a packet created is sent on with the token data of that packet, whatever happens in between,
   as long as it is not burned and created again.
   */
  lemma TokenDataIsPassedOn(
      env: Env, c: Chain, packet: Packet, newAddr: Addr, t: Token,
      es: seq<Act>, id: NftId, actor: Addr, msg: OutgoingMsg)
    requires ValidChain(env, c) && packet.data.Some? && CreatesToken(c.s, packet, t)
    requires TellsOfToken(env, c, Arrives(packet, newAddr), Key(PacketRoute(packet).prefixed, t.id))
    requires var c1, k := Deliver(env, c, packet, newAddr).0, Key(PacketRoute(packet).prefixed, t.id);
             && NotReplaced(env, c1, es, k)
             && UserSend(env, DoAll(env, c1, es), id, actor, msg).Some? && KeyOf(DoAll(env, c1, es).s, id) == k
    ensures var c1 := Deliver(env, c, packet, newAddr).0;
            UserSend(env, DoAll(env, c1, es), id, actor, msg).value.1.data.tokenData == AsList(t.data)
  {
    var c1, k := Deliver(env, c, packet, newAddr).0, Key(PacketRoute(packet).prefixed, t.id);
    DeliveredData(env, c, packet, newAddr, k);
    DeliverKeepsValid(env, c, packet, newAddr);
    DataStays(env, c1, es, k);
    SendTellsData(env, DoAll(env, c1, es), id, actor, msg);
  }

  // ---------- Native classes ----------

  predicate NativesArePlain(s: Storage) {
    forall x | x in s.classes && SlashFree(x) :: s.classes[x] == Class(x, None, None)
  }

  lemma NativesStep(env: Env, c: Chain, e: Act)
    requires ValidChain(env, c) && NativesArePlain(c.s)
    ensures NativesArePlain(Do(env, c, e).s)
  {
    match e {
      case Arrives(packet, newAddr) =>
        if CanArrive(env, c, packet, newAddr) {
          DeliveredClasses(env, c, packet, newAddr);
          if packet.data.Some? {
            PrefixedHasSlash(packet.dest, packet.data.value.classId);
          }
        }
      case Sends(id, actor, msg) =>
        if UserSend(env, c, id, actor, msg).Some? {
          UserSendStorage(env, c, id, actor, msg);
        }
      case Acks(packet, ack) => SettlingKeepsClassRecords(env, c, packet, ack);
      case TimesOut(packet) => SettlingKeepsClassRecords(env, c, packet, None);
      case UsersTrade(_) =>
      case Pauses(sender) => PauseIs(env, c.s, sender, World(None, ""));
      case Upgrades(pauser, proxy) => MigrateIs(env, c.s, pauser, proxy);
    }
  }

  lemma {:induction false} NativesRun(env: Env, c: Chain, es: seq<Act>)
    requires ValidChain(env, c) && NativesArePlain(c.s)
    ensures ValidChain(env, DoAll(env, c, es)) && NativesArePlain(DoAll(env, c, es).s)
  {
    if es != [] {
      NativesRun(env, c, es[..|es| - 1]);
      NativesStep(env, DoAll(env, c, es[..|es| - 1]), es[|es| - 1]);
      DoKeepsValid(env, DoAll(env, c, es[..|es| - 1]), es[|es| - 1]);
    }
  }

  /** From instantiation on, native tokens are sent without class uri and class data, whatever arrives. */
  lemma NativesCarryNone(
      env: Env, c: Chain, pauser: Option<Addr>, es: seq<Act>, id: NftId, actor: Addr, msg: OutgoingMsg)
    requires ValidChain(env, c) && Instantiated(env, pauser) == Success(c.s)
    requires UserSend(env, DoAll(env, c, es), id, actor, msg).Some?
    requires SlashFree(ClassOf(DoAll(env, c, es).s, id.contract))
    ensures var d := UserSend(env, DoAll(env, c, es), id, actor, msg).value.1.data;
            d.classUri == None && d.classData == None
  {
    NativesRun(env, c, es);
    UserSendStorage(env, DoAll(env, c, es), id, actor, msg);
  }
}
