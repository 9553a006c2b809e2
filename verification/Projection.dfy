/**
 The storage of a bridge on its chain goes through a run of the bridge alone, so that what holds of every
 run of the bridge holds on every chain.
 */
module Projection {
  import opened Types
  import opened Handlers
  import opened Invariants
  import opened EntryPoints
  import opened Runs
  import opened Cw721
  import opened Chain
  import opened Delivery
  import opened Escrow

  /** The bridge's part of a transaction. */
  ghost function EventOf(env: Env, c: Chain, e: Act): Option<Event> {
    match e
    case Arrives(packet, newAddr) =>
      if CanArrive(env, c, packet, newAddr)
      then Some(PacketIn(packet, newAddr, Deliver(env, c, packet, newAddr).1 == AckSuccess)) else None
    case Sends(id, actor, msg) =>
      if UserSend(env, c, id, actor, msg).None? then None
      else
        var w := World(Some(c.ledger.nfts[id].uri), "");
        Some(if c.s.proxy.None? then Call(id.contract, ReceiveNft(id.token, actor, Some(msg)), w)
             else Call(c.s.proxy.value, ReceiveProxyNft(id.contract, id.token, actor, Some(msg)), w))
    case Acks(packet, ack) => Some(AckIn(packet, ack, Acknowledge(env, c, packet, ack).Some?))
    case TimesOut(packet) => Some(TimeoutIn(packet, TimeOut(env, c, packet).Some?))
    case UsersTrade(_) => None
    case Pauses(sender) => Some(Call(sender, ExecuteMsg.Pause, World(None, "")))
    case Upgrades(pauser, proxy) => Some(Event.Migrate(pauser, proxy))
  }

  function IfAny(env: Env, s: Storage, e: Option<Event>): Storage {
    if e.Some? then Step(env, s, e.value) else s
  }

  /** The proxy is another contract. */
  predicate ProxyIsOther(env: Env, s: Storage) {
    s.proxy.Some? ==> IsAddress(s.proxy.value) && s.proxy.value != env.self
  }

  /** Governance does not make the bridge its own proxy, and a pause comes from a sender other than the bridge. */
  predicate IsOrdinary(env: Env, e: Act) {
    && (e.Upgrades? ==> e.proxy != Some(env.self))
    && (e.Pauses? ==> IsAddress(e.sender) && e.sender != env.self)
  }

  lemma ArrivalIsEvent(env: Env, c: Chain, packet: Packet, newAddr: Addr)
    requires ValidChain(env, c) && CanArrive(env, c, packet, newAddr)
    ensures var (c', ack) := Deliver(env, c, packet, newAddr);
            Step(env, c.s, PacketIn(packet, newAddr, ack == AckSuccess)) == c'.s
  {
    if Deliver(env, c, packet, newAddr).1 == AckSuccess {
      SuccessStorage(env, c, packet, newAddr);
    }
  }

  lemma SendIsEvent(env: Env, c: Chain, id: NftId, actor: Addr, msg: OutgoingMsg)
    requires ValidChain(env, c) && UserSend(env, c, id, actor, msg).Some? && ProxyIsOther(env, c.s)
    ensures UserSend(env, c, id, actor, msg).value.0.s == IfAny(env, c.s, EventOf(env, c, Sends(id, actor, msg)))
  {
    assert id.contract in c.ledger.collections;
  }

  /** Every transaction does to the bridge's storage what its event does. */
  lemma DoIsEvent(env: Env, c: Chain, e: Act)
    requires ValidChain(env, c) && ProxyIsOther(env, c.s) && IsOrdinary(env, e)
    ensures Do(env, c, e).s == IfAny(env, c.s, EventOf(env, c, e))
    ensures e.UsersTrade? && UsersCan(env, c.ledger, e.ledger) ==> Do(env, c, e) == c.(ledger := e.ledger)
  {
    match e {
      case Arrives(packet, newAddr) =>
        if CanArrive(env, c, packet, newAddr) {
          ArrivalIsEvent(env, c, packet, newAddr);
        }
      case Sends(id, actor, msg) =>
        if UserSend(env, c, id, actor, msg).Some? {
          SendIsEvent(env, c, id, actor, msg);
        }
      case _ =>
    }
  }

  lemma ProxyStaysOther(env: Env, c: Chain, e: Act)
    requires ValidEnv(env) && ValidChain(env, c) && ProxyIsOther(env, c.s) && IsOrdinary(env, e)
    ensures ProxyIsOther(env, Do(env, c, e).s)
  {
    DoIsEvent(env, c, e);
    if EventOf(env, c, e).Some? {
      ProxyStep(env, c.s, EventOf(env, c, e).value, None);
    }
    if e.Upgrades? {
      MigrateIs(env, c.s, e.pauser, e.proxy);
    }
  }

  /** The storage at the end of any run of a chain is that of a run of the bridge. */
  lemma {:induction false} ChainRunIsRun(env: Env, c: Chain, es: seq<Act>) returns (events: seq<Event>)
    requires ValidEnv(env) && ValidChain(env, c) && ProxyIsOther(env, c.s)
    requires forall e | e in es :: IsOrdinary(env, e)
    ensures DoAll(env, c, es).s == Run(env, c.s, events)
    ensures ValidChain(env, DoAll(env, c, es)) && ProxyIsOther(env, DoAll(env, c, es).s)
    decreases |es|
  {
    events := [];
    if es != [] {
      var init, e := es[..|es| - 1], es[|es| - 1];
      assert e in es && forall x | x in init :: x in es;
      var m := DoAll(env, c, init);
      events := ChainRunIsRun(env, c, init);
      DoIsEvent(env, m, e);
      ProxyStaysOther(env, m, e);
      DoKeepsValid(env, m, e);
      if EventOf(env, m, e).Some? {
        RunOneMore(env, c.s, events, EventOf(env, m, e).value);
        events := events + [EventOf(env, m, e).value];
      }
    }
  }
}
