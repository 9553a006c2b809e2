/** What a received packet asks for: validation, zipping, and one action per token. */
module Receive {
  import opened Types
  import opened ClassIds

  // ---------- NonFungibleTokenPacketData::validate ----------

  predicate EmptyIfSome<T>(o: Option<seq<T>>) {
    o.Some? && o.value == []
  }

  /** The first check that fails. */
  function Validate(d: PacketData): Option<Error> {
    if d.classId == "" then Some(EmptyClassId)
    else if EmptyIfSome(d.classUri) then Some(EmptyOptional)
    else if EmptyIfSome(d.classData) then Some(EmptyOptional)
    else if |d.tokenIds| == 0 then Some(NoTokens)
    else if (d.tokenData.Some? && |d.tokenData.value| != |d.tokenIds|)
            || (d.tokenUris.Some? && |d.tokenUris.value| != |d.tokenIds|) then Some(TokenInfoLenMismatch)
    else None
  }

  /** A class, tokens, no empty optional field, and a uri and data for each token or for none. */
  predicate WellFormed(d: PacketData) {
    && d.classId != "" && d.tokenIds != []
    && d.classUri != Some("") && d.classData != Some([])
    && (d.tokenUris.Some? ==> |d.tokenUris.value| == |d.tokenIds|)
    && (d.tokenData.Some? ==> |d.tokenData.value| == |d.tokenIds|)
  }

  /** The error names something that is wrong with the packet. */
  predicate IsToBlame(d: PacketData, e: Error) {
    match e
    case EmptyClassId => d.classId == ""
    case EmptyOptional => d.classUri == Some("") || d.classData == Some([])
    case NoTokens => d.tokenIds == []
    case TokenInfoLenMismatch =>
      || (d.tokenUris.Some? && |d.tokenUris.value| != |d.tokenIds|)
      || (d.tokenData.Some? && |d.tokenData.value| != |d.tokenIds|)
    case _ => false
  }

  /** Validation lets exactly the well-formed packets pass, and gives a true reason for turning one away. */
  lemma ValidateIs(d: PacketData)
    ensures Validate(d).None? <==> WellFormed(d)
    ensures Validate(d).Some? ==> IsToBlame(d, Validate(d).value)
  {
  }

  // ---------- zip_optional ----------

  /** What draining a `ZipOptional` yields: it stops at the shorter side. */
  function Zip<A, B>(a: seq<A>, b: Option<seq<B>>): (z: seq<(A, Option<B>)>)
    ensures |z| == if b.Some? && |b.value| < |a| then |b.value| else |a|
    ensures forall i | 0 <= i < |z| :: z[i] == (a[i], if b.Some? then Some(b.value[i]) else None)
  {
    if a == [] || b == Some([]) then []
    else
      [(a[0], if b.Some? then Some(b.value[0]) else None)]
      + Zip(a[1..], if b.Some? then Some(b.value[1..]) else None)
  }

  /** The packet's tokens, each with its own uri and data. */
  function Tokens(d: PacketData): seq<Token> {
    var z := Zip(Zip(d.tokenIds, d.tokenUris), d.tokenData);
    seq(|z|, i requires 0 <= i < |z| => Token(z[i].0.0, z[i].0.1, z[i].1))
  }

  /** On a validated packet, zipping drops nothing and pairs every token with its own uri and data. */
  lemma TokensOfValid(d: PacketData)
    requires WellFormed(d)
    ensures |Tokens(d)| == |d.tokenIds|
    ensures forall i | 0 <= i < |d.tokenIds| ::
              && Tokens(d)[i].id == d.tokenIds[i]
              && Tokens(d)[i].uri == (if d.tokenUris.Some? then Some(d.tokenUris.value[i]) else None)
              && Tokens(d)[i].data == (if d.tokenData.Some? then Some(d.tokenData.value[i]) else None)
  {
  }

  // ---------- The redeem-or-create decision ----------

  datatype Action =
    | Redemption(classId: ClassId, tokenId: TokenId)
    | Creation(classId: ClassId, token: Token)

  /** What is fixed across one packet: its class ID here with the source's prefix stripped or ours added. */
  datatype Route = Route(local: Option<ClassId>, prefixed: ClassId, channel: ChannelId)

  function RouteOf(src: Endpoint, dest: Endpoint, classId: ClassId): Route {
    Route(TryPopSourcePrefix(src, classId), EndpointPrefix(dest) + classId, dest.channel)
  }

  datatype Progress = Progress(outgoing: map<Key, ChannelId>, incoming: map<Key, ChannelId>, actions: seq<Action>)

  /** We sent this token out on the channel it comes back on. */
  predicate Returns(r: Route, outgoing: map<Key, ChannelId>, t: TokenId) {
    r.local.Some? && Key(r.local.value, t) in outgoing && outgoing[Key(r.local.value, t)] == r.channel
  }

  function SelectOne(r: Route, p: Progress, t: Token): Progress {
    if Returns(r, p.outgoing, t.id) then
      p.(outgoing := p.outgoing - {Key(r.local.value, t.id)},
         actions := p.actions + [Redemption(r.local.value, t.id)])
    else
      p.(incoming := p.incoming[Key(r.prefixed, t.id) := r.channel],
         actions := p.actions + [Creation(r.prefixed, t)])
  }

  function Select(r: Route, p: Progress, ts: seq<Token>): Progress {
    if ts == [] then p
    else SelectOne(r, Select(r, p, ts[..|ts| - 1]), ts[|ts| - 1])
  }

  /** The token is redeemed: it was out on this channel, and the packet did not name it before. */
  predicate IsRedeemed(r: Route, outgoing: map<Key, ChannelId>, ts: seq<Token>, i: nat)
    requires i < |ts|
  {
    Returns(r, outgoing, ts[i].id) && forall j | 0 <= j < i :: ts[j].id != ts[i].id
  }

  /** The keys a packet takes out of OUTGOING, and those it puts into INCOMING. */
  function RedeemedKeys(r: Route, outgoing: map<Key, ChannelId>, ts: seq<Token>): set<Key> {
    set i | 0 <= i < |ts| && Returns(r, outgoing, ts[i].id) :: Key(r.local.value, ts[i].id)
  }

  function CreatedKeys(r: Route, outgoing: map<Key, ChannelId>, ts: seq<Token>): set<Key> {
    set i | 0 <= i < |ts| && !IsRedeemed(r, outgoing, ts, i) :: Key(r.prefixed, ts[i].id)
  }

  function ActionFor(r: Route, outgoing: map<Key, ChannelId>, ts: seq<Token>, i: nat): Action
    requires i < |ts|
  {
    if IsRedeemed(r, outgoing, ts, i) then Redemption(r.local.value, ts[i].id) else Creation(r.prefixed, ts[i])
  }

  lemma {:induction false} SelectOutgoing(r: Route, p: Progress, ts: seq<Token>)
    ensures Select(r, p, ts).outgoing == p.outgoing - RedeemedKeys(r, p.outgoing, ts)
  {
    if ts != [] {
      var n := |ts| - 1;
      SelectOutgoing(r, p, ts[..n]);
      var before, after := RedeemedKeys(r, p.outgoing, ts[..n]), RedeemedKeys(r, p.outgoing, ts);
      assert after == if Returns(r, p.outgoing, ts[n].id) then before + {Key(r.local.value, ts[n].id)} else before by {
        assert forall i | 0 <= i < n :: ts[..n][i] == ts[i];
        assert forall k | k in before :: k in after;
      }
    }
  }

  /** After a prefix of the packet, a token still counts as out exactly when the prefix did not name it. */
  lemma StillOut(r: Route, p: Progress, ts: seq<Token>, n: nat)
    requires n < |ts|
    ensures Returns(r, Select(r, p, ts[..n]).outgoing, ts[n].id) == IsRedeemed(r, p.outgoing, ts, n)
  {
    SelectOutgoing(r, p, ts[..n]);
    var keys := RedeemedKeys(r, p.outgoing, ts[..n]);
    if Returns(r, p.outgoing, ts[n].id) {
      var k := Key(r.local.value, ts[n].id);
      if j :| 0 <= j < n && ts[j].id == ts[n].id {
        assert ts[..n][j] == ts[j];
        assert k in keys;
      }
    }
  }

  /**
   One action per token, in order: the first occurrence of a token that is out on the packet's
   channel is redeemed, everything else is created, with its own uri and data.
   */
  lemma {:induction false} SelectActions(r: Route, p: Progress, ts: seq<Token>)
    requires p.actions == []
    ensures |Select(r, p, ts).actions| == |ts|
    ensures forall i | 0 <= i < |ts| :: Select(r, p, ts).actions[i] == ActionFor(r, p.outgoing, ts, i)
  {
    if ts != [] {
      var n := |ts| - 1;
      SelectActions(r, p, ts[..n]);
      StillOut(r, p, ts, n);
      assert forall i | 0 <= i < n :: ActionFor(r, p.outgoing, ts[..n], i) == ActionFor(r, p.outgoing, ts, i);
    }
  }

  lemma CreatedKeysGrow(r: Route, outgoing: map<Key, ChannelId>, ts: seq<Token>, n: nat)
    requires |ts| == n + 1
    ensures var before := CreatedKeys(r, outgoing, ts[..n]);
            CreatedKeys(r, outgoing, ts) ==
              if IsRedeemed(r, outgoing, ts, n) then before else before + {Key(r.prefixed, ts[n].id)}
  {
    assert forall i | 0 <= i < n ::
      ts[..n][i] == ts[i] && IsRedeemed(r, outgoing, ts[..n], i) == IsRedeemed(r, outgoing, ts, i);
    assert forall k | k in CreatedKeys(r, outgoing, ts[..n]) :: k in CreatedKeys(r, outgoing, ts);
  }

  lemma {:induction false} SelectIncoming(r: Route, p: Progress, ts: seq<Token>)
    ensures Select(r, p, ts).incoming == p.incoming + map k | k in CreatedKeys(r, p.outgoing, ts) :: r.channel
  {
    if ts != [] {
      var n := |ts| - 1;
      SelectIncoming(r, p, ts[..n]);
      StillOut(r, p, ts, n);
      CreatedKeysGrow(r, p.outgoing, ts, n);
    }
  }

  // ---------- ActionAggregator ----------

  datatype VoucherRedemption = VoucherRedemption(cls: Class, tokenIds: seq<TokenId>)

  datatype VoucherCreation = VoucherCreation(cls: Class, tokens: seq<Token>)

  datatype ActionAggregator = ActionAggregator(
    classUri: Option<string>,
    classData: Option<Binary>,
    redemption: Option<VoucherRedemption>,
    creation: Option<VoucherCreation>)
  {
    function AddAction(a: Action): ActionAggregator {
      match a
      case Redemption(classId, tokenId) =>
        this.(redemption := Some(
          if redemption.Some? then redemption.value.(tokenIds := redemption.value.tokenIds + [tokenId])
          else VoucherRedemption(Class(classId, classUri, classData), [tokenId])))
      case Creation(classId, token) =>
        this.(creation := Some(
          if creation.Some? then creation.value.(tokens := creation.value.tokens + [token])
          else VoucherCreation(Class(classId, classUri, classData), [token])))
    }

    function AddAll(actions: seq<Action>): ActionAggregator {
      if actions == [] then this else AddAll(actions[..|actions| - 1]).AddAction(actions[|actions| - 1])
    }
  }

  /** A self-call of the bridge. */
  datatype Callback =
    | CreateVouchers(receiver: Addr, create: VoucherCreation)
    | RedeemVouchers(receiver: Addr, redeem: VoucherRedemption)
    | MintVouchers(classId: ClassId, tokens: seq<Token>, receiver: Addr)
    | Conjunction(operands: seq<Callback>)

  function IntoSubmessage(a: ActionAggregator, receiver: Addr): Callback {
    var m := (if a.redemption.Some? then [RedeemVouchers(receiver, a.redemption.value)] else [])
             + (if a.creation.Some? then [CreateVouchers(receiver, a.creation.value)] else []);
    if |m| == 1 then m[0] else Conjunction(m)
  }

  function Redeemed(actions: seq<Action>): seq<TokenId> {
    if actions == [] then []
    else
      var a := actions[|actions| - 1];
      Redeemed(actions[..|actions| - 1]) + if a.Redemption? then [a.tokenId] else []
  }

  function Created(actions: seq<Action>): seq<Token> {
    if actions == [] then []
    else
      var a := actions[|actions| - 1];
      Created(actions[..|actions| - 1]) + if a.Creation? then [a.token] else []
  }

  /** All redemptions of a packet share one class, and all creations another. */
  predicate OneClassPerSide(actions: seq<Action>, local: ClassId, prefixed: ClassId) {
    forall a | a in actions :: a.classId == if a.Redemption? then local else prefixed
  }

  /** Storing one class per side loses nothing: both sides come out whole and in order. */
  lemma {:induction false} AggregateKeepsAll(
      uri: Option<string>, data: Option<Binary>, actions: seq<Action>, local: ClassId, prefixed: ClassId)
    requires OneClassPerSide(actions, local, prefixed)
    ensures var a := ActionAggregator(uri, data, None, None).AddAll(actions);
            && a.classUri == uri && a.classData == data
            && a.redemption == (if Redeemed(actions) == [] then None
                                else Some(VoucherRedemption(Class(local, uri, data), Redeemed(actions))))
            && a.creation == (if Created(actions) == [] then None
                              else Some(VoucherCreation(Class(prefixed, uri, data), Created(actions))))
  {
    if actions != [] {
      var init, a := actions[..|actions| - 1], actions[|actions| - 1];
      AggregateKeepsAll(uri, data, init, local, prefixed);
      assert a in actions;
      if a.Redemption? {
        assert Created(actions) == Created(init);
        assert Redeemed(actions) == Redeemed(init) + [a.tokenId];
        assert Redeemed(init) == [] ==> Redeemed(actions) == [a.tokenId];
      } else {
        assert Redeemed(actions) == Redeemed(init);
        assert Created(actions) == Created(init) + [a.token];
        assert Created(init) == [] ==> Created(actions) == [a.token];
      }
    }
  }

  function Ids(ts: seq<Token>): seq<TokenId> {
    if ts == [] then [] else Ids(ts[..|ts| - 1]) + [ts[|ts| - 1].id]
  }

  /** Each action is about its own token. */
  predicate ActOn(actions: seq<Action>, ts: seq<Token>) {
    && |actions| == |ts|
    && forall i | 0 <= i < |ts| ::
         match actions[i]
         case Redemption(_, tokenId) => tokenId == ts[i].id
         case Creation(_, token) => token == ts[i]
  }

  lemma SumSnoc<T>(a: seq<T>, b: seq<T>, c: seq<T>, a': seq<T>, b': seq<T>, c': seq<T>, t: T)
    requires multiset(a) + multiset(b) == multiset(c) && c' == c + [t]
    requires (a' == a + [t] && b' == b) || (a' == a && b' == b + [t])
    ensures multiset(a') + multiset(b') == multiset(c')
  {
  }

  /** What the last action adds to its side. */
  lemma SidesSnoc(actions: seq<Action>)
    requires actions != []
    ensures var init, a := actions[..|actions| - 1], actions[|actions| - 1];
            match a
            case Redemption(_, t) => Redeemed(actions) == Redeemed(init) + [t] && Created(actions) == Created(init)
            case Creation(_, t) => Redeemed(actions) == Redeemed(init) && Created(actions) == Created(init) + [t]
  {
  }

  lemma IdsSnoc(ts: seq<Token>, t: Token)
    requires ts != [] && ts[|ts| - 1] == t
    ensures Ids(ts) == Ids(ts[..|ts| - 1]) + [t.id]
  {
  }

  lemma ActOnInit(actions: seq<Action>, ts: seq<Token>)
    requires ActOn(actions, ts) && ts != []
    ensures ActOn(actions[..|ts| - 1], ts[..|ts| - 1])
  {
  }

  /** The tokens of a packet are split between the two sides, none lost and none invented. */
  lemma {:induction false} SidesPartition(ts: seq<Token>, actions: seq<Action>)
    requires ActOn(actions, ts)
    ensures multiset(Redeemed(actions)) + multiset(Ids(Created(actions))) == multiset(Ids(ts))
  {
    if ts != [] {
      var n := |ts| - 1;
      ActOnInit(actions, ts);
      SidesPartition(ts[..n], actions[..n]);
      SidesSnoc(actions);
      IdsSnoc(ts, ts[n]);
      if actions[n].Creation? {
        IdsSnoc(Created(actions), ts[n]);
        assert Created(actions)[..|Created(actions)| - 1] == Created(actions[..n]);
      }
      SumSnoc(
        Redeemed(actions[..n]), Ids(Created(actions[..n])), Ids(ts[..n]),
        Redeemed(actions), Ids(Created(actions)), Ids(ts), ts[n].id);
    }
  }

  /** `ts` is an interleaving of the two sides, each in its own order. */
  predicate Interleave(ts: seq<Token>, redeemed: seq<TokenId>, created: seq<Token>) {
    if ts == [] then redeemed == [] && created == []
    else
      var init, t := ts[..|ts| - 1], ts[|ts| - 1];
      || (redeemed != [] && redeemed[|redeemed| - 1] == t.id && Interleave(init, redeemed[..|redeemed| - 1], created))
      || (created != [] && created[|created| - 1] == t && Interleave(init, redeemed, created[..|created| - 1]))
  }

  lemma {:induction false} SidesInterleave(ts: seq<Token>, actions: seq<Action>)
    requires ActOn(actions, ts)
    ensures Interleave(ts, Redeemed(actions), Created(actions))
  {
    if ts != [] {
      var n := |ts| - 1;
      ActOnInit(actions, ts);
      SidesInterleave(ts[..n], actions[..n]);
      SidesSnoc(actions);
      if actions[n].Redemption? {
        assert Redeemed(actions)[..|Redeemed(actions)| - 1] == Redeemed(actions[..n]);
      } else {
        assert Created(actions)[..|Created(actions)| - 1] == Created(actions[..n]);
      }
    }
  }
}
