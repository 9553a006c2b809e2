/** Exactly when a packet with arbitrary contents succeeds, and what becomes of its tokens when it does not. */
module Outcome {
  import opened Types
  import opened ClassIds
  import opened Receive
  import opened Handlers
  import opened Invariants
  import opened Runs
  import opened Cw721
  import opened Chain
  import opened Delivery
  import opened Isolation
  import opened Effects

  // ---------- Batches of messages ----------

  predicate NoRepeats(ids: seq<TokenId>) {
    forall i, j | 0 <= i < j < |ids| :: ids[i] != ids[j]
  }

  predicate OwnsAll(l: Ledger, owner: Addr, contract: Addr, ids: seq<TokenId>) {
    forall t | t in ids :: NftId(contract, t) in l.nfts && l.nfts[NftId(contract, t)].owner == owner
  }

  function Transferred(l: Ledger, contract: Addr, ids: seq<TokenId>, to: Addr): Ledger {
    l.(nfts := map id | id in l.nfts ::
                 if id.contract == contract && id.token in ids then l.nfts[id].(owner := to) else l.nfts[id])
  }

  lemma TransferredSnoc(l: Ledger, contract: Addr, ids: seq<TokenId>, to: Addr)
    requires ids != [] && NftId(contract, ids[|ids| - 1]) in l.nfts
    ensures var n := |ids| - 1;
            var l1 := Transferred(l, contract, ids[..n], to);
            var id := NftId(contract, ids[n]);
            Transferred(l, contract, ids, to) == l1.(nfts := l1.nfts[id := l1.nfts[id].(owner := to)])
  {
    var n := |ids| - 1;
    assert ids == ids[..n] + [ids[n]];
    var l1 := Transferred(l, contract, ids[..n], to);
    var id := NftId(contract, ids[n]);
    assert Transferred(l, contract, ids, to).nfts == l1.nfts[id := l1.nfts[id].(owner := to)];
  }

  lemma OwnsSnoc(l: Ledger, owner: Addr, contract: Addr, ids: seq<TokenId>)
    requires ids != []
    ensures OwnsAll(l, owner, contract, ids) <==>
            OwnsAll(l, owner, contract, ids[..|ids| - 1]) && OwnsAll(l, owner, contract, [ids[|ids| - 1]])
  {
    assert ids == ids[..|ids| - 1] + [ids[|ids| - 1]];
  }

  lemma RepeatsSnoc(ids: seq<TokenId>)
    requires ids != []
    ensures NoRepeats(ids) <==> NoRepeats(ids[..|ids| - 1]) && ids[|ids| - 1] !in ids[..|ids| - 1]
  {
    var n := |ids| - 1;
    if ids[n] in ids[..n] {
      var i :| 0 <= i < n && ids[..n][i] == ids[n];
      assert ids[i] == ids[n];
    }
    if NoRepeats(ids) {
      forall i, j | 0 <= i < j < n ensures ids[..n][i] != ids[..n][j] {
        assert ids[i] != ids[j];
      }
    }
  }

  /** Transfers of a batch go through exactly when the sender owns all, and none twice unless to itself. */
  lemma {:induction false} TransfersRun(sender: Addr, l: Ledger, contract: Addr, ids: seq<TokenId>, to: Addr)
    ensures PerformAll(sender, l, Transfers(contract, ids, to)) ==
            if OwnsAll(l, sender, contract, ids) && (NoRepeats(ids) || to == sender)
            then Some(Transferred(l, contract, ids, to)) else None
  {
    if ids == [] {
      assert Transferred(l, contract, ids, to).nfts == l.nfts;
    } else {
      var n := |ids| - 1;
      var last := Transfer(contract, ids[n], to);
      TransfersRun(sender, l, contract, ids[..n], to);
      PerformAllAppend(sender, l, Transfers(contract, ids[..n], to), [last]);
      RepeatsSnoc(ids);
      OwnsSnoc(l, sender, contract, ids);
      if PerformAll(sender, l, Transfers(contract, ids[..n], to)).Some? {
        PerformOne(sender, Transferred(l, contract, ids[..n], to), last);
        if NftId(contract, ids[n]) in l.nfts {
          TransferredSnoc(l, contract, ids, to);
        }
      }
    }
  }

  predicate NoneExist(l: Ledger, contract: Addr, ts: seq<Token>) {
    forall t | t in ts :: NftId(contract, t.id) !in l.nfts
  }

  function MintedAll(l: Ledger, contract: Addr, ts: seq<Token>, to: Addr): Ledger {
    if ts == [] then l
    else
      var l1 := MintedAll(l, contract, ts[..|ts| - 1], to);
      l1.(nfts := l1.nfts[NftId(contract, ts[|ts| - 1].id) := Nft(to, ts[|ts| - 1].uri)])
  }

  lemma {:induction false} MintedAllHas(l: Ledger, contract: Addr, ts: seq<Token>, to: Addr, id: NftId)
    ensures id in MintedAll(l, contract, ts, to).nfts <==>
              id in l.nfts || (id.contract == contract && Occurs(ts, id.token))
    ensures MintedAll(l, contract, ts, to).collections == l.collections
    ensures id in l.nfts && !(id.contract == contract && Occurs(ts, id.token)) ==>
              MintedAll(l, contract, ts, to).nfts[id] == l.nfts[id]
  {
    if ts != [] {
      MintedAllHas(l, contract, ts[..|ts| - 1], to, id);
      OccursSplit(ts, id.token);
    }
  }

  lemma DistinctSnoc(ts: seq<Token>)
    requires ts != []
    ensures Distinct(ts) <==> Distinct(ts[..|ts| - 1]) && !Occurs(ts[..|ts| - 1], ts[|ts| - 1].id)
  {
    var n := |ts| - 1;
    assert forall i | 0 <= i < n :: ts[..n][i] == ts[i];
  }

  lemma NoneExistSnoc(l: Ledger, contract: Addr, ts: seq<Token>)
    requires ts != []
    ensures NoneExist(l, contract, ts) <==>
              && NoneExist(l, contract, ts[..|ts| - 1])
              && NftId(contract, ts[|ts| - 1].id) !in l.nfts
  {
    assert ts == ts[..|ts| - 1] + [ts[|ts| - 1]];
  }

  /** A batch of mints goes through exactly when its tokens are different and none exists. */
  lemma {:induction false} MintsRun(sender: Addr, l: Ledger, contract: Addr, ts: seq<Token>, to: Addr)
    requires contract in l.collections && l.collections[contract].minter == sender
    ensures PerformAll(sender, l, Mints(contract, ts, to)) ==
            if Distinct(ts) && NoneExist(l, contract, ts) then Some(MintedAll(l, contract, ts, to)) else None
  {
    if ts != [] {
      var n := |ts| - 1;
      var last := Mint(contract, ts[n].id, ts[n].uri, to);
      MintsRun(sender, l, contract, ts[..n], to);
      PerformAllAppend(sender, l, Mints(contract, ts[..n], to), [last]);
      DistinctSnoc(ts);
      NoneExistSnoc(l, contract, ts);
      MintedAllHas(l, contract, ts[..n], to, NftId(contract, ts[n].id));
      PerformOne(sender, MintedAll(l, contract, ts[..n], to), last);
    }
  }

  // ---------- What a packet selects ----------

  /** No two created tokens have the same ID. */
  predicate CreatedOnce(r: Route, outgoing: map<Key, ChannelId>, ts: seq<Token>) {
    forall i, j | 0 <= i < j < |ts| && !IsRedeemed(r, outgoing, ts, i) && !IsRedeemed(r, outgoing, ts, j) ::
      ts[i].id != ts[j].id
  }

  predicate IsCreated(r: Route, outgoing: map<Key, ChannelId>, ts: seq<Token>, t: Token) {
    exists i :: 0 <= i < |ts| && !IsRedeemed(r, outgoing, ts, i) && ts[i] == t
  }

  predicate CreatedId(r: Route, outgoing: map<Key, ChannelId>, ts: seq<Token>, t: TokenId) {
    exists i :: 0 <= i < |ts| && !IsRedeemed(r, outgoing, ts, i) && ts[i].id == t
  }

  lemma PrefixIsRedeemed(r: Route, outgoing: map<Key, ChannelId>, ts: seq<Token>, n: nat, i: nat)
    requires i < n <= |ts|
    ensures ts[..n][i] == ts[i] && IsRedeemed(r, outgoing, ts[..n], i) == IsRedeemed(r, outgoing, ts, i)
  {
    assert forall j | 0 <= j <= i :: ts[..n][j] == ts[j];
  }

  /** The created tokens are those that are not redeemed, and they repeat an ID exactly when the packet does so. */
  lemma {:induction false} CreatedAre(r: Route, outgoing: map<Key, ChannelId>, ts: seq<Token>, actions: seq<Action>)
    requires Follow(r, outgoing, ts, actions)
    ensures forall t :: t in Created(actions) <==> IsCreated(r, outgoing, ts, t)
    ensures Distinct(Created(actions)) <==> CreatedOnce(r, outgoing, ts)
  {
    if ts != [] {
      var n := |ts| - 1;
      FollowInit(r, outgoing, ts, actions);
      CreatedAre(r, outgoing, ts[..n], actions[..n]);
      SidesSnoc(actions);
      assert actions[n] == ActionFor(r, outgoing, ts, n);
      IsCreatedSnoc(r, outgoing, ts);
      CreatedOnceSnoc(r, outgoing, ts);
      if !IsRedeemed(r, outgoing, ts, n) {
        var created := Created(actions);
        assert created[..|created| - 1] == Created(actions[..n]);
        DistinctSnoc(created);
        OccursIsCreated(r, outgoing, ts[..n], Created(actions[..n]), ts[n].id);
      }
    }
  }

  lemma OccursIsCreated(r: Route, outgoing: map<Key, ChannelId>, ts: seq<Token>, created: seq<Token>, t: TokenId)
    requires forall x :: x in created <==> IsCreated(r, outgoing, ts, x)
    ensures Occurs(created, t) <==> CreatedId(r, outgoing, ts, t)
  {
    if i :| 0 <= i < |created| && created[i].id == t {
      assert created[i] in created;
      assert IsCreated(r, outgoing, ts, created[i]);
    }
    if i :| 0 <= i < |ts| && !IsRedeemed(r, outgoing, ts, i) && ts[i].id == t {
      assert IsCreated(r, outgoing, ts, ts[i]);
      assert ts[i] in created;
    }
  }

  lemma IsCreatedSnoc(r: Route, outgoing: map<Key, ChannelId>, ts: seq<Token>)
    requires ts != []
    ensures forall t :: IsCreated(r, outgoing, ts, t) <==>
              IsCreated(r, outgoing, ts[..|ts| - 1], t) || (!IsRedeemed(r, outgoing, ts, |ts| - 1) && ts[|ts| - 1] == t)
  {
    var n := |ts| - 1;
    forall i | 0 <= i < n
      ensures ts[..n][i] == ts[i] && IsRedeemed(r, outgoing, ts[..n], i) == IsRedeemed(r, outgoing, ts, i)
    {
      PrefixIsRedeemed(r, outgoing, ts, n, i);
    }
    forall t | IsCreated(r, outgoing, ts[..n], t) ensures IsCreated(r, outgoing, ts, t) {
      var i :| 0 <= i < n && !IsRedeemed(r, outgoing, ts[..n], i) && ts[..n][i] == t;
      assert !IsRedeemed(r, outgoing, ts, i) && ts[i] == t;
    }
  }

  lemma CreatedOnceSnoc(r: Route, outgoing: map<Key, ChannelId>, ts: seq<Token>)
    requires ts != []
    ensures var n := |ts| - 1;
            CreatedOnce(r, outgoing, ts) <==>
            && CreatedOnce(r, outgoing, ts[..n])
            && (IsRedeemed(r, outgoing, ts, n) || !CreatedId(r, outgoing, ts[..n], ts[n].id))
  {
    var n := |ts| - 1;
    forall i | 0 <= i < n
      ensures ts[..n][i] == ts[i] && IsRedeemed(r, outgoing, ts[..n], i) == IsRedeemed(r, outgoing, ts, i)
    {
      PrefixIsRedeemed(r, outgoing, ts, n, i);
    }
    if && CreatedOnce(r, outgoing, ts[..n])
       && (IsRedeemed(r, outgoing, ts, n) || !CreatedId(r, outgoing, ts[..n], ts[n].id)) {
      forall i, j | 0 <= i < j < |ts| && !IsRedeemed(r, outgoing, ts, i) && !IsRedeemed(r, outgoing, ts, j)
        ensures ts[i].id != ts[j].id
      {
        assert ts[..n][i] == ts[i];
        if j < n { assert ts[..n][j] == ts[j]; }
      }
    }
    if CreatedOnce(r, outgoing, ts) {
      forall i, j | 0 <= i < j < n && !IsRedeemed(r, outgoing, ts[..n], i) && !IsRedeemed(r, outgoing, ts[..n], j)
        ensures ts[..n][i].id != ts[..n][j].id {
        assert ts[i].id != ts[j].id;
      }
    }
  }

  lemma CountedOnce(ids: seq<TokenId>)
    requires forall t :: multiset(ids)[t] <= 1
    ensures NoRepeats(ids)
  {
    forall i, j | 0 <= i < j < |ids| ensures ids[i] != ids[j] {
      var a, b := ids[..j], ids[j..];
      assert ids == a + b && a[i] == ids[i] && b[0] == ids[j];
      assert ids[i] in multiset(a) && ids[j] in multiset(b);
      assert multiset(ids) == multiset(a) + multiset(b);
      assert multiset(ids)[ids[i]] <= 1;
    }
  }

  /** Every token that returns and is named is redeemed, once. */
  lemma RedeemedAre(r: Route, outgoing: map<Key, ChannelId>, ts: seq<Token>, actions: seq<Action>)
    requires Follow(r, outgoing, ts, actions)
    ensures NoRepeats(Redeemed(actions))
    ensures forall t :: t in Redeemed(actions) <==> Returns(r, outgoing, t) && Occurs(ts, t)
  {
    forall t
      ensures
        && multiset(Redeemed(actions))[t] <= 1
        && (t in Redeemed(actions) <==> Returns(r, outgoing, t) && Occurs(ts, t))
    {
      RedeemedCount(r, outgoing, ts, actions, t);
      assert t in multiset(Redeemed(actions)) <==> t in Redeemed(actions);
    }
    CountedOnce(Redeemed(actions));
  }

  // ---------- The submessage ----------

  lemma SidesRun(env: Env, s: Storage, packet: Packet, redeemed: seq<TokenId>, created: seq<Token>, newAddr: Addr)
    requires packet.data.Some? && env.valid(packet.data.value.receiver) && env.valid(newAddr)
    requires redeemed != [] ==> PacketRoute(packet).local.Some? && PacketRoute(packet).local.value in s.classToNft
    ensures RunSides(env, s, packet, redeemed, created, newAddr)
         == Success((AfterSides(s, packet, created, newAddr),
                     SidesMessages(env, s, packet, redeemed, created, newAddr)))
  {
    assert RunSides(env, s, packet, redeemed, created, newAddr).Success?;
    SidesEffect(env, s, packet, redeemed, created, newAddr);
  }

  /** The ledger when both sides went through. */
  function Settled(
      env: Env, l: Ledger, s: Storage, packet: Packet, redeemed: seq<TokenId>,
      created: seq<Token>, newAddr: Addr): Ledger
    requires packet.data.Some?
    requires redeemed != [] ==> PacketRoute(packet).local.Some? && PacketRoute(packet).local.value in s.classToNft
  {
    var r, to := PacketRoute(packet), packet.data.value.receiver;
    var l1 := if redeemed == [] then l else Transferred(l, s.classToNft[r.local.value], redeemed, to);
    if created == [] then l1
    else
      var l2 := if r.prefixed in s.classToNft then l1
                else l1.(collections := l1.collections[newAddr := Collection(r.prefixed, env.self)]);
      MintedAll(l2, CollectionOf(s, r.prefixed, newAddr), created, to)
  }

  lemma CreationRuns(env: Env, l: Ledger, s: Storage, x: ClassId, created: seq<Token>, to: Addr, newAddr: Addr)
    requires x in s.classToNft ==> s.classToNft[x] in l.collections && l.collections[s.classToNft[x]].minter == env.self
    requires x !in s.classToNft ==> IsAddress(newAddr) && newAddr !in l.collections && newAddr != env.self
    ensures var l2 := if x in s.classToNft then l
                      else l.(collections := l.collections[newAddr := Collection(x, env.self)]);
            var contract := CollectionOf(s, x, newAddr);
            PerformAll(env.self, l, CreationMessages(env, s, x, created, to, newAddr)) ==
            if Distinct(created) && NoneExist(l, contract, created)
            then Some(MintedAll(l2, contract, created, to))
            else None
  {
    var contract := CollectionOf(s, x, newAddr);
    var mints := Mints(contract, created, to);
    if x in s.classToNft {
      assert CreationMessages(env, s, x, created, to, newAddr) == mints;
      MintsRun(env.self, l, contract, created, to);
    } else {
      var inst := Instantiate(newAddr, x, env.self);
      var l2 := l.(collections := l.collections[newAddr := Collection(x, env.self)]);
      PerformAllAppend(env.self, l, [inst], mints);
      PerformOne(env.self, l, inst);
      MintsRun(env.self, l2, contract, created, to);
    }
  }

  /** Both sides go through exactly when the bridge owns what it redeems and nothing it creates exists or repeats. */
  lemma SidesPerform(
      env: Env, l: Ledger, s: Storage, packet: Packet, redeemed: seq<TokenId>, created: seq<Token>, newAddr: Addr)
    requires packet.data.Some? && NoRepeats(redeemed)
    requires redeemed != [] ==> PacketRoute(packet).local.Some? && PacketRoute(packet).local.value in s.classToNft
    requires var x := PacketRoute(packet).prefixed;
             && (x in s.classToNft ==>
                   s.classToNft[x] in l.collections && l.collections[s.classToNft[x]].minter == env.self)
             && (x !in s.classToNft ==> IsAddress(newAddr) && newAddr !in l.collections && newAddr != env.self)
    ensures var r := PacketRoute(packet);
            PerformAll(env.self, l, SidesMessages(env, s, packet, redeemed, created, newAddr)) ==
            if (redeemed != [] ==> OwnsAll(l, env.self, s.classToNft[r.local.value], redeemed))
               && Distinct(created) && NoneExist(l, CollectionOf(s, r.prefixed, newAddr), created)
            then Some(Settled(env, l, s, packet, redeemed, created, newAddr)) else None
  {
    var r, to := PacketRoute(packet), packet.data.value.receiver;
    var none: seq<NftMsg> := [];
    var first := if redeemed == [] then none else Transfers(s.classToNft[r.local.value], redeemed, to);
    var second := if created == [] then none else CreationMessages(env, s, r.prefixed, created, to, newAddr);
    PerformAllAppend(env.self, l, first, second);
    if redeemed != [] {
      TransfersRun(env.self, l, s.classToNft[r.local.value], redeemed, to);
    }
    var l1 := if redeemed == [] then l else Transferred(l, s.classToNft[r.local.value], redeemed, to);
    if created != [] {
      CreationRuns(env, l1, s, r.prefixed, created, to, newAddr);
    }
  }

  // ---------- Success, decided beforehand ----------

  /**
   The bridge owns every token that the packet redeems, no token that it creates exists yet, and it
   creates none twice.
   */
  ghost predicate Deliverable(env: Env, c: Chain, packet: Packet)
    requires packet.data.Some?
  {
    var r, ts := PacketRoute(packet), Tokens(packet.data.value);
    && (forall i | 0 <= i < |ts| && IsRedeemed(r, c.s.outgoing, ts, i) ::
          var nft := NftAt(c, Key(r.local.value, ts[i].id)); nft.Some? && nft.value.owner == env.self)
    && (forall i | 0 <= i < |ts| && !IsRedeemed(r, c.s.outgoing, ts, i) :: NftAt(c, Key(r.prefixed, ts[i].id)) == None)
    && CreatedOnce(r, c.s.outgoing, ts)
  }

  lemma FirstOccurrence(r: Route, outgoing: map<Key, ChannelId>, ts: seq<Token>, t: TokenId) returns (i: nat)
    requires Returns(r, outgoing, t) && Occurs(ts, t)
    ensures i < |ts| && ts[i].id == t && IsRedeemed(r, outgoing, ts, i)
  {
    i := 0;
    while ts[i].id != t
      invariant i < |ts| && forall j | 0 <= j < i :: ts[j].id != t
      invariant exists j :: i <= j < |ts| && ts[j].id == t
      decreases |ts| - i
    {
      i := i + 1;
    }
  }

  /** Owning what is redeemed, per token and per list. */
  lemma OwnsIff(env: Env, c: Chain, r: Route, ts: seq<Token>, redeemed: seq<TokenId>)
    requires ValidChain(env, c) && forall t :: t in redeemed <==> Returns(r, c.s.outgoing, t) && Occurs(ts, t)
    ensures redeemed != [] ==> r.local.Some? && r.local.value in c.s.classToNft
    ensures (redeemed != [] ==> OwnsAll(c.ledger, env.self, c.s.classToNft[r.local.value], redeemed)) <==>
            forall i | 0 <= i < |ts| && IsRedeemed(r, c.s.outgoing, ts, i) ::
              var nft := NftAt(c, Key(r.local.value, ts[i].id)); nft.Some? && nft.value.owner == env.self
  {
    if redeemed != [] {
      assert redeemed[0] in redeemed;
      assert r.local.value in c.s.classToNft;
      var contract := c.s.classToNft[r.local.value];
      forall t | t in redeemed
        ensures exists i :: 0 <= i < |ts| && ts[i].id == t && IsRedeemed(r, c.s.outgoing, ts, i)
      {
        var i := FirstOccurrence(r, c.s.outgoing, ts, t);
      }
    }
    forall i | 0 <= i < |ts| && IsRedeemed(r, c.s.outgoing, ts, i) ensures ts[i].id in redeemed {
      assert Occurs(ts, ts[i].id);
    }
  }

  /** What does not exist yet, per token and per list. */
  lemma NoneExistIff(env: Env, c: Chain, r: Route, x: ClassId, ts: seq<Token>, created: seq<Token>, newAddr: Addr)
    requires ValidChain(env, c) && !SlashFree(x) && FreshAddress(env, c, newAddr)
    requires forall t :: t in created <==> IsCreated(r, c.s.outgoing, ts, t)
    ensures NoneExist(c.ledger, CollectionOf(c.s, x, newAddr), created) <==>
            forall i | 0 <= i < |ts| && !IsRedeemed(r, c.s.outgoing, ts, i) :: NftAt(c, Key(x, ts[i].id)) == None
  {
    forall i | 0 <= i < |ts| && !IsRedeemed(r, c.s.outgoing, ts, i) ensures ts[i] in created {
      assert IsCreated(r, c.s.outgoing, ts, ts[i]);
    }
    forall t: TokenId
      ensures NftAt(c, Key(x, t)) == None <==> NftId(CollectionOf(c.s, x, newAddr), t) !in c.ledger.nfts
    {
    }
  }

  /** A collection that the bridge instantiated for a voucher class takes mints from the bridge. */
  lemma VoucherMinter(env: Env, c: Chain, x: ClassId)
    requires ValidChain(env, c) && !SlashFree(x) && x in c.s.classToNft
    ensures c.s.classToNft[x] in c.ledger.collections && c.ledger.collections[c.s.classToNft[x]].minter == env.self
  {
  }

  /** The two sides of a packet's actions can go through. */
  ghost predicate Ready(env: Env, c: Chain, packet: Packet, newAddr: Addr, redeemed: seq<TokenId>, created: seq<Token>)
    requires
      && packet.data.Some?
      && (redeemed != [] ==> PacketRoute(packet).local.Some? && PacketRoute(packet).local.value in c.s.classToNft)
  {
    var r := PacketRoute(packet);
    && (redeemed != [] ==> OwnsAll(c.ledger, env.self, c.s.classToNft[r.local.value], redeemed))
    && Distinct(created) && NoneExist(c.ledger, CollectionOf(c.s, r.prefixed, newAddr), created)
  }

  lemma ReadyIff(env: Env, c: Chain, packet: Packet, newAddr: Addr)
    requires ValidChain(env, c) && FreshAddress(env, c, newAddr) && packet.data.Some?
    ensures var redeemed, created := Redeemed(Actions(c.s, packet)), Created(Actions(c.s, packet));
            && NoRepeats(redeemed)
            && (redeemed != [] ==> PacketRoute(packet).local.Some? && PacketRoute(packet).local.value in c.s.classToNft)
            && (Ready(env, c, packet, newAddr, redeemed, created) <==> Deliverable(env, c, packet))
  {
    var r, ts, actions := PacketRoute(packet), Tokens(packet.data.value), Actions(c.s, packet);
    ActionsMeetSpec(c.s, packet);
    RedeemedAre(r, c.s.outgoing, ts, actions);
    CreatedAre(r, c.s.outgoing, ts, actions);
    OwnsIff(env, c, r, ts, Redeemed(actions));
    PrefixedHasSlash(packet.dest, packet.data.value.classId);
    NoneExistIff(env, c, r, r.prefixed, ts, Created(actions), newAddr);
  }

  /**
   The bridge is not paused, and the packet parses, has a class, tokens, no empty optional field, a uri and
   data for each token or for none, and a receiver that is an address.
   */
  predicate Passes(env: Env, s: Storage, packet: Packet) {
    && !s.po.paused && packet.data.Some?
    && var d := packet.data.value;
    && d.classId != "" && d.tokenIds != []
    && d.classUri != Some("") && d.classData != Some([])
    && (d.tokenUris.Some? ==> |d.tokenUris.value| == |d.tokenIds|)
    && (d.tokenData.Some? ==> |d.tokenData.value| == |d.tokenIds|)
    && env.valid(d.receiver)
  }

  /** The handler's checks turn away exactly the other packets, each for a true reason. */
  lemma PassesIff(env: Env, s: Storage, packet: Packet)
    ensures PacketError(env, s, packet).None? <==> Passes(env, s, packet)
    ensures match PacketError(env, s, packet)
            case None => true
            case Some(Paused) => s.po.paused
            case Some(ParseFailed) => packet.data.None?
            case Some(InvalidAddress) => packet.data.Some? && !env.valid(packet.data.value.receiver)
            case Some(e) => packet.data.Some? && IsToBlame(packet.data.value, e)
  {
    if packet.data.Some? {
      ValidateIs(packet.data.value);
    }
  }

  /** What an accepted packet comes to. */
  lemma DeliveryIs(env: Env, c: Chain, packet: Packet, newAddr: Addr)
    requires ValidChain(env, c) && FreshAddress(env, c, newAddr) && PacketError(env, c.s, packet).None?
    ensures var redeemed, created := Redeemed(Actions(c.s, packet)), Created(Actions(c.s, packet));
            var s1 := ReceiveIbcPacket(env, c.s, packet).value.0;
            && (redeemed != [] ==> PacketRoute(packet).local.Some? && PacketRoute(packet).local.value in s1.classToNft)
            && Deliver(env, c, packet, newAddr) ==
               if Deliverable(env, c, packet)
               then (Chain(AfterSides(s1, packet, created, newAddr),
                           Settled(env, c.ledger, s1, packet, redeemed, created, newAddr)), AckSuccess)
               else (c.(s := s1), AckFail)
  {
    var x := PacketRoute(packet).prefixed;
    var redeemed, created := Redeemed(Actions(c.s, packet)), Created(Actions(c.s, packet));
    var s1 := ReceiveIbcPacket(env, c.s, packet).value.0;
    ReadyIff(env, c, packet, newAddr);
    PrefixedHasSlash(packet.dest, packet.data.value.classId);
    if x in c.s.classToNft {
      VoucherMinter(env, c, x);
    }
    DeliverSides(env, c, packet, newAddr);
    SidesRun(env, s1, packet, redeemed, created, newAddr);
    SidesPerform(env, c.ledger, s1, packet, redeemed, created, newAddr);
  }

  /** A packet, whatever it contains, succeeds exactly when it passes the checks and is deliverable. */
  lemma SucceedsIff(env: Env, c: Chain, packet: Packet, newAddr: Addr)
    requires ValidChain(env, c) && FreshAddress(env, c, newAddr)
    ensures Deliver(env, c, packet, newAddr).1 == AckSuccess <==>
              && Passes(env, c.s, packet)
              && Deliverable(env, c, packet)
  {
    PassesIff(env, c.s, packet);
    if PacketError(env, c.s, packet).None? {
      DeliveryIs(env, c, packet, newAddr);
    }
  }

  // ---------- Error acks that leave a trace ----------

  /** The handler has nothing to write: no token returns, and INCOMING already has them all. */
  predicate NothingToWrite(s: Storage, packet: Packet)
    requires packet.data.Some?
  {
    var r, ts := PacketRoute(packet), Tokens(packet.data.value);
    forall i | 0 <= i < |ts| ::
      && !Returns(r, s.outgoing, ts[i].id)
      && Key(r.prefixed, ts[i].id) in s.incoming && s.incoming[Key(r.prefixed, ts[i].id)] == r.channel
  }

  lemma NoWritesIff(s: Storage, packet: Packet)
    requires packet.data.Some?
    ensures var r, ts := PacketRoute(packet), Tokens(packet.data.value);
            (s.outgoing - RedeemedKeys(r, s.outgoing, ts) == s.outgoing
             && s.incoming + (map k | k in CreatedKeys(r, s.outgoing, ts) :: r.channel) == s.incoming)
            <==> NothingToWrite(s, packet)
  {
    var r, ts := PacketRoute(packet), Tokens(packet.data.value);
    var redeemed, created := RedeemedKeys(r, s.outgoing, ts), CreatedKeys(r, s.outgoing, ts);
    if s.outgoing - redeemed == s.outgoing && s.incoming + (map k | k in created :: r.channel) == s.incoming {
      SameMeansNothing(s, packet);
    }
    if NothingToWrite(s, packet) {
      assert redeemed == {};
      assert s.incoming + (map k | k in created :: r.channel) == s.incoming;
    }
  }

  lemma SameMeansNothing(s: Storage, packet: Packet)
    requires packet.data.Some?
    requires var r, ts := PacketRoute(packet), Tokens(packet.data.value);
             && s.outgoing - RedeemedKeys(r, s.outgoing, ts) == s.outgoing
             && s.incoming + (map k | k in CreatedKeys(r, s.outgoing, ts) :: r.channel) == s.incoming
    ensures NothingToWrite(s, packet)
  {
    var r, ts := PacketRoute(packet), Tokens(packet.data.value);
    var redeemed, created := RedeemedKeys(r, s.outgoing, ts), CreatedKeys(r, s.outgoing, ts);
    assert forall i | 0 <= i < |ts| && Returns(r, s.outgoing, ts[i].id) :: Key(r.local.value, ts[i].id) in redeemed;
    forall i | 0 <= i < |ts|
      ensures Key(r.prefixed, ts[i].id) in s.incoming && s.incoming[Key(r.prefixed, ts[i].id)] == r.channel
    {
      assert Key(r.prefixed, ts[i].id) in created;
      assert (s.incoming + (map k | k in created :: r.channel))[Key(r.prefixed, ts[i].id)] == r.channel;
    }
  }

  /**
   An error ack leaves the chain as it was, except exactly when a packet passes the checks, has something to
   write and is not deliverable.
   */
  lemma ErrorAckIsCleanIff(env: Env, c: Chain, packet: Packet, newAddr: Addr)
    requires ValidChain(env, c) && FreshAddress(env, c, newAddr)
    ensures var (c', ack) := Deliver(env, c, packet, newAddr);
            ack == AckFail && c' != c <==>
            Passes(env, c.s, packet) && !Deliverable(env, c, packet) && !NothingToWrite(c.s, packet)
  {
    SucceedsIff(env, c, packet, newAddr);
    PassesIff(env, c.s, packet);
    if PacketError(env, c.s, packet).None? && !Deliverable(env, c, packet) {
      FailedAckLeaves(env, c, packet, newAddr);
      NoWritesIff(c.s, packet);
    }
  }

  // ---------- What a success changes, for any number of tokens ----------

  lemma {:induction false} MintedAllGives(l: Ledger, contract: Addr, ts: seq<Token>, to: Addr, t: Token)
    requires t in ts && Distinct(ts)
    ensures NftId(contract, t.id) in MintedAll(l, contract, ts, to).nfts
    ensures MintedAll(l, contract, ts, to).nfts[NftId(contract, t.id)] == Nft(to, t.uri)
  {
    var n := |ts| - 1;
    if t != ts[n] {
      assert t in ts[..n];
      MintedAllGives(l, contract, ts[..n], to, t);
      DistinctSnoc(ts);
      assert Occurs(ts[..n], t.id);
    }
  }

  /** The packet redeems the key. */
  predicate RedeemsKey(s: Storage, packet: Packet, k: Key)
    requires packet.data.Some?
  {
    && PacketRoute(packet).local == Some(k.classId) && Returns(PacketRoute(packet), s.outgoing, k.tokenId)
    && Occurs(Tokens(packet.data.value), k.tokenId)
  }

  /** The packet creates the token, under its prefixed class. */
  predicate CreatesToken(s: Storage, packet: Packet, t: Token)
    requires packet.data.Some?
  {
    IsCreated(PacketRoute(packet), s.outgoing, Tokens(packet.data.value), t)
  }

  lemma SelectionIs(env: Env, c: Chain, packet: Packet, newAddr: Addr)
    requires ValidChain(env, c) && FreshAddress(env, c, newAddr) && packet.data.Some? && Deliverable(env, c, packet)
    ensures Selected(env, c, packet, Redeemed(Actions(c.s, packet)), Created(Actions(c.s, packet)))
  {
    ReadyIff(env, c, packet, newAddr);
    SidesAre(c.s, packet);
  }

  lemma SidesAre(s: Storage, packet: Packet)
    requires packet.data.Some?
    ensures forall k: Key | PacketRoute(packet).local == Some(k.classId) ::
              k.tokenId in Redeemed(Actions(s, packet)) <==> RedeemsKey(s, packet, k)
    ensures forall t :: t in Created(Actions(s, packet)) <==> CreatesToken(s, packet, t)
  {
    ActionsMeetSpec(s, packet);
    RedeemedAre(PacketRoute(packet), s.outgoing, Tokens(packet.data.value), Actions(s, packet));
    CreatedAre(PacketRoute(packet), s.outgoing, Tokens(packet.data.value), Actions(s, packet));
  }

  lemma LocalIsNotPrefixed(packet: Packet)
    requires packet.data.Some?
    ensures PacketRoute(packet).local != Some(PacketRoute(packet).prefixed)
  {
    var r, x := PacketRoute(packet), packet.data.value.classId;
    if r.local.Some? {
      PopIsInverse(packet.src, x, r.local.value);
      assert |x| == |EndpointPrefix(packet.src)| + |r.local.value|;
      assert |r.prefixed| == |EndpointPrefix(packet.dest)| + |x| > |x|;
    }
  }

  /** The ledger after both sides, NFT by NFT. */
  lemma SettledAt(
      env: Env, l: Ledger, s: Storage, packet: Packet, redeemed: seq<TokenId>,
      created: seq<Token>, newAddr: Addr, id: NftId)
    requires packet.data.Some? && Distinct(created)
    requires redeemed != [] ==> PacketRoute(packet).local.Some? && PacketRoute(packet).local.value in s.classToNft
    requires redeemed != [] ==>
               s.classToNft[PacketRoute(packet).local.value] != CollectionOf(s, PacketRoute(packet).prefixed, newAddr)
    ensures var r, to := PacketRoute(packet), packet.data.value.receiver;
            var l' := Settled(env, l, s, packet, redeemed, created, newAddr);
            if id.contract == CollectionOf(s, r.prefixed, newAddr) && Occurs(created, id.token)
            then
              && id in l'.nfts
              && forall t | t in created && t.id == id.token :: l'.nfts[id] == Nft(to, t.uri)
            else
              && (id in l'.nfts <==> id in l.nfts)
              && (id in l.nfts ==>
                    && l'.nfts[id] == if redeemed != []
                    && id.contract == s.classToNft[r.local.value]
                    && id.token in redeemed
                                   then l.nfts[id].(owner := to) else l.nfts[id])
  {
    var r, to := PacketRoute(packet), packet.data.value.receiver;
    var l1 := if redeemed == [] then l else Transferred(l, s.classToNft[r.local.value], redeemed, to);
    if created != [] {
      var l2 := if r.prefixed in s.classToNft then l1
                else l1.(collections := l1.collections[newAddr := Collection(r.prefixed, env.self)]);
      MintedAllHas(l2, CollectionOf(s, r.prefixed, newAddr), created, to, id);
      forall t | t in created && t.id == id.token && id.contract == CollectionOf(s, r.prefixed, newAddr)
        ensures Settled(env, l, s, packet, redeemed, created, newAddr).nfts[id] == Nft(to, t.uri)
      {
        MintedAllGives(l2, id.contract, created, to, t);
      }
    }
  }

  lemma CollectionsDiffer(env: Env, c: Chain, packet: Packet, newAddr: Addr)
    requires ValidChain(env, c) && FreshAddress(env, c, newAddr) && packet.data.Some?
    requires PacketRoute(packet).local.Some? && PacketRoute(packet).local.value in c.s.classToNft
    ensures c.s.classToNft[PacketRoute(packet).local.value] != CollectionOf(c.s, PacketRoute(packet).prefixed, newAddr)
  {
    LocalIsNotPrefixed(packet);
  }

  /** What the packet makes of the NFT behind a key. */
  ghost predicate Becomes(c: Chain, packet: Packet, k: Key, nft: Option<Nft>)
    requires packet.data.Some?
  {
    var to := packet.data.value.receiver;
    && (RedeemsKey(c.s, packet, k) ==> NftAt(c, k).Some? && nft == Some(NftAt(c, k).value.(owner := to)))
    && (forall t: Token
          | k.classId == PacketRoute(packet).prefixed && CreatesToken(c.s, packet, t) && t.id == k.tokenId ::
          nft == Some(Nft(to, t.uri)))
    && (!RedeemsKey(c.s, packet, k)
        && !(exists t: Token ::
               k.classId == PacketRoute(packet).prefixed && CreatesToken(c.s, packet, t) && t.id == k.tokenId)
        ==> nft == NftAt(c, k))
  }

  /** The contract behind a class other than the one created into. */
  lemma ContractStays(env: Env, c: Chain, s': Storage, x: ClassId, newAddr: Addr, y: ClassId)
    requires ValidChain(env, c) && FreshAddress(env, c, newAddr) && !SlashFree(x) && y != x
    requires (s'.classToNft == c.s.classToNft && s'.nftToClass == c.s.nftToClass)
             || (&& x !in c.s.classToNft
                 && s'.classToNft == c.s.classToNft[x := newAddr] && s'.nftToClass == c.s.nftToClass[newAddr := x])
    ensures ContractOf(s', y) == ContractOf(c.s, y) || (y == newAddr && ContractOf(s', y) == None)
    ensures ContractOf(s', y) != Some(CollectionOf(c.s, x, newAddr)) || (y == newAddr && x !in s'.classToNft)
  {
    if newAddr in c.s.classToNft {
      NativeIsItself(env, c.s, newAddr);
    }
  }

  /** The packet's two sides, as far as keys are concerned. */
  ghost predicate Selected(env: Env, c: Chain, packet: Packet, redeemed: seq<TokenId>, created: seq<Token>) {
    && packet.data.Some?
    && (redeemed != [] ==> PacketRoute(packet).local.Some? && PacketRoute(packet).local.value in c.s.classToNft)
    && (forall k: Key | PacketRoute(packet).local == Some(k.classId) ::
          k.tokenId in redeemed <==> RedeemsKey(c.s, packet, k))
    && (forall t :: t in created <==> CreatesToken(c.s, packet, t))
    && Distinct(created)
    && (redeemed != [] ==> OwnsAll(c.ledger, env.self, c.s.classToNft[PacketRoute(packet).local.value], redeemed))
  }

  /** The chain after a success, as far as NFTs are concerned. */
  ghost predicate Landed(
      env: Env, c: Chain, packet: Packet, newAddr: Addr, redeemed: seq<TokenId>, created: seq<Token>, c': Chain)
    requires Selected(env, c, packet, redeemed, created)
  {
    var x := PacketRoute(packet).prefixed;
    && c'.ledger == Settled(env, c.ledger, c.s, packet, redeemed, created, newAddr)
    && c'.s.classToNft ==
         (if created == [] || x in c.s.classToNft then c.s.classToNft else c.s.classToNft[x := newAddr])
    && c'.s.nftToClass ==
         (if created == [] || x in c.s.classToNft then c.s.nftToClass else c.s.nftToClass[newAddr := x])
  }

  lemma OtherClassBecomes(
      env: Env, c: Chain, packet: Packet, newAddr: Addr, redeemed: seq<TokenId>, created: seq<Token>, c': Chain, k: Key)
    requires ValidChain(env, c) && FreshAddress(env, c, newAddr) && Selected(env, c, packet, redeemed, created)
    requires Landed(env, c, packet, newAddr, redeemed, created, c') && k.classId != PacketRoute(packet).prefixed
    ensures Becomes(c, packet, k, NftAt(c', k))
  {
    PrefixedHasSlash(packet.dest, packet.data.value.classId);
    ContractStays(env, c, c'.s, PacketRoute(packet).prefixed, newAddr, k.classId);
    if redeemed != [] {
      CollectionsDiffer(env, c, packet, newAddr);
    }
    var a := ContractOf(c'.s, k.classId);
    if a.Some? {
      SettledAt(env, c.ledger, c.s, packet, redeemed, created, newAddr, NftId(a.value, k.tokenId));
      if redeemed != [] && a.value == c.s.classToNft[PacketRoute(packet).local.value] {
        ContractsDiffer(env, c.s, k.classId, PacketRoute(packet).local.value);
      }
    }
  }

  lemma PrefixedClassBecomes(
      env: Env, c: Chain, packet: Packet, newAddr: Addr, redeemed: seq<TokenId>, created: seq<Token>, c': Chain, k: Key)
    requires ValidChain(env, c) && FreshAddress(env, c, newAddr) && Selected(env, c, packet, redeemed, created)
    requires Landed(env, c, packet, newAddr, redeemed, created, c') && k.classId == PacketRoute(packet).prefixed
    ensures Becomes(c, packet, k, NftAt(c', k))
  {
    PrefixedHasSlash(packet.dest, packet.data.value.classId);
    LocalIsNotPrefixed(packet);
    if redeemed != [] {
      CollectionsDiffer(env, c, packet, newAddr);
    }
    var contract := CollectionOf(c.s, k.classId, newAddr);
    SettledAt(env, c.ledger, c.s, packet, redeemed, created, newAddr, NftId(contract, k.tokenId));
    OccursInCreated(created, k.tokenId);
  }

  lemma OccursInCreated(created: seq<Token>, t: TokenId)
    ensures Occurs(created, t) <==> exists x :: x in created && x.id == t
  {
    if i :| 0 <= i < |created| && created[i].id == t {
      assert created[i] in created;
    }
  }

  lemma SuccessLands(env: Env, c: Chain, packet: Packet, newAddr: Addr)
    requires
      && ValidChain(env, c)
      && FreshAddress(env, c, newAddr)
      && PacketError(env, c.s, packet).None?
      && Deliverable(env, c, packet)
    ensures var redeemed, created := Redeemed(Actions(c.s, packet)), Created(Actions(c.s, packet));
            Selected(env, c, packet, redeemed, created)
            && Landed(env, c, packet, newAddr, redeemed, created, Deliver(env, c, packet, newAddr).0)
  {
    SelectionIs(env, c, packet, newAddr);
    DeliveryIs(env, c, packet, newAddr);
  }

  /**
   A successful packet, with any number of tokens, moves what it redeems to the receiver, mints what it
   creates to the receiver, and leaves every other NFT of the chain as it was.
   */
  lemma SuccessChangesOnly(env: Env, c: Chain, packet: Packet, newAddr: Addr, k: Key)
    requires ValidChain(env, c) && FreshAddress(env, c, newAddr) && Deliver(env, c, packet, newAddr).1 == AckSuccess
    ensures packet.data.Some? && Becomes(c, packet, k, NftAt(Deliver(env, c, packet, newAddr).0, k))
  {
    var redeemed, created := Redeemed(Actions(c.s, packet)), Created(Actions(c.s, packet));
    SucceedsIff(env, c, packet, newAddr);
    SuccessLands(env, c, packet, newAddr);
    if k.classId == PacketRoute(packet).prefixed {
      PrefixedClassBecomes(env, c, packet, newAddr, redeemed, created, Deliver(env, c, packet, newAddr).0, k);
    } else {
      OtherClassBecomes(env, c, packet, newAddr, redeemed, created, Deliver(env, c, packet, newAddr).0, k);
    }
  }

  // ---------- Stranded tokens ----------

  /** The bridge owns the NFT but has forgotten where it sent it. */
  ghost predicate Stranded(env: Env, c: Chain, k: Key) {
    k !in c.s.outgoing && NftAt(c, k).Some? && NftAt(c, k).value.owner == env.self
  }

  lemma OutgoingAfter(env: Env, c: Chain, packet: Packet, newAddr: Addr)
    requires ValidChain(env, c) && FreshAddress(env, c, newAddr) && PacketError(env, c.s, packet).None?
    ensures Deliver(env, c, packet, newAddr).0.s.outgoing
         == c.s.outgoing - RedeemedKeys(PacketRoute(packet), c.s.outgoing, Tokens(packet.data.value))
  {
    DeliveryIs(env, c, packet, newAddr);
    SelectOutgoing(PacketRoute(packet), Progress(c.s.outgoing, c.s.incoming, []), Tokens(packet.data.value));
  }

  /** Whose the NFT behind a key is, after a packet that passed the checks. */
  lemma OwnerAfter(env: Env, c: Chain, packet: Packet, newAddr: Addr, k: Key)
    requires ValidChain(env, c) && FreshAddress(env, c, newAddr) && PacketError(env, c.s, packet).None?
    requires NftAt(c, k).Some? && RedeemsKey(c.s, packet, k)
    ensures var nft := NftAt(Deliver(env, c, packet, newAddr).0, k);
            nft ==
              Some(NftAt(c, k).value.(owner := if Deliverable(env, c, packet) then packet.data.value.receiver
                                               else NftAt(c, k).value.owner))
  {
    SucceedsIff(env, c, packet, newAddr);
    PassesIff(env, c.s, packet);
    if Deliverable(env, c, packet) {
      SuccessChangesOnly(env, c, packet, newAddr, k);
    } else {
      FailedAckKeeps(env, c, packet, newAddr, k);
    }
  }

  lemma FailedAckKeeps(env: Env, c: Chain, packet: Packet, newAddr: Addr, k: Key)
    requires Deliver(env, c, packet, newAddr).1 == AckFail
    ensures NftAt(Deliver(env, c, packet, newAddr).0, k) == NftAt(c, k)
  {
    FailedAckRollsBack(env, c, packet, newAddr);
  }

  lemma ErrorChangesNothing(env: Env, c: Chain, packet: Packet, newAddr: Addr)
    requires PacketError(env, c.s, packet).Some?
    ensures Deliver(env, c, packet, newAddr).0 == c
  {
  }

  /**
   A packet strands a token that is out exactly when it passes the checks, redeems the token, and is not
   deliverable for some other reason, or names the bridge itself as the receiver.
   */
  lemma StrandedIff(env: Env, c: Chain, packet: Packet, newAddr: Addr, k: Key)
    requires ValidChain(env, c) && FreshAddress(env, c, newAddr)
    requires k in c.s.outgoing && NftAt(c, k).Some? && NftAt(c, k).value.owner == env.self
    ensures Stranded(env, Deliver(env, c, packet, newAddr).0, k) <==>
            && Passes(env, c.s, packet) && RedeemsKey(c.s, packet, k)
            && (!Deliverable(env, c, packet) || packet.data.value.receiver == env.self)
  {
    PassesIff(env, c.s, packet);
    if PacketError(env, c.s, packet).Some? {
      ErrorChangesNothing(env, c, packet, newAddr);
    } else {
      OutgoingAfter(env, c, packet, newAddr);
      RedeemedLeave(PacketRoute(packet), c.s.outgoing, Tokens(packet.data.value), k);
      if RedeemsKey(c.s, packet, k) {
        OwnerAfter(env, c, packet, newAddr, k);
      }
    }
  }

  /** No message of a successful delivery names an existing NFT whose key is not in OUTGOING. */
  lemma StrandedIsNotNamed(
      env: Env, c: Chain, packet: Packet, newAddr: Addr, k: Key, redeemed: seq<TokenId>, created: seq<Token>)
    requires ValidChain(env, c) && Stranded(env, c, k) && Succeeds(env, c, packet, newAddr, redeemed, created)
    ensures var s1 := ReceiveIbcPacket(env, c.s, packet).value.0;
            var ms := SidesMessages(env, s1, packet, redeemed, created, newAddr);
            forall m | m in ms :: !Names(m, NftId(ContractOf(c.s, k.classId).value, k.tokenId)) && !m.Burn?
  {
    var s1 := ReceiveIbcPacket(env, c.s, packet).value.0;
    var ms := SidesMessages(env, s1, packet, redeemed, created, newAddr);
    var id := NftId(ContractOf(c.s, k.classId).value, k.tokenId);
    MessagesAre(env, s1, packet, redeemed, created, newAddr);
    PerformAllGives(env.self, c.ledger, ms, packet.data.value.receiver);
    forall m | m in ms ensures !Names(m, id) && !m.Burn? {
      if m.Transfer? && Names(m, id) {
        RedeemedWasOut(c.s, packet, m.token);
        ContractsDiffer(env, c.s, k.classId, PacketRoute(packet).local.value);
      }
    }
  }

  /** Another packet does not free it, whatever it contains. */
  lemma StrandedStays(env: Env, c: Chain, packet: Packet, newAddr: Addr, k: Key)
    requires ValidChain(env, c) && Stranded(env, c, k)
    ensures Stranded(env, Deliver(env, c, packet, newAddr).0, k)
  {
    if ReceiveIbcPacket(env, c.s, packet).Success? {
      SelectOutgoing(PacketRoute(packet), Progress(c.s.outgoing, c.s.incoming, []), Tokens(packet.data.value));
      if Deliver(env, c, packet, newAddr).1 == AckSuccess {
        var redeemed, created := SuccessfulDelivery(env, c, packet, newAddr);
        StaysAfterSuccess(env, c, packet, newAddr, k, redeemed, created);
      } else {
        FailedAckRollsBack(env, c, packet, newAddr);
      }
    }
  }

  lemma StaysAfterSuccess(
      env: Env, c: Chain, packet: Packet, newAddr: Addr, k: Key, redeemed: seq<TokenId>, created: seq<Token>)
    requires ValidChain(env, c) && Stranded(env, c, k) && Succeeds(env, c, packet, newAddr, redeemed, created)
    requires k !in ReceiveIbcPacket(env, c.s, packet).value.0.outgoing
    ensures Stranded(env, Deliver(env, c, packet, newAddr).0, k)
  {
    var s1 := ReceiveIbcPacket(env, c.s, packet).value.0;
    var ms := SidesMessages(env, s1, packet, redeemed, created, newAddr);
    var contract := ContractOf(c.s, k.classId).value;
    StrandedIsNotNamed(env, c, packet, newAddr, k, redeemed, created);
    PerformAllFrame(env.self, c.ledger, ms, NftId(contract, k.tokenId));
    if created != [] && PacketRoute(packet).prefixed !in s1.classToNft {
      InstantiatedIn(env, s1, packet, redeemed, created, newAddr);
      PerformAllInstantiates(env.self, c.ledger, ms, Instantiate(newAddr, PacketRoute(packet).prefixed, env.self));
      PrefixedHasSlash(packet.dest, packet.data.value.classId);
      ContractIsKept(env, c, AfterSides(s1, packet, created, newAddr), PacketRoute(packet).prefixed, newAddr, k);
    }
  }

  /** Registering a new collection does not hide an NFT that exists. */
  lemma ContractIsKept(env: Env, c: Chain, s': Storage, x: ClassId, newAddr: Addr, k: Key)
    requires
      && ValidChain(env, c)
      && !SlashFree(x)
      && x !in c.s.classToNft
      && newAddr !in c.ledger.collections
      && NftAt(c, k).Some?
    requires s'.classToNft == c.s.classToNft[x := newAddr] && s'.nftToClass == c.s.nftToClass[newAddr := x]
    ensures ContractOf(s', k.classId) == ContractOf(c.s, k.classId)
  {
  }

  lemma InstantiatedIn(env: Env, s: Storage, packet: Packet, redeemed: seq<TokenId>, created: seq<Token>, newAddr: Addr)
    requires packet.data.Some? && created != [] && PacketRoute(packet).prefixed !in s.classToNft
    requires redeemed != [] ==> PacketRoute(packet).local.Some? && PacketRoute(packet).local.value in s.classToNft
    ensures Instantiate(newAddr, PacketRoute(packet).prefixed, env.self)
         in SidesMessages(env, s, packet, redeemed, created, newAddr)
  {
    var inst := Instantiate(newAddr, PacketRoute(packet).prefixed, env.self);
    var ms := CreationMessages(env, s, PacketRoute(packet).prefixed, created, packet.data.value.receiver, newAddr);
    assert ms[0] == inst && inst in ms;
  }

  /** No sequence of packets brings a stranded token back. */
  lemma {:induction false} StrandedForGood(env: Env, c: Chain, arrivals: seq<Arrival>, k: Key)
    requires ValidChain(env, c) && Stranded(env, c, k) && forall a | a in arrivals :: a.packet.dest.port == env.port
    ensures ValidChain(env, DeliverAll(env, c, arrivals)) && Stranded(env, DeliverAll(env, c, arrivals), k)
  {
    if arrivals != [] {
      var n := |arrivals| - 1;
      var before := DeliverAll(env, c, arrivals[..n]);
      StrandedForGood(env, c, arrivals[..n], k);
      assert arrivals[n] in arrivals;
      StrandedStays(env, before, arrivals[n].packet, arrivals[n].newAddr, k);
      DeliverKeepsValid(env, before, arrivals[n].packet, arrivals[n].newAddr);
    }
  }
}
