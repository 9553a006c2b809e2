/** The cw721-base contracts on a chain, as far as the bridge relies on them. */
module Cw721 {
  import opened Types
  import opened ClassIds

  datatype Collection = Collection(name: string, minter: Addr)

  datatype NftId = NftId(contract: Addr, token: TokenId)

  datatype Ledger = Ledger(collections: map<Addr, Collection>, nfts: map<NftId, Nft>)

  /** A message from `sender`; `None` when the contract rejects it. */
  function Perform(sender: Addr, l: Ledger, m: NftMsg): Option<Ledger> {
    match m
    case Transfer(contract, token, recipient) =>
      var id := NftId(contract, token);
      if id !in l.nfts || l.nfts[id].owner != sender then None
      else Some(l.(nfts := l.nfts[id := l.nfts[id].(owner := recipient)]))
    case Burn(contract, token) =>
      var id := NftId(contract, token);
      if id !in l.nfts || l.nfts[id].owner != sender then None
      else Some(l.(nfts := l.nfts - {id}))
    case Mint(contract, token, uri, owner) =>
      var id := NftId(contract, token);
      if contract !in l.collections || l.collections[contract].minter != sender || id in l.nfts then None
      else Some(l.(nfts := l.nfts[id := Nft(owner, uri)]))
    case Instantiate(contract, name, minter) =>
      // The chain picks a fresh address; addresses contain no '/'.
      if contract in l.collections || contract == sender || contract == "" || !SlashFree(contract) then None
      else Some(l.(collections := l.collections[contract := Collection(name, minter)]))
  }

  function PerformAll(sender: Addr, l: Ledger, ms: seq<NftMsg>): Option<Ledger>
    decreases |ms|
  {
    if ms == [] then Some(l)
    else
      match Perform(sender, l, ms[0])
      case None => None
      case Some(l1) => PerformAll(sender, l1, ms[1..])
  }

  lemma {:induction false} PerformAllAppend(sender: Addr, l: Ledger, a: seq<NftMsg>, b: seq<NftMsg>)
    ensures PerformAll(sender, l, a + b) ==
            match PerformAll(sender, l, a) case None => None case Some(l1) => PerformAll(sender, l1, b)
    decreases |a|
  {
    if a == [] {
      assert a + b == b;
    } else {
      assert (a + b)[0] == a[0] && (a + b)[1..] == a[1..] + b;
      match Perform(sender, l, a[0]) {
        case None =>
        case Some(l1) => PerformAllAppend(sender, l1, a[1..], b);
      }
    }
  }

  /** NFTs belong to collections, and contract addresses look like addresses. */
  predicate ValidLedger(l: Ledger) {
    && (forall id | id in l.nfts :: id.contract in l.collections)
    && (forall a | a in l.collections :: a != "" && SlashFree(a))
  }

  lemma {:induction false} PerformAllKeepsValid(sender: Addr, l: Ledger, ms: seq<NftMsg>)
    requires ValidLedger(l) && PerformAll(sender, l, ms).Some?
    ensures ValidLedger(PerformAll(sender, l, ms).value)
    ensures forall a | a in l.collections ::
              && a in PerformAll(sender, l, ms).value.collections
              && PerformAll(sender, l, ms).value.collections[a] == l.collections[a]
    ensures sender !in l.collections ==> sender !in PerformAll(sender, l, ms).value.collections
    decreases |ms|
  {
    if ms != [] {
      PerformAllKeepsValid(sender, Perform(sender, l, ms[0]).value, ms[1..]);
    }
  }

  /** An instantiated collection is new and has an address of its own. */
  lemma {:induction false} PerformAllInstantiates(sender: Addr, l: Ledger, ms: seq<NftMsg>, m: NftMsg)
    requires PerformAll(sender, l, ms).Some? && m in ms && m.Instantiate? && ValidLedger(l)
    ensures m.contract !in l.collections && m.contract != sender && m.contract != "" && SlashFree(m.contract)
    ensures var l' := PerformAll(sender, l, ms).value;
            m.contract in l'.collections && l'.collections[m.contract] == Collection(m.name, m.minter)
    decreases |ms|
  {
    var l1 := Perform(sender, l, ms[0]).value;
    PerformAllKeepsValid(sender, l, [ms[0]]);
    if m == ms[0] {
      PerformAllKeepsValid(sender, l1, ms[1..]);
    } else {
      PerformAllInstantiates(sender, l1, ms[1..], m);
    }
  }

  /** Every NFT a message names ends with `to`. */
  predicate GivesTo(m: NftMsg, to: Addr) {
    match m
    case Transfer(_, _, recipient) => recipient == to
    case Mint(_, _, _, owner) => owner == to
    case Instantiate(_, _, _) => true
    case Burn(_, _) => false
  }

  predicate Names(m: NftMsg, id: NftId) {
    (m.Transfer? || m.Mint?) && id == NftId(m.contract, m.token)
  }

  /**
   When every message of a batch succeeds, each NFT it transfers or mints is the recipient's, and a
   minted NFT is new and has the uri of its message.
   */
  lemma {:induction false} PerformAllGives(sender: Addr, l: Ledger, ms: seq<NftMsg>, to: Addr)
    requires PerformAll(sender, l, ms).Some? && forall m | m in ms :: GivesTo(m, to)
    ensures var l' := PerformAll(sender, l, ms).value;
            && (forall id | id in l.nfts ::
                  && id in l'.nfts && l'.nfts[id].uri == l.nfts[id].uri
                  && (l'.nfts[id].owner == l.nfts[id].owner || (l'.nfts[id].owner == to && l.nfts[id].owner == sender)))
            && (forall m, id | m in ms && Names(m, id) :: id in l'.nfts && l'.nfts[id].owner == to)
            && (forall m, id | m in ms && Names(m, id) && m.Mint? :: id !in l.nfts && l'.nfts[id].uri == m.uri)
    decreases |ms|
  {
    if ms != [] {
      assert GivesTo(ms[0], to) by { assert ms[0] in ms; }
      PerformAllGives(sender, Perform(sender, l, ms[0]).value, ms[1..], to);
      assert forall m | m in ms :: m == ms[0] || m in ms[1..];
    }
  }

  /** NFTs that no message of a batch names stay as they were. */
  lemma {:induction false} PerformAllFrame(sender: Addr, l: Ledger, ms: seq<NftMsg>, id: NftId)
    requires PerformAll(sender, l, ms).Some?
    requires forall m | m in ms :: !Names(m, id) && !m.Burn?
    ensures var l' := PerformAll(sender, l, ms).value;
            (id in l'.nfts <==> id in l.nfts) && (id in l.nfts ==> l'.nfts[id] == l.nfts[id])
    decreases |ms|
  {
    if ms != [] {
      assert ms[0] in ms && forall m | m in ms[1..] :: m in ms;
      PerformAllFrame(sender, Perform(sender, l, ms[0]).value, ms[1..], id);
    }
  }

  /** Transfers create nothing, and move only what the sender owns. */
  lemma {:induction false} TransfersNeedOwner(sender: Addr, l: Ledger, ms: seq<NftMsg>, m: NftMsg)
    requires PerformAll(sender, l, ms).Some? && m in ms && forall n | n in ms :: n.Transfer?
    ensures var id := NftId(m.contract, m.token);
            id in l.nfts && l.nfts[id].owner == sender
    decreases |ms|
  {
    assert ms[0] in ms;
    if m != ms[0] {
      assert forall n | n in ms[1..] :: n in ms;
      TransfersNeedOwner(sender, Perform(sender, l, ms[0]).value, ms[1..], m);
    }
  }
}
