/**
 Claims on an NFT. The vouchers made from one NFT form a chain, each standing for the one before;
 only the end of that chain is in anyone's hands.
 */
module Claims {
  import opened Custody

  /** Where the NFT behind `l` was minted. */
  ghost function Origin(G: Graph, l: Loc): Loc
    requires ValidGraph(G)
    decreases |l.classId|
  {
    if f :| CameOver(G, f, l) then
      assert Edge(G, f, l, G.parent[(f, l)]);
      Origin(G, G.parent[(f, l)])
    else l
  }

  ghost function Depth(G: Graph, l: Loc): nat
    requires ValidGraph(G)
    decreases |l.classId|
  {
    if f :| CameOver(G, f, l) then
      assert Edge(G, f, l, G.parent[(f, l)]);
      Depth(G, G.parent[(f, l)]) + 1
    else 0
  }

  lemma OneUp(G: Graph, f: End, c: Loc, l: Loc)
    requires ValidGraph(G) && Edge(G, f, c, l)
    ensures Origin(G, c) == Origin(G, l) && Depth(G, c) == Depth(G, l) + 1
  {
  }

  /** Someone outside the bridges holds the NFT, or a packet that is not settled yet carries it. */
  ghost predicate IsClaim(G: Graph, v: View, l: Loc) {
    (l in v.nfts && !Locked(G, v.nfts, l)) || CanRefund(v, l)
  }

  lemma ClaimIsLive(G: Graph, v: View, l: Loc)
    requires ValidGraph(G) && Inv(G, v) && IsClaim(G, v, l)
    ensures Live(v.nfts, v.held, l)
    ensures Locked(G, v.nfts, l) ==> l in v.held
  {
  }

  /** OUTGOING names one channel, so an NFT has one live voucher. */
  lemma OneVoucher(G: Graph, v: View, f: End, a: Loc, g: End, b: Loc, l: Loc)
    requires ValidGraph(G) && Inv(G, v) && Edge(G, f, a, l) && Edge(G, g, b, l)
    requires Live(v.nfts, v.held, a) && Live(v.nfts, v.held, b)
    ensures f == g && a == b
  {
    LiveParent(G, v, f, a, l);
    LiveParent(G, v, g, b, l);
    assert G.peer[f] == G.peer[g];
  }

  lemma {:induction false} SameDepth(G: Graph, v: View, a: Loc, b: Loc)
    requires ValidGraph(G) && Inv(G, v)
    requires Live(v.nfts, v.held, a) && Live(v.nfts, v.held, b)
    requires Origin(G, a) == Origin(G, b) && Depth(G, a) == Depth(G, b)
    ensures a == b
    decreases Depth(G, a)
  {
    if Depth(G, a) > 0 {
      var f :| CameOver(G, f, a);
      var g :| CameOver(G, g, b);
      var p, q := G.parent[(f, a)], G.parent[(g, b)];
      OneUp(G, f, a, p);
      OneUp(G, g, b, q);
      assert Live(v.nfts, v.held, p) by { LiveParent(G, v, f, a, p); }
      assert Live(v.nfts, v.held, q) by { LiveParent(G, v, g, b, q); }
      SameDepth(G, v, p, q);
      OneVoucher(G, v, f, a, g, b, p);
    }
  }

  /** Every ancestor of a live voucher is live, but locked and not in transit. */
  lemma {:induction false} AncestorAt(G: Graph, v: View, c: Loc, d: nat) returns (a: Loc)
    requires ValidGraph(G) && Inv(G, v) && Live(v.nfts, v.held, c) && d < Depth(G, c)
    ensures Live(v.nfts, v.held, a) && Depth(G, a) == d && Origin(G, a) == Origin(G, c)
    ensures Locked(G, v.nfts, a) && a !in v.held
    decreases Depth(G, c)
  {
    var f :| CameOver(G, f, c);
    a := G.parent[(f, c)];
    OneUp(G, f, c, a);
    LiveParent(G, v, f, c, a);
    if d < Depth(G, a) {
      a := AncestorAt(G, v, a, d);
    }
  }

  /** An NFT, with all its vouchers on all chains, has at most one claim. */
  lemma AtMostOneClaim(G: Graph, v: View, a: Loc, b: Loc)
    requires ValidGraph(G) && Inv(G, v)
    requires IsClaim(G, v, a) && IsClaim(G, v, b) && Origin(G, a) == Origin(G, b)
    ensures a == b
  {
    ClaimIsLive(G, v, a);
    ClaimIsLive(G, v, b);
    if Depth(G, a) < Depth(G, b) {
      var x := AncestorAt(G, v, b, Depth(G, a));
      SameDepth(G, v, a, x);
    } else if Depth(G, b) < Depth(G, a) {
      var x := AncestorAt(G, v, a, Depth(G, b));
      SameDepth(G, v, b, x);
    } else {
      SameDepth(G, v, a, b);
    }
  }

  /** Class IDs of existing NFTs are no longer than `bound`. */
  ghost predicate Bounded(v: View, bound: nat) {
    forall l | l in v.nfts :: |l.classId| <= bound
  }

  /** An NFT has a claim, unless a user let go of it or of one of its vouchers. */
  lemma {:induction false} SomeClaim(G: Graph, v: View, l: Loc, bound: nat) returns (c: Loc)
    requires ValidGraph(G) && Inv(G, v) && Live(v.nfts, v.held, l) && Bounded(v, bound)
    ensures IsClaim(G, v, c) || c in v.retired
    ensures Origin(G, c) == Origin(G, l)
    decreases bound - |l.classId|
  {
    c := l;
    if Locked(G, v.nfts, l) && l !in v.held && l !in v.retired {
      var e := End(l.chain, v.outgoing[l]);
      assert SentOut(G, v.outgoing, l, e);
      c := Voucher(G, e, l);
      assert Edge(G, G.peer[e], c, l);
      OneUp(G, G.peer[e], c, l);
      if c !in v.retired {
        c := SomeClaim(G, v, c, bound);
      }
    }
  }

  lemma NativeHasClaim(G: Graph, v: View, l: Loc, bound: nat) returns (c: Loc)
    requires ValidGraph(G) && Inv(G, v) && Native(G, l) && l in v.nfts && Bounded(v, bound)
    ensures IsClaim(G, v, c) || c in v.retired
    ensures Origin(G, c) == l
  {
    c := SomeClaim(G, v, l, bound);
  }

  lemma FaithfulToParent(G: Graph, v: View, f: End, c: Loc, l: Loc)
    requires ValidGraph(G) && Inv(G, v) && Edge(G, f, c, l) && Live(v.nfts, v.held, c)
    ensures Live(v.nfts, v.held, l) && v.nfts[c].uri == v.nfts[l].uri && Data(v.metadata, c) == Data(v.metadata, l)
  {
    LiveParent(G, v, f, c, l);
  }

  /** A live voucher carries the uri and data of the NFT it stands for, however many hops away. */
  lemma {:induction false} FaithfulToOrigin(G: Graph, v: View, l: Loc)
    requires ValidGraph(G) && Inv(G, v) && Live(v.nfts, v.held, l)
    ensures var o := Origin(G, l);
            o in v.nfts && v.nfts[l].uri == v.nfts[o].uri && Data(v.metadata, l) == Data(v.metadata, o)
    decreases Depth(G, l)
  {
    if f :| CameOver(G, f, l) {
      var p := G.parent[(f, l)];
      OneUp(G, f, l, p);
      FaithfulToParent(G, v, f, l, p);
      FaithfulToOrigin(G, v, p);
    }
  }
}
