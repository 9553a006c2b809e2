/** Per-chain maps over keys, lifted to maps over the locations of a network. */
module Views {
  import opened Types
  import opened Custody

  function At(a: ChainId, k: Key): Loc {
    Loc(a, k.classId, k.tokenId)
  }

  function KeyAt(l: Loc): Key {
    Key(l.classId, l.tokenId)
  }

  ghost function Look<K, V>(m: imap<K, V>, k: K): Option<V> {
    if k in m then Some(m[k]) else None
  }

  ghost function Put<K, V>(m: imap<K, V>, k: K, o: Option<V>): imap<K, V> {
    match o
    case Some(x) => m[k := x]
    case None => m - {k}
  }

  ghost function Widen<K, V>(m: map<K, V>): imap<K, V> {
    imap k | k in m :: m[k]
  }

  /** What `f` sees on each chain, by location. */
  ghost function Lift<A, V>(chains: map<ChainId, A>, f: A -> imap<Key, V>): imap<Loc, V> {
    imap l: Loc | l.chain in chains && KeyAt(l) in f(chains[l.chain]) :: f(chains[l.chain])[KeyAt(l)]
  }

  /** Changing one key of one chain changes one location. */
  lemma LiftPut<A, V(!new)>(chains: map<ChainId, A>, f: A -> imap<Key, V>, a: ChainId, c: A, k: Key, o: Option<V>)
    requires a in chains && f(c) == Put(f(chains[a]), k, o)
    ensures Lift(chains[a := c], f) == Put(Lift(chains, f), At(a, k), o)
  {
  }

  lemma LiftSame<A, V(!new)>(chains: map<ChainId, A>, f: A -> imap<Key, V>, a: ChainId, c: A)
    requires a in chains && f(c) == f(chains[a])
    ensures Lift(chains[a := c], f) == Lift(chains, f)
  {
  }

  lemma WidenPut<K(!new), V(!new)>(m: map<K, V>, k: K, x: V)
    ensures Widen(m[k := x]) == Put(Widen(m), k, Some(x))
  {
  }

  lemma WidenRemove<K(!new), V(!new)>(m: map<K, V>, k: K)
    ensures Widen(m - {k}) == Put(Widen(m), k, None)
  {
  }
}
