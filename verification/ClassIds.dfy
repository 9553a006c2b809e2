/** Class-ID prefixes: one "port/channel/" per hop, the latest hop outermost. */
module ClassIds {
  import opened Types

  predicate SlashFree(s: string) {
    '/' !in s
  }

  /** ICS-24 identifiers contain no '/'. */
  predicate ValidEndpoint(e: Endpoint) {
    SlashFree(e.port) && SlashFree(e.channel)
  }

  function EndpointPrefix(e: Endpoint): string {
    e.port + "/" + e.channel + "/"
  }

  function TryPopSourcePrefix(source: Endpoint, classId: ClassId): Option<ClassId> {
    var prefix := EndpointPrefix(source);
    if prefix <= classId then Some(classId[|prefix|..]) else None
  }

  /** Stripping undoes adding, and succeeds only on strings built by adding. */
  lemma PopIsInverse(e: Endpoint, classId: ClassId, rest: ClassId)
    ensures TryPopSourcePrefix(e, classId) == Some(rest) <==> classId == EndpointPrefix(e) + rest
    ensures TryPopSourcePrefix(e, classId) == Some(rest) <==> classId == e.port + "/" + e.channel + "/" + rest
  {
    var prefix := EndpointPrefix(e);
    if prefix <= classId {
      assert classId == prefix + classId[|prefix|..];
    }
    if classId == prefix + rest {
      assert classId[|prefix|..] == rest;
    }
  }

  /** The first '/' splits a string in only one way. */
  lemma SlashSplitsOnce(a: string, x: string, b: string, y: string)
    requires SlashFree(a) && SlashFree(b)
    requires a + "/" + x == b + "/" + y
    ensures a == b && x == y
  {
    var s := a + "/" + x;
    var s' := b + "/" + y;
    assert s[|a|] == '/' && s'[|b|] == '/';
    assert forall i | 0 <= i < |a| :: s[i] == a[i] != '/';
    assert forall i | 0 <= i < |b| :: s'[i] == b[i] != '/';
    assert |a| == |b|;
    assert s[..|a|] == a && s'[..|b|] == b;
    assert s[|a| + 1..] == x && s'[|b| + 1..] == y;
  }

  /** Endpoint prefixes are prefix-free: a prefixed class ID names one endpoint and one remainder. */
  lemma PrefixInjective(e: Endpoint, x: ClassId, f: Endpoint, y: ClassId)
    requires ValidEndpoint(e) && ValidEndpoint(f)
    requires EndpointPrefix(e) + x == EndpointPrefix(f) + y
    ensures e == f && x == y
  {
    assert EndpointPrefix(e) + x == e.port + "/" + (e.channel + "/" + x);
    assert EndpointPrefix(f) + y == f.port + "/" + (f.channel + "/" + y);
    SlashSplitsOnce(e.port, e.channel + "/" + x, f.port, f.channel + "/" + y);
    SlashSplitsOnce(e.channel, x, f.channel, y);
  }

  /** At most one endpoint's prefix can be stripped from a class ID. */
  lemma PopIsUnique(e: Endpoint, f: Endpoint, classId: ClassId)
    requires ValidEndpoint(e) && ValidEndpoint(f)
    requires TryPopSourcePrefix(e, classId).Some? && TryPopSourcePrefix(f, classId).Some?
    ensures e == f
  {
    var x, y := TryPopSourcePrefix(e, classId).value, TryPopSourcePrefix(f, classId).value;
    PopIsInverse(e, classId, x);
    PopIsInverse(f, classId, y);
    PrefixInjective(e, x, f, y);
  }

  lemma PrefixedHasSlash(e: Endpoint, x: ClassId)
    ensures !SlashFree(EndpointPrefix(e) + x)
  {
    assert (EndpointPrefix(e) + x)[|e.port|] == '/';
  }

  /** The class ID of `base` after the hops of `path`, the latest hop first. */
  function Encode(path: seq<Endpoint>, base: ClassId): ClassId {
    if path == [] then base else EndpointPrefix(path[0]) + Encode(path[1..], base)
  }

  /** A class ID of any depth decodes to one hop path and one base class. */
  lemma {:induction false} EncodeInjective(p: seq<Endpoint>, b: ClassId, q: seq<Endpoint>, c: ClassId)
    requires forall e :: e in p || e in q ==> ValidEndpoint(e)
    requires SlashFree(b) && SlashFree(c)
    requires Encode(p, b) == Encode(q, c)
    ensures p == q && b == c
  {
    if p == [] && q != [] {
      PrefixedHasSlash(q[0], Encode(q[1..], c));
    } else if p != [] && q == [] {
      PrefixedHasSlash(p[0], Encode(p[1..], b));
    } else if p != [] {
      PrefixInjective(p[0], Encode(p[1..], b), q[0], Encode(q[1..], c));
      EncodeInjective(p[1..], b, q[1..], c);
      assert p == [p[0]] + p[1..] && q == [q[0]] + q[1..];
    }
  }
}
