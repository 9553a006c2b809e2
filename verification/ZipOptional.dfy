/** `zip-optional`: an iterator that pairs each item with an item of a second iterator, if there is one. */
module ZipOptional {
  import opened Types
  import opened Receive

  lemma OneMore<T>(all: seq<T>, items: seq<T>, left: seq<T>)
    requires all == items + left && left != []
    ensures all == items + [left[0]] + left[1..]
  {
  }

  class ZipOptional<A, B> {
    /** What the two wrapped iterators have yet to yield. */
    var a: seq<A>
    var b: Option<seq<B>>

    constructor (a: seq<A>, b: Option<seq<B>>)
      ensures this.a == a && this.b == b
    {
      this.a, this.b := a, b;
    }

    ghost function Remaining(): seq<(A, Option<B>)>
      reads this
    {
      Zip(a, b)
    }

    /** Yields what remains, item by item; once it ends it stays ended, although `a` moves on when `b` has run out. */
    method Next() returns (item: Option<(A, Option<B>)>)
      modifies this
      ensures old(Remaining()) == [] ==> item == None && Remaining() == []
      ensures old(Remaining()) != [] ==> item == Some(old(Remaining())[0]) && Remaining() == old(Remaining())[1..]
      ensures |a| == (if |old(a)| == 0 then 0 else |old(a)| - 1)
    {
      if |a| == 0 {
        return None;
      }
      var first := a[0];
      a := a[1..];
      match b {
        case None =>
          return Some((first, None));
        case Some(rest) =>
          if |rest| == 0 {
            return None;
          }
          b := Some(rest[1..]);
          return Some((first, Some(rest[0])));
      }
    }

    method Drain() returns (items: seq<(A, Option<B>)>)
      modifies this
      ensures items == old(Remaining()) && Remaining() == []
    {
      items := [];
      ghost var all, left := Remaining(), Remaining();
      var item := Next();
      while item.Some?
        invariant all == items + left
        invariant left == [] ==> item == None && Remaining() == []
        invariant left != [] ==> item == Some(left[0]) && Remaining() == left[1..]
        decreases |left|
      {
        OneMore(all, items, left);
        items := items + [item.value];
        left := left[1..];
        item := Next();
      }
    }
  }
}
