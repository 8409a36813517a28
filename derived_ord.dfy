/**
  The order Rust generates for `#[derive(PartialOrd, Ord)]`.

  A derived `cmp` compares two values of an enum by the position of their
  variants in the declaration first and, for the same variant, compares the
  fields in declaration order, stopping at the first field that differs; a
  struct is an enum with one variant, and a `Vec` compares element by element,
  a proper prefix coming first. A `Term` is a value as that comparison sees it:
  `tag` is the variant's position (or an integer's value) and `fields` are the
  encoded fields (or a vector's elements), so one comparison on terms gives the
  derived order of every type that is encoded into them injectively.
*/
module DerivedOrd {

  /** Rust's `std::cmp::Ordering`. */
  datatype Ordering = Less | Equal | Greater {

    /** `Ordering::reverse`. */
    function Reverse(): (r: Ordering)
      ensures r == Less <==> this == Greater
      ensures r == Equal <==> this == Equal
    {
      match this
      case Less => Greater
      case Equal => Equal
      case Greater => Less
    }
  }

  /** `Ordering::then`: the first comparison decides unless it is `Equal`. */
  function Then(first: Ordering, second: Ordering): Ordering
  {
    if first == Equal then second else first
  }

  /** `cmp` on unsigned integers. */
  function CmpNat(a: nat, b: nat): (r: Ordering)
    ensures r == Less <==> a < b
    ensures r == Equal <==> a == b
    ensures r == Greater <==> a > b
  {
    if a < b then Less else if a == b then Equal else Greater
  }

  datatype Term = Node(tag: nat, fields: seq<Term>)

  /** A term made of an integer alone. */
  function Atom(n: nat): Term
  {
    Node(n, [])
  }

  /** The derived comparison: tag first, then the fields lexicographically. */
  function Cmp(a: Term, b: Term): Ordering
    decreases a
  {
    Then(CmpNat(a.tag, b.tag), CmpSeq(a.fields, b.fields))
  }

  /** Lexicographic comparison of sequences; a proper prefix is smaller. */
  function CmpSeq(xs: seq<Term>, ys: seq<Term>): Ordering
    decreases xs
  {
    if xs == [] then (if ys == [] then Equal else Less)
    else if ys == [] then Greater
    else Then(Cmp(xs[0], ys[0]), CmpSeq(xs[1..], ys[1..]))
  }

  predicate Lt(a: Term, b: Term)
  {
    Cmp(a, b) == Less
  }

  /** Swapping the operands reverses the answer. */
  lemma {:induction false} CmpReverse(a: Term, b: Term)
    ensures Cmp(b, a) == Cmp(a, b).Reverse()
    decreases a
  {
    CmpSeqReverse(a.fields, b.fields);
  }

  lemma {:induction false} CmpSeqReverse(xs: seq<Term>, ys: seq<Term>)
    ensures CmpSeq(ys, xs) == CmpSeq(xs, ys).Reverse()
    decreases xs
  {
    if xs != [] && ys != [] {
      CmpReverse(xs[0], ys[0]);
      CmpSeqReverse(xs[1..], ys[1..]);
    }
  }

  /** The comparison answers `Equal` exactly on equal terms. */
  lemma {:induction false} CmpEqual(a: Term, b: Term)
    ensures Cmp(a, b) == Equal <==> a == b
    decreases a
  {
    CmpSeqEqual(a.fields, b.fields);
  }

  lemma {:induction false} CmpSeqEqual(xs: seq<Term>, ys: seq<Term>)
    ensures CmpSeq(xs, ys) == Equal <==> xs == ys
    decreases xs
  {
    if xs != [] && ys != [] {
      CmpEqual(xs[0], ys[0]);
      CmpSeqEqual(xs[1..], ys[1..]);
      assert xs == [xs[0]] + xs[1..];
      assert ys == [ys[0]] + ys[1..];
    }
  }

  /** `Less` is transitive. */
  lemma {:induction false} CmpTrans(a: Term, b: Term, c: Term)
    requires Cmp(a, b) == Less && Cmp(b, c) == Less
    ensures Cmp(a, c) == Less
    decreases a
  {
    if a.tag == b.tag == c.tag {
      CmpSeqTrans(a.fields, b.fields, c.fields);
    }
  }

  lemma {:induction false} CmpSeqTrans(xs: seq<Term>, ys: seq<Term>, zs: seq<Term>)
    requires CmpSeq(xs, ys) == Less && CmpSeq(ys, zs) == Less
    ensures CmpSeq(xs, zs) == Less
    decreases xs
  {
    if xs != [] {
      CmpEqual(xs[0], ys[0]);
      CmpEqual(ys[0], zs[0]);
      CmpEqual(xs[0], zs[0]);
      if Cmp(xs[0], ys[0]) == Less && Cmp(ys[0], zs[0]) == Less {
        CmpTrans(xs[0], ys[0], zs[0]);
      } else if Cmp(xs[0], ys[0]) == Equal && Cmp(ys[0], zs[0]) == Equal {
        CmpSeqTrans(xs[1..], ys[1..], zs[1..]);
      }
    }
  }

  /** A one-field value compares like its field. */
  lemma CmpSeqOne(x: Term, y: Term)
    ensures CmpSeq([x], [y]) == Cmp(x, y)
  {
    assert [x][1..] == [] && [y][1..] == [];
  }

  /** A two-field value compares by its first field, then by its second. */
  lemma CmpSeqTwo(x1: Term, x2: Term, y1: Term, y2: Term)
    ensures CmpSeq([x1, x2], [y1, y2]) == Then(Cmp(x1, y1), Cmp(x2, y2))
  {
    assert [x1, x2][1..] == [x2] && [y1, y2][1..] == [y2];
    CmpSeqOne(x2, y2);
  }

  /** `Lt` is a strict total order on terms. */
  lemma StrictTotalOrder(a: Term, b: Term, c: Term)
    ensures !Lt(a, a)
    ensures Lt(a, b) ==> !Lt(b, a)
    ensures Lt(a, b) && Lt(b, c) ==> Lt(a, c)
    ensures a == b || Lt(a, b) || Lt(b, a)
  {
    CmpEqual(a, a);
    CmpEqual(a, b);
    CmpReverse(a, b);
    if Lt(a, b) && Lt(b, c) {
      CmpTrans(a, b, c);
    }
  }
}
