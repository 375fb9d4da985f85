/**
 * Wire-frame shapes (shape.py).
 *
 * A `Shape` is a list of lines, each a pair of `Vector4` endpoints.
 * `set_offset` moves every endpoint in place.  The endpoints of a shape are
 * assumed to be distinct arrays (as the loader and `copy` produce them): an
 * array shared by two endpoints would be moved once per occurrence.
 */
module Shapes {
  import opened Vectors

  /** The value of a shape: its lines, each a pair of endpoint values. */
  type Lines = seq<(Vec4, Vec4)>

  /**
   * The endpoint arrays of line `k` are numbered 2k and 2k + 1 in `owner`:
   * while building a shape this keeps every endpoint array distinct.
   */
  ghost predicate Owns(owner: map<array2<real>, int>, l: (Vector4, Vector4), k: int)
  {
    && l.0.data in owner && owner[l.0.data] == 2 * k
    && l.1.data in owner && owner[l.1.data] == 2 * k + 1
  }

  /** Numbered endpoint arrays are pairwise distinct arrays. */
  lemma OwnedDistinct(lines: seq<(Vector4, Vector4)>, owner: map<array2<real>, int>)
    requires forall k | 0 <= k < |lines| :: Owns(owner, lines[k], k)
    ensures forall i, j | 0 <= i < |lines| && 0 <= j < |lines| :: lines[i].0.data != lines[j].1.data
    ensures forall i, j | 0 <= i < |lines| && 0 <= j < |lines| && i != j ::
      lines[i].0.data != lines[j].0.data && lines[i].1.data != lines[j].1.data
  {
  }

  /** The value `set_offset(o)` leaves: o's xyz added to both endpoints of every line. */
  function OffsetAll(ls: Lines, o: Vec4): (r: Lines)
    ensures |r| == |ls|
    ensures forall i | 0 <= i < |ls| :: r[i].0.w == ls[i].0.w && r[i].1.w == ls[i].1.w
  {
    seq(|ls|, i requires 0 <= i < |ls| => (Add(ls[i].0, o), Add(ls[i].1, o)))
  }

  /** Offsetting by o and then by -o restores every coordinate. */
  lemma OffsetRoundTrip(ls: Lines, o: Vec4)
    ensures OffsetAll(OffsetAll(ls, o), Scale(o, -1.0)) == ls
  {
    var r := OffsetAll(OffsetAll(ls, o), Scale(o, -1.0));
    forall i | 0 <= i < |ls| ensures r[i] == ls[i] {
      AddSubCancel(ls[i].0, o);
      AddSubCancel(ls[i].1, o);
    }
  }

  /** Two offsets in a row are one offset by their sum. */
  lemma OffsetCompose(ls: Lines, a: Vec4, b: Vec4)
    ensures OffsetAll(OffsetAll(ls, a), b) == OffsetAll(ls, Add(a, b))
  {
  }

  class Shape {
    /** The list of lines; the core never rebinds or resizes it. */
    const lines: seq<(Vector4, Vector4)>

    ghost function Repr(): set<object>
    {
      (set l | l in lines :: l.0.data as object) + (set l | l in lines :: l.1.data as object)
    }

    /** Every endpoint is a 4x1 vector, and no two endpoints share an array. */
    ghost predicate Valid()
    {
      && (forall i | 0 <= i < |lines| :: lines[i].0.Valid() && lines[i].1.Valid())
      && (forall i, j | 0 <= i < |lines| && 0 <= j < |lines| :: lines[i].0.data != lines[j].1.data)
      && (forall i, j | 0 <= i < |lines| && 0 <= j < |lines| && i != j ::
            lines[i].0.data != lines[j].0.data && lines[i].1.data != lines[j].1.data)
    }

    function Values(): (r: Lines)
      requires Valid()
      reads Repr()
      ensures |r| == |lines|
    {
      seq(|lines|, i requires 0 <= i < |lines| && lines[i].0.Valid() && lines[i].1.Valid() reads Repr() =>
        (lines[i].0.Value(), lines[i].1.Value()))
    }

    constructor (lines: seq<(Vector4, Vector4)>)
      ensures this.lines == lines
    {
      this.lines := lines;
    }

    /** `copy`: a new shape whose endpoints are fresh copies, line by line and in order. */
    method Copy() returns (c: Shape)
      requires Valid()
      ensures c.Valid() && fresh(c) && fresh(c.Repr())
      ensures c.Values() == Values()
    {
      c := FromLines(Values());
    }

    /**
     * `set_offset`: adds the offset's xyz to both endpoints of every line, in
     * place.  The offset must not be one of the shape's own endpoints.
     */
    method SetOffset(offset: Vector4)
      requires Valid() && offset.Valid() && offset.data !in Repr()
      modifies Repr()
      ensures Valid()
      ensures Values() == OffsetAll(old(Values()), offset.Value())
    {
      ghost var before := Values();
      for i := 0 to |lines|
        invariant Valid()
        invariant offset.Value() == old(offset.Value())
        invariant forall k | 0 <= k < i ::
                    lines[k].0.Value() == Add(before[k].0, offset.Value()) && lines[k].1.Value() == Add(before[k].1, offset.Value())
        invariant forall k | i <= k < |lines| ::
                    lines[k].0.Value() == before[k].0 && lines[k].1.Value() == before[k].1
      {
        lines[i].0.SetOffset(offset);
        lines[i].1.SetOffset(offset);
      }
      assert Values() == OffsetAll(before, offset.Value());
    }
  }

  /** A new shape holding the lines `ls`, each endpoint over a fresh 4x1 array. */
  method FromLines(ls: Lines) returns (s: Shape)
    ensures s.Valid() && fresh(s) && fresh(s.Repr())
    ensures s.Values() == ls
  {
    var acc: seq<(Vector4, Vector4)> := [];
    ghost var owner: map<array2<real>, int> := map[];
    for i := 0 to |ls|
      invariant |acc| == i
      invariant forall k | 0 <= k < i :: acc[k].0.Valid() && acc[k].1.Valid()
      invariant forall k | 0 <= k < i :: fresh(acc[k].0.data) && fresh(acc[k].1.data)
      invariant forall k | 0 <= k < i :: acc[k].0.Value() == ls[k].0 && acc[k].1.Value() == ls[k].1
      invariant forall k | 0 <= k < i :: Owns(owner, acc[k], k)
    {
      var p1 := Vector4.FromCords(ls[i].0.x, ls[i].0.y, ls[i].0.z, ls[i].0.w);
      var p2 := Vector4.FromCords(ls[i].1.x, ls[i].1.y, ls[i].1.z, ls[i].1.w);
      acc := acc + [(p1, p2)];
      owner := owner[p1.data := 2 * i][p2.data := 2 * i + 1];
    }
    OwnedDistinct(acc, owner);
    s := new Shape(acc);
    assert s.Values() == ls;
  }

  /**
   * `copy` is deep: offsetting the copy leaves the original's endpoints
   * where they were, and the copy ends up offset from them.
   */
  method OffsetCopy(s: Shape, o: Vector4) returns (c: Shape)
    requires s.Valid() && o.Valid() && o.data !in s.Repr()
    ensures c.Valid() && s.Valid()
    ensures s.Values() == old(s.Values())
    ensures c.Values() == OffsetAll(s.Values(), o.Value())
  {
    c := s.Copy();
    c.SetOffset(o);
  }
}
