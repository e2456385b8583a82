/** An ordered, growable collection of point-like values, used as a stack:
    elements are appended and removed at the end, read by position, and the
    whole collection can be translated rigidly. */
module PointCloud {
  import Point

  datatype Option<T> = None | Some(value: T)

  /** The collection translated element by element with the element type's
      own translation, in order. */
  function Moved<U>(s: seq<U>, translate: (U, real, real, real) -> U,
                    dx: real, dy: real, dz: real): (r: seq<U>)
    ensures |r| == |s|
  {
    if s == [] then []
    else [translate(s[0], dx, dy, dz)] + Moved(s[1..], translate, dx, dy, dz)
  }

  /** Element k of the moved collection is element k of the original, moved. */
  lemma {:induction false} MovedAt<U>(s: seq<U>, translate: (U, real, real, real) -> U,
                                      dx: real, dy: real, dz: real, k: nat)
    requires k < |s|
    ensures Moved(s, translate, dx, dy, dz)[k] == translate(s[k], dx, dy, dz)
  {
    if k > 0 {
      MovedAt(s[1..], translate, dx, dy, dz, k - 1);
    }
  }

  /** Any sequence of the right length that agrees with the translated
      elements position by position is the moved collection. */
  lemma MovedFromPointwise<U>(s: seq<U>, t: seq<U>, translate: (U, real, real, real) -> U,
                              dx: real, dy: real, dz: real)
    requires |t| == |s|
    requires forall k :: 0 <= k < |s| ==> t[k] == translate(s[k], dx, dy, dz)
    ensures t == Moved(s, translate, dx, dy, dz)
  {
    forall k | 0 <= k < |s|
      ensures t[k] == Moved(s, translate, dx, dy, dz)[k]
    {
      MovedAt(s, translate, dx, dy, dz, k);
    }
  }

  /** Pushing and then moving equals moving and then pushing the moved value. */
  lemma {:induction false} MovedAppend<U>(s: seq<U>, v: U, translate: (U, real, real, real) -> U,
                                          dx: real, dy: real, dz: real)
    ensures Moved(s + [v], translate, dx, dy, dz)
         == Moved(s, translate, dx, dy, dz) + [translate(v, dx, dy, dz)]
  {
    if s != [] {
      assert (s + [v])[1..] == s[1..] + [v];
      MovedAppend(s[1..], v, translate, dx, dy, dz);
    }
  }

  /** For points, two successive moves of the collection are one move by
      the summed deltas. */
  lemma {:induction false} MovedCompose(s: seq<Point.Point3D>,
                                        a: real, b: real, c: real, d: real, e: real, f: real)
    ensures Moved(Moved(s, Point.Translated, a, b, c), Point.Translated, d, e, f)
         == Moved(s, Point.Translated, a + d, b + e, c + f)
  {
    if s != [] {
      Point.TranslatedCompose(s[0], a, b, c, d, e, f);
      MovedCompose(s[1..], a, b, c, d, e, f);
    }
  }

  /** For points, moving the collection by the zero delta changes nothing. */
  lemma {:induction false} MovedZero(s: seq<Point.Point3D>)
    ensures Moved(s, Point.Translated, 0.0, 0.0, 0.0) == s
  {
    if s != [] {
      Point.TranslatedZero(s[0]);
      MovedZero(s[1..]);
    }
  }

  /** The collection. `data` holds the elements in insertion order. */
  class PointCloud3D<U> {
    var data: seq<U>

    /** An empty collection. */
    constructor ()
      ensures data == []
    {
      data := [];
    }

    /** True exactly when the collection holds no element. */
    method IsEmpty() returns (empty: bool)
      ensures empty <==> |data| == 0
    {
      empty := data == [];
    }

    /** Appends `value` at the end. */
    method Push(value: U)
      modifies this
      ensures |data| == |old(data)| + 1
      ensures data[|data| - 1] == value
      ensures data[..|old(data)|] == old(data)
    {
      data := data + [value];
    }

    /** Removes and returns the last element, or None when empty. */
    method Pop() returns (last: Option<U>)
      modifies this
      ensures last.None? <==> old(data) == []
      ensures last.None? ==> data == []
      ensures last.Some? ==> old(data) == data + [last.value]
    {
      if data == [] {
        last := None;
      } else {
        last := Some(data[|data| - 1]);
        data := data[..|data| - 1];
      }
    }

    /** The number of elements. */
    method Len() returns (n: nat)
      ensures n == |data|
    {
      n := |data|;
    }

    /** A capacity hint: no observable change. */
    method Reserve(additional: nat)
      modifies this
      ensures data == old(data)
    {
    }

    /** The element at position `index`; out of range is a caller error. */
    method Index(index: nat) returns (element: U)
      requires index < |data|
      ensures element == data[index]
    {
      element := data[index];
    }

    /** The elements the consuming iterator yields, in insertion order. */
    method IntoIter() returns (items: seq<U>)
      ensures |items| == |data|
      ensures forall k :: 0 <= k < |items| ==> items[k] == data[k]
    {
      items := data;
    }

    /** Translates every element in place, in order, with the element
        type's own translation `translate`. */
    method MoveBy(translate: (U, real, real, real) -> U, dx: real, dy: real, dz: real)
      modifies this
      ensures |data| == |old(data)|
      ensures forall k :: 0 <= k < |data| ==> data[k] == translate(old(data)[k], dx, dy, dz)
      ensures data == Moved(old(data), translate, dx, dy, dz)
    {
      var i := 0;
      while i < |data|
        invariant 0 <= i <= |data| == |old(data)|
        invariant forall k :: 0 <= k < i ==> data[k] == translate(old(data)[k], dx, dy, dz)
        invariant forall k :: i <= k < |data| ==> data[k] == old(data)[k]
      {
        data := data[i := translate(data[i], dx, dy, dz)];
        i := i + 1;
      }
      MovedFromPointwise(old(data), data, translate, dx, dy, dz);
    }
  }

  /** A new collection is empty and has length zero. */
  method NewCloudIsEmpty<U>() returns (empty: bool, n: nat)
    ensures empty && n == 0
  {
    var cloud := new PointCloud3D<U>();
    empty := cloud.IsEmpty();
    n := cloud.Len();
  }

  /** Pushing a value and popping it again returns that value and restores
      the collection. */
  method PushThenPop<U>(cloud: PointCloud3D<U>, v: U) returns (r: Option<U>)
    modifies cloud
    ensures r == Some(v)
    ensures cloud.data == old(cloud.data)
  {
    cloud.Push(v);
    r := cloud.Pop();
  }

  /** On a new collection: after one push it is non-empty with length one;
      the pop returns the pushed value and leaves it empty. */
  method PushThenPopOnNew<U>(v: U)
    returns (emptyAfterPush: bool, lenAfterPush: nat, r: Option<U>, emptyAfterPop: bool)
    ensures !emptyAfterPush && lenAfterPush == 1
    ensures r == Some(v) && emptyAfterPop
  {
    var cloud := new PointCloud3D<U>();
    cloud.Push(v);
    emptyAfterPush := cloud.IsEmpty();
    lenAfterPush := cloud.Len();
    r := cloud.Pop();
    emptyAfterPop := cloud.IsEmpty();
  }

  /** Pushing (1,2,3) and (5,6,7), moving by (1,1,1) and popping twice
      yields (6,7,8) and then (2,3,4). */
  method MoveThenPopTwice() returns (first: Option<Point.Point3D>, second: Option<Point.Point3D>)
    ensures first == Some(Point.New(6.0, 7.0, 8.0))
    ensures second == Some(Point.New(2.0, 3.0, 4.0))
  {
    var cloud := new PointCloud3D<Point.Point3D>();
    cloud.Push(Point.New(1.0, 2.0, 3.0));
    cloud.Push(Point.New(5.0, 6.0, 7.0));
    cloud.MoveBy(Point.Translated, 1.0, 1.0, 1.0);
    first := cloud.Pop();
    second := cloud.Pop();
  }
}
