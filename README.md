# geometric_tools: point and point cloud, in Dafny

This project models the core of the `geometric_tools` Rust crate:

- `Point3D`, a point with three coordinates, in module `Point` (`point_3d.dfy`).
  It covers construction from three coordinates, from a three-element array and by default.
  It covers the `x`/`y`/`z` accessors, structural equality and the in-place `move_by` translation.
- `PointCloud3D`, a growable stack-like container of point-like values, in module `PointCloud` (`point_cloud_3d.dfy`).
  It covers `new`, `is_empty`, `push`, `pop`, `len`, `reserve`, indexing, the consuming iterator and `move_by`.
  `move_by` translates every element in place, in order.

Coordinates are exact `real`s, so translation identities hold exactly. Examples are composition of moves, the zero move and undoing a move.

The container is generic over its element type `U`, as in the crate.
The element type's `Movable3D::move_by` is passed to `PointCloud3D.MoveBy` as a function value `translate`.
For `Point3D` that function is `Point.Translated`.
A Rust `&mut` borrow is exclusive, so `Point3D::move_by` is modelled as a method that returns the updated value of the point.
The cloud's `move_by` is a `while` loop over the `data` sequence.
It is proved against the recursive specification function `PointCloud.Moved`.

The crate's unit tests become client methods whose postconditions state what the tests assert.
These are `NewCloudIsEmpty`, `PushThenPopOnNew` and `MoveThenPopTwice`.

## Model

| member | source | states |
|---|---|---|
| `Point.New` | src/point_3d.rs:22-26 | the new point's x, y and z are the three given coordinates |
| `Point.From` | src/point_3d.rs:29-34 | the point built from `[a, b, c]` has x = a, y = b, z = c |
| `Point.Default` | src/point_3d.rs:15-17 | the default point has all three coordinates zero |
| `Point.Translated` | src/point_3d.rs:66-70 | the translated point has x, y and z each increased by its own delta |
| `Point.MoveBy` | src/point_3d.rs:66-70 | after the move, x, y and z are each increased by their delta; the result is the translated point |
| `Point.FromAgreesWithNew` | src/point_3d.rs:22-34 | building from `[a, b, c]` equals building from `a, b, c` |
| `Point.DefaultIsOrigin` | src/point_3d.rs:15-17 | the default point equals `new(0, 0, 0)` and `from([0, 0, 0])` |
| `Point.EqualIffComponentwise` | src/point_3d.rs:15 | two points are equal exactly when x, y and z are each equal |
| `Point.TranslatedCompose` | src/point_3d.rs:66-70 | a move by (a,b,c) then by (d,e,f) equals one move by (a+d, b+e, c+f) |
| `Point.TranslatedZero` | src/point_3d.rs:66-70 | a move by (0,0,0) leaves the point unchanged |
| `Point.TranslatedInverse` | src/point_3d.rs:66-70 | a move by (dx,dy,dz) is undone by a move by (-dx,-dy,-dz) |
| `PointCloud.Moved` | src/point_cloud_3d.rs:84-88 | translating a collection element by element keeps its length |
| `PointCloud.MovedAt` | src/point_cloud_3d.rs:84-88 | element k of the translated collection is element k of the original, translated |
| `PointCloud.MovedFromPointwise` | src/point_cloud_3d.rs:84-88 | a sequence of the same length that holds each translated element at its own position is the translated collection |
| `PointCloud.MovedAppend` | src/point_cloud_3d.rs:37-39 | push then move equals move then push of the moved value |
| `PointCloud.MovedCompose` | src/point_cloud_3d.rs:84-88 | for points, two moves of the whole collection equal one move by the summed deltas |
| `PointCloud.MovedZero` | src/point_cloud_3d.rs:84-88 | for points, a move of the collection by (0,0,0) leaves it unchanged |
| `PointCloud.PointCloud3D.constructor` | src/point_cloud_3d.rs:26-31 | a new collection holds no elements |
| `PointCloud.PointCloud3D.IsEmpty` | src/point_cloud_3d.rs:33-35 | true exactly when the length is 0; the collection is not changed |
| `PointCloud.PointCloud3D.Push` | src/point_cloud_3d.rs:37-39 | the length grows by exactly one, the value is the last element, and all earlier elements are unchanged |
| `PointCloud.PointCloud3D.Pop` | src/point_cloud_3d.rs:41-43 | None exactly when the collection was empty, which stays empty; otherwise Some(last element), and the old contents are the new contents plus that element |
| `PointCloud.PointCloud3D.Len` | src/point_cloud_3d.rs:45-47 | the number of elements; the collection is not changed |
| `PointCloud.PointCloud3D.Reserve` | src/point_cloud_3d.rs:49-51 | neither the length nor the contents change |
| `PointCloud.PointCloud3D.Index` | src/point_cloud_3d.rs:61-63 | requires index < length; returns the element at that position in insertion order |
| `PointCloud.PointCloud3D.IntoIter` | src/point_cloud_3d.rs:74-76 | yields exactly the stored elements, in insertion order |
| `PointCloud.PointCloud3D.MoveBy` | src/point_cloud_3d.rs:84-88 | length and order are kept; each new element is the old element at the same position, translated by (dx,dy,dz) |
| `PointCloud.NewCloudIsEmpty` | src/point_cloud_3d.rs:109-121 | a new collection reports empty and length 0 |
| `PointCloud.PushThenPop` | src/point_cloud_3d.rs:37-43 | a push of v then a pop returns Some(v) and restores the previous contents |
| `PointCloud.PushThenPopOnNew` | src/point_cloud_3d.rs:123-134 | on a new collection, one push gives a non-empty collection of length 1; the pop returns the pushed value and leaves it empty |
| `PointCloud.MoveThenPopTwice` | src/point_cloud_3d.rs:136-149 | push (1,2,3) and (5,6,7), move by (1,1,1): the pops return (6,7,8), then (2,3,4) |

## Left out

- Floating point: coordinates are exact reals. IEEE 754 rounding, NaN and signed zero are not modelled. The `f32`/`f64` instantiations are not modelled either.
- The test `test_hasher` at src/point_3d.rs:105-123 asserts that two points are equal although their `z` values differ: 2.3 and 2.3000001 are distinct both as `f32` values (one unit in the last place apart) and as exact reals. Under the derived component-wise equality that assertion does not hold, so the test has no counterpart here; it is left out together with the `Hash` implementation whose output it prints.
- The `Hash` implementation of `Point3D` (src/point_3d.rs:37-45) and `ConvertFp::to_bits1` (src/util.rs) are left out. Both work on IEEE 754 bit patterns through a foreign `to_bits` and an opaque `Hasher`.
- The derived `PartialOrd` of `Point3D` is a float partial order, so it is left out. `Debug` and `Clone` have no behaviour to state.
- The `Is3D` and `Movable3D` traits carry no behaviour of their own. The accessors `x`, `y`, `z` are the datatype's fields. The element type's `move_by` is the `translate` argument of `PointCloud3D.MoveBy`.
- The `PhantomData<T>` field has no runtime content and is not modelled.
- PointCloud.PointCloud3D.Len: returns an unbounded `nat`, not a `usize`. Capacity and allocation failure are not modelled.
- PointCloud.PointCloud3D.Reserve: the allocation it performs is not modelled, only that nothing observable changes.
- PointCloud.PointCloud3D.IntoIter: returns the sequence the iterator yields. That the collection is consumed and unusable afterwards is a Rust ownership property with no counterpart here.
- PointCloud.PointCloud3D.Index: out-of-range access panics in the crate. Here it is a precondition instead.
- `Mesh3D` (src/mesh_3d.rs) and `Face` (src/face.rs) are data holders with only a private empty constructor, so there is nothing to state about them.
