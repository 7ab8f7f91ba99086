# Shape box

A model of the `box` type of box.go: a container holding an ordered list of
shapes (nil entries allowed) and a capacity fixed when the box is made. The
box appends a shape while there is room, reads, extracts or replaces the shape
at an index, sums the perimeters or areas of all shapes, and removes every
Circle at once.

- `shapes.dfy` (module `Shapes`): the values the box holds. A shape is reduced
  to what the box can tell apart: `Circle(id)` or `Other(id)`. A slot is
  `Option<Shape>`, where `None` is a nil interface value. The four sentinel
  errors are an enum: `FullBox`, `OutOfRange`, `NilShape` and `NoCircles`.
- `box_spec.dfy` (module `BoxSpec`): what the operations mean over the slot
  sequence. `Lookup` is the answer of an indexed read, with the range check
  before the nil check. `Delete` is the compaction done by an extraction.
  `WithoutCircles` is the filter done by the bulk removal, and `CountCircles`
  counts the Circles. `AddAll` applies a run of appends. `Total` is the
  in-order sum of a measure. The lemmas relate several operations to each
  other.
- `box.dfy` (module `ShapeBox`): the class `Box` with the two fields of the
  Go struct. Each method updates `shapes` as the Go method does. Each is
  proved to keep `|shapes| <= capacity`, and to leave the box unchanged when
  it reports an error. `RemoveAllCircles` keeps the Go loop: its index moves
  on only past a slot that is not a Circle, and a Circle is removed by
  calling `ExtractByIndex`. The loop invariant says the box holds the
  survivors of the slots visited so far, followed by the slots not yet
  visited. An assertion proves that the inner extraction can never fail.

On two points the model follows the code rather than what a reader might expect:

- Negative indices: the code never checks them. A negative index makes Go
  panic when it indexes the slice. It does not produce the out-of-range
  error. Indices are therefore `nat`.
- Nil slots: the code's nil-shape error is reachable. `AddShape` and
  `ReplaceByIndex` both accept a nil shape. `LookupAfterAppend` and
  `LookupAfterReplace` show that the next read of that index then reports
  `NilShape`.

## Model

| member | source | states |
|---|---|---|
| ShapeBox.Box.constructor | box.go:22-26 | `NewBox(c)` gives an empty box with capacity `c`, and the bound `len <= capacity` holds |
| ShapeBox.Box.AddShape | box.go:30-37 | fails with `FullBox` exactly when `len(shapes) == capacity`, leaving `shapes` unchanged; otherwise `shapes` becomes `old + [shape]` (nil included); the capacity bound is kept |
| ShapeBox.Box.GetByIndex | box.go:41-51 | `OutOfRange` when `i >= len`, else `NilShape` for a nil slot, else the stored shape; does not modify the box |
| ShapeBox.Box.ExtractByIndex | box.go:55-68 | same errors as `GetByIndex`, checked before any change, and the box is unchanged on error; on success returns `old[i]` and leaves `old` with slot `i` cut out |
| ShapeBox.Box.ReplaceByIndex | box.go:72-85 | same errors as `GetByIndex`, and the box is unchanged on error; on success returns `old[i]` and stores the new slot at `i`, length unchanged |
| ShapeBox.Box.SumPerimeter | box.go:88-96 | returns the in-order sum of the perimeters of all shapes (a box with no nil slot) |
| ShapeBox.Box.SumArea | box.go:99-107 | returns the in-order sum of the areas of all shapes (a box with no nil slot) |
| ShapeBox.Box.SumOf | box.go:89-95 | the accumulator loop: after visiting the first `i` slots the sum is the total over them |
| ShapeBox.Box.RemoveAllCircles | box.go:111-130 | `shapes` becomes the old slots with every Circle dropped, in the old order, with nil slots kept; returns `NoCircles` exactly when the old slots held no Circle, and then the box is unchanged; the loop terminates and its inner extraction never fails |
| BoxSpec.Delete | box.go:65 | cutting out slot `i` shortens by one; slots before `i` stay and later ones shift down by one |
| BoxSpec.CountCircles | box.go:112-129 | the Circle count is at most the length, and is zero exactly when there is no Circle |
| BoxSpec.WithoutCircles | box.go:114-123 | the filtered slots number the old length minus the Circle count; none is a Circle; with no Circle the slots are unchanged |
| BoxSpec.WithoutCirclesAppend | box.go:114-123 | the filter distributes over concatenation, so the kept slots keep their relative order |
| BoxSpec.WithoutCirclesMultiset | box.go:115-121 | exactly the Circles are removed: every other slot value, nil included, keeps its multiplicity |
| BoxSpec.RemovalStep | box.go:114-122 | one iteration of the removal loop: a Circle at the cursor is cut out and the cursor stays; any other slot is kept and the cursor advances |
| BoxSpec.SecondRemovalFindsNothing | box.go:125-129 | after a removal no Circle is left, so a second removal reports `NoCircles` and changes nothing |
| BoxSpec.AddAllFits | box.go:30-37 | appends that fit within the capacity all succeed and append in order |
| BoxSpec.AddAllOverflows | box.go:30-37 | offering more shapes than the remaining room ends in `FullBox` |
| BoxSpec.FillThenFull | box.go:22-37 | from a new box of capacity `c`, `c` appends succeed and the next fails with `FullBox` |
| BoxSpec.LookupAfterAppend | box.go:30-51 | after an append the new last index reads back the appended shape (`NilShape` for a nil one); earlier indices read as before; later ones are out of range |
| BoxSpec.LookupAfterReplace | box.go:41-85 | after a replace at `i`, reading `i` gives the new shape (`NilShape` for a nil one); other indices read as before |
| BoxSpec.ReplaceRestores | box.go:72-85 | replacing with the returned old shape restores the box |
| BoxSpec.LookupAfterDelete | box.go:41-68 | after an extraction at `i`, indices below `i` read as before and index `j >= i` reads what `j + 1` read |
| BoxSpec.DeleteReinsert | box.go:55-68 | putting the extracted slot back at `i` restores the original slots |
| BoxSpec.TotalAppend | box.go:88-107 | the sum over a concatenation is the sum of the two sums (so an empty box sums to 0 and a one-shape box to that shape's measure) |
| BoxSpec.TotalNonnegative | box.go:88-107 | non-negative measures give a non-negative sum |

## Left out

- Concrete shapes: `Shape`, `Circle` and the other variants are defined in
  files that are not part of this model. A shape is reduced to a Circle flag
  plus an identity. That is enough for the type test at box.go:115.
- `CalcPerimeter` and `CalcArea`: they are parameters (`Shape -> real`) of
  `SumPerimeter` and `SumArea`.
- SumPerimeter: sums are over `real`, not `float64`. Rounding and
  bit-exactness are not modelled. A nil slot makes the Go method panic, so
  `NoNil(shapes)` is required.
- SumArea: same as SumPerimeter.
- Error text and `%w` wrapping: each error is the plain sentinel value it
  wraps.
- Slice aliasing: the backing-array effects of `append(b.shapes[:i],
  b.shapes[i+1:]...)` are not modelled. Only the resulting sequence is.
- Negative capacity: `NewBox` takes a `nat`. With a negative capacity the Go
  box never reports `FullBox`.
- Negative indices: these make Go panic. Indices are `nat`.
- Typed nil pointers: a nil `*Circle` stored in the box is a non-nil
  interface value. The model has no separate case for it. It is just a
  Circle.
