/** Values the box holds and the errors it reports. */
module Shapes {

  datatype Option<T> = None | Some(value: T)

  /** A shape stored in the box. The box only ever asks whether a shape is a
      Circle, so every other variant (rectangle, triangle, ...) is `Other`;
      `id` stands for the data a concrete shape carries, so that two shapes of
      the same variant can differ. */
  datatype Shape = Circle(id: nat) | Other(id: nat)

  /** One position of the box: `None` is a nil interface value. */
  type Slot = Option<Shape>

  /** The four sentinel errors of the box. */
  datatype Error = FullBox | OutOfRange | NilShape | NoCircles

  datatype Result<T> = Ok(value: T) | Err(error: Error)

  /** The `*Circle` type assertion: it fails on a nil slot. */
  predicate IsCircle(slot: Slot) {
    slot.Some? && slot.value.Circle?
  }
}
