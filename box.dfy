/** The capacity-bounded shape container and its operations. */
module ShapeBox {
  import opened Shapes
  import opened BoxSpec

  class Box {
    /** The stored slots, in insertion order. */
    var shapes: seq<Slot>
    /** The largest number of slots the box may hold, fixed by `NewBox`. */
    const capacity: nat

    ghost predicate Valid()
      reads this
    {
      |shapes| <= capacity
    }

    /** `NewBox`: an empty box with the given capacity. */
    constructor (capacity: nat)
      ensures Valid()
      ensures shapes == [] && this.capacity == capacity
    {
      this.capacity := capacity;
      shapes := [];
    }

    /** Appends `shape` (which may be nil) unless the box is full. */
    method AddShape(shape: Slot) returns (err: Option<Error>)
      requires Valid()
      modifies this
      ensures Valid()
      ensures err.Some? <==> |old(shapes)| == capacity
      ensures err.Some? ==> err.value == FullBox && shapes == old(shapes)
      ensures err.None? ==> shapes == old(shapes) + [shape]
    {
      if |shapes| == capacity {
        return Some(FullBox);
      }
      shapes := shapes + [shape];
      return None;
    }

    /** Reads slot `i` without changing the box. */
    method GetByIndex(i: nat) returns (r: Result<Shape>)
      ensures i >= |shapes| ==> r == Err(OutOfRange)
      ensures i < |shapes| && shapes[i].None? ==> r == Err(NilShape)
      ensures i < |shapes| && shapes[i].Some? ==> r == Ok(shapes[i].value)
      ensures r == Lookup(shapes, i)
    {
      if i >= |shapes| {
        return Err(OutOfRange);
      }
      if shapes[i].None? {
        return Err(NilShape);
      }
      return Ok(shapes[i].value);
    }

    /** Removes and returns slot `i`; on an error nothing changes. */
    method ExtractByIndex(i: nat) returns (r: Result<Shape>)
      requires Valid()
      modifies this
      ensures Valid()
      ensures r == Lookup(old(shapes), i)
      ensures r.Err? ==> shapes == old(shapes)
      ensures r.Ok? ==> shapes == Delete(old(shapes), i)
    {
      if i >= |shapes| {
        return Err(OutOfRange);
      }
      if shapes[i].None? {
        return Err(NilShape);
      }
      var shape := shapes[i].value;
      shapes := shapes[..i] + shapes[i + 1..];
      return Ok(shape);
    }

    /** Stores `shape` (which may be nil) at `i` and returns the shape it
        replaces; on an error nothing changes. */
    method ReplaceByIndex(i: nat, shape: Slot) returns (r: Result<Shape>)
      requires Valid()
      modifies this
      ensures Valid()
      ensures r == Lookup(old(shapes), i)
      ensures r.Err? ==> shapes == old(shapes)
      ensures r.Ok? ==> shapes == old(shapes)[i := shape]
    {
      if i >= |shapes| {
        return Err(OutOfRange);
      }
      if shapes[i].None? {
        return Err(NilShape);
      }
      var temp := shapes[i].value;
      shapes := shapes[i := shape];
      return Ok(temp);
    }

    /** Sum of `perimeter` over all slots in order; `perimeter` stands for
        the shapes' own `CalcPerimeter`. */
    method SumPerimeter(perimeter: Shape -> real) returns (sum: real)
      requires NoNil(shapes)
      ensures sum == Total(shapes, perimeter)
    {
      sum := SumOf(perimeter);
    }

    /** Sum of `area` over all slots in order; `area` stands for the shapes'
        own `CalcArea`. */
    method SumArea(area: Shape -> real) returns (sum: real)
      requires NoNil(shapes)
      ensures sum == Total(shapes, area)
    {
      sum := SumOf(area);
    }

    /** The accumulator loop shared by the two sums. */
    method SumOf(measure: Shape -> real) returns (sum: real)
      requires NoNil(shapes)
      ensures sum == Total(shapes, measure)
    {
      sum := 0.0;
      for i := 0 to |shapes|
        invariant sum == Total(shapes[..i], measure)
      {
        assert shapes[..i + 1][..i] == shapes[..i];
        sum := sum + measure(shapes[i].value);
      }
      assert shapes[..|shapes|] == shapes;
    }

    /** Removes every Circle slot, keeping the others in order; reports the
        no-circles error when nothing was removed. */
    method RemoveAllCircles() returns (err: Option<Error>)
      requires Valid()
      modifies this
      ensures Valid()
      ensures shapes == WithoutCircles(old(shapes))
      ensures err.Some? <==> !HasCircle(old(shapes))
      ensures err.Some? ==> err.value == NoCircles && shapes == old(shapes)
    {
      var contains := |shapes|;
      ghost var orig := shapes;
      // `done` counts the original slots visited so far and `kept` holds
      // those of them that survive
      ghost var done := 0;
      ghost var kept: seq<Slot> := [];
      var i := 0;
      while i < |shapes|
        invariant done <= |orig| && |shapes| <= |orig| == contains
        invariant kept == WithoutCircles(orig[..done])
        invariant shapes == kept + orig[done..]
        invariant i == |kept|
        decreases |shapes| - i
      {
        RemovalStep(orig, done, kept);
        if IsCircle(shapes[i]) {
          var r := ExtractByIndex(i);
          // the range and nil errors cannot happen: `i` is in range and the slot holds a Circle
          assert r.Ok?;
        } else {
          kept := kept + [orig[done]];
          i := i + 1;
        }
        done := done + 1;
      }
      assert orig[..done] == orig;
      if contains == |shapes| {
        return Some(NoCircles);
      }
      return None;
    }
  }
}
