/** The rotary knob widget (src/components/ui/Knob.tsx): a vertical drag
    turns pixel distance into a bounded, stepped value, and the value is
    shown as a pointer angle between -150 and +150 degrees. */
module Knob {
  import opened Options
  import opened Numeric

  /** Fraction of the range per pixel is Sensitivity / 100. */
  const Sensitivity: real := 0.5

  /** `v` is a whole number of steps. */
  predicate OnGrid(v: real, step: real)
    requires step > 0.0
  {
    IsInteger(v / step)
  }

  /** The value change for a pointer move from `lastY` to `clientY`: screen
      y grows downwards, so moving up is positive, and 200 pixels span the
      whole range `max - min` whatever the bounds. */
  function Change(lastY: real, clientY: real, min: real, max: real): (c: real)
    ensures c * 200.0 == (lastY - clientY) * (max - min)
    ensures min <= max && clientY <= lastY ==> c >= 0.0
  {
    ((lastY - clientY) * Sensitivity * (max - min)) / 100.0
  }

  /** `Math.round(x / step) * step`: the nearest whole number of steps,
      at most half a step away from `x`. */
  function Stepped(x: real, step: real): (v: real)
    requires step > 0.0
    ensures OnGrid(v, step)
    ensures x / step - 0.5 < v / step <= x / step + 0.5
  {
    var k := Round(x / step);
    assert (k as real * step) / step == k as real;
    k as real * step
  }

  /** Rounding to the step after clamping stays within [min, max] when both
      bounds are themselves whole numbers of steps. */
  lemma SteppedWithin(x: real, min: real, max: real, step: real)
    requires step > 0.0 && min <= x <= max
    requires OnGrid(min, step) && OnGrid(max, step)
    ensures min <= Stepped(x, step) <= max
  {
    var a, b, q := (min / step).Floor, (max / step).Floor, x / step;
    assert min == a as real * step && max == b as real * step;
    assert (q - a as real) * step == x - min;
    assert (b as real - q) * step == max - x;
    assert a as real <= q <= b as real;
    var k := Round(q);
    assert a <= k <= b;
    assert (k - a) as real * step >= 0.0;
    assert (b - k) as real * step >= 0.0;
  }

  /** The value a mouse move emits: the current value plus the change,
      clamped into [min, max], then rounded to a whole number of steps. */
  function DragValue(value: real, lastY: real, clientY: real, min: real, max: real, step: real): (v: real)
    requires step > 0.0
    ensures OnGrid(v, step)
    ensures var clamped := Clamp(min, max, value + Change(lastY, clientY, min, max));
            clamped / step - 0.5 < v / step <= clamped / step + 0.5
    ensures min <= max && OnGrid(min, step) && OnGrid(max, step) ==> min <= v <= max
  {
    var clamped := Clamp(min, max, value + Change(lastY, clientY, min, max));
    if min <= max && OnGrid(min, step) && OnGrid(max, step) then
      SteppedWithin(clamped, min, max, step);
      Stepped(clamped, step)
    else
      Stepped(clamped, step)
  }

  /** A move that does not change y re-emits a value already on the grid. */
  lemma StillPointerKeepsValue(value: real, y: real, min: real, max: real, step: real)
    requires step > 0.0 && min <= value <= max && OnGrid(value, step)
    ensures DragValue(value, y, y, min, max, step) == value
  {
    assert Change(y, y, min, max) == 0.0;
    var k := Round(value / step);
    RoundInteger(value / step);
    assert k as real == value / step;
  }

  /** Starting from a value on the grid and away from the bounds, a move
      changes the emitted value by the pixel change rounded to the step. */
  lemma DragFromGrid(v: real, lastY: real, clientY: real, min: real, max: real, step: real)
    requires step > 0.0 && OnGrid(v, step)
    requires min <= v + Change(lastY, clientY, min, max) <= max
    ensures DragValue(v, lastY, clientY, min, max, step) - v == Stepped(Change(lastY, clientY, min, max), step)
  {
    var c := Change(lastY, clientY, min, max);
    assert Clamp(min, max, v + c) == v + c;
    SteppedShift(v, c, step);
  }

  /** Rounding to the step commutes with adding a value on the grid. */
  lemma SteppedShift(v: real, c: real, step: real)
    requires step > 0.0 && OnGrid(v, step)
    ensures Stepped(v + c, step) == v + Stepped(c, step)
  {
    var a := (v / step).Floor;
    var x := c / step;
    DivMul(v, step);
    assert v == a as real * step;
    assert (v + c) / step == a as real + x by {
      DivMul(c, step);
      assert (a as real + x) * step == v + c;
    }
    RoundShift(a, x);
    assert Stepped(v + c, step) == Round((v + c) / step) as real * step;
    assert Round((v + c) / step) == a + Round(x);
    assert Stepped(c, step) == Round(x) as real * step;
    assert (a + Round(x)) as real * step == a as real * step + Round(x) as real * step;
  }

  /** The same pixel distance moves every on-grid value the knob emits by
      the same amount, as long as neither move reaches a bound. */
  lemma DragIsLinear(v1: real, v2: real, lastY: real, clientY: real, min: real, max: real, step: real)
    requires step > 0.0 && OnGrid(v1, step) && OnGrid(v2, step)
    requires min <= v1 + Change(lastY, clientY, min, max) <= max
    requires min <= v2 + Change(lastY, clientY, min, max) <= max
    ensures DragValue(v1, lastY, clientY, min, max, step) - v1
         == DragValue(v2, lastY, clientY, min, max, step) - v2
  {
    DragFromGrid(v1, lastY, clientY, min, max, step);
    DragFromGrid(v2, lastY, clientY, min, max, step);
  }

  /** The value after a whole gesture, when the host writes every emitted
      value back into the knob's `value` before the next move arrives. */
  function Gesture(value: real, startY: real, moves: seq<real>, min: real, max: real, step: real): (v: real)
    requires step > 0.0
    ensures moves != [] && min <= max && OnGrid(min, step) && OnGrid(max, step) ==>
              min <= v <= max && OnGrid(v, step)
    decreases |moves|
  {
    if moves == [] then value
    else Gesture(DragValue(value, startY, moves[0], min, max, step), moves[0], moves[1..], min, max, step)
  }

  /** The pointer angle of `value`: min maps to -150 degrees, max to +150,
      linearly in between. */
  function Rotation(value: real, min: real, max: real): (deg: real)
    requires max != min
    ensures value == min ==> deg == -150.0
    ensures value == max ==> deg == 150.0
    ensures min < max && min <= value <= max ==> -150.0 <= deg <= 150.0
  {
    var normalized := (value - min) / (max - min);
    RotationBounds(value, min, max);
    normalized * 300.0 - 150.0
  }

  lemma RotationBounds(value: real, min: real, max: real)
    requires max != min
    ensures value == min ==> (value - min) / (max - min) == 0.0
    ensures value == max ==> (value - min) / (max - min) == 1.0
    ensures min < max && min <= value <= max ==> 0.0 <= (value - min) / (max - min) <= 1.0
  {
    if value == max {
      DivMul(1.0, max - min);
    }
    if min < max && min <= value <= max {
      FractionBounds(value - min, max - min);
    }
  }

  /** The angle is linear in the value: moving the value by `d` turns the
      pointer by `d` over the range's share of 300 degrees. */
  lemma RotationLinear(v: real, d: real, min: real, max: real)
    requires max != min
    ensures Rotation(v + d, min, max) - Rotation(v, min, max) == 300.0 * d / (max - min)
  {
    var w := max - min;
    assert (v + d - min) / w - (v - min) / w == d / w;
  }

  /** The middle of the range points straight up. */
  lemma RotationMidpoint(min: real, max: real)
    requires max != min
    ensures Rotation((min + max) / 2.0, min, max) == 0.0
  {
    var w := max - min;
    assert ((min + max) / 2.0 - min) / w == 0.5;
  }

  /** A larger value turns the pointer further clockwise. */
  lemma RotationMonotone(v1: real, v2: real, min: real, max: real)
    requires min < max && v1 <= v2
    ensures Rotation(v1, min, max) <= Rotation(v2, min, max)
  {
    var d := max - min;
    var n1, n2 := (v1 - min) / d, (v2 - min) / d;
    DivMul(v1 - min, d);
    DivMul(v2 - min, d);
    if n2 < n1 {
      ScaleLess(n2, n1, d);
    }
    assert n1 <= n2;
    assert Rotation(v1, min, max) == n1 * 300.0 - 150.0;
  }

  /** The drag gesture: `isDragging` is the component state, `lastY` the
      ref holding the pointer's previous vertical position. The displayed
      `value`, the bounds and the step are props, passed to each move. */
  class Knob {
    var isDragging: bool
    var lastY: real

    constructor ()
      ensures !isDragging && lastY == 0.0
    {
      isDragging := false;
      lastY := 0.0;
    }

    /** Mouse-down on the knob: starts a drag at `clientY`, emits nothing. */
    method MouseDown(clientY: real)
      modifies this
      ensures isDragging && lastY == clientY
    {
      isDragging := true;
      lastY := clientY;
    }

    /** A mouse move anywhere on the page. Outside a drag it returns early;
        during one it emits the new value and remembers `clientY`, so the
        next move is measured from here and not from the gesture's start. */
    method MouseMove(clientY: real, value: real, min: real, max: real, step: real)
      returns (emitted: Option<real>)
      requires step > 0.0
      modifies this
      ensures isDragging == old(isDragging)
      ensures !old(isDragging) ==> emitted == None && lastY == old(lastY)
      ensures old(isDragging) ==>
                emitted == Some(DragValue(value, old(lastY), clientY, min, max, step)) && lastY == clientY
    {
      if !isDragging {
        return None;
      }
      var newValue := Clamp(min, max, value + Change(lastY, clientY, min, max));
      var steppedValue := Round(newValue / step) as real * step;
      assert steppedValue == Stepped(newValue, step);
      emitted := Some(steppedValue);
      lastY := clientY;
    }

    /** Mouse-up: ends the drag. Repeating it, or calling it with no drag
        in progress, changes nothing further. */
    method MouseUp()
      modifies this
      ensures !isDragging && lastY == old(lastY)
    {
      isDragging := false;
    }
  }

  /** Every knob range the device panels (Operator, Drum Rack, Sampler,
      Reverb) use: each bound is a whole number of steps, so every emitted
      value stays within the knob's range. */
  lemma DeviceRangesOnGrid()
    ensures OnGrid(0.125, 0.125) && OnGrid(16.0, 0.125)   // Operator ratio
    ensures OnGrid(0.1, 0.1) && OnGrid(20.0, 0.1)         // Operator LFO rate
    ensures OnGrid(20.0, 1.0) && OnGrid(2000.0, 1.0)      // Operator frequency
    ensures OnGrid(0.0, 1.0) && OnGrid(100.0, 1.0)        // the 0..100 knobs of every panel
    ensures OnGrid(-24.0, 1.0) && OnGrid(24.0, 1.0)       // Sampler tune
    ensures OnGrid(1.0, 1.0)                              // Sampler length, 1..100
  {
  }
}
