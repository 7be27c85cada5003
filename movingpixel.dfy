/** The example application (examples/moving_pixel.rs): a pixel moved by
    the arrow keys and drawn in red, which declines a redraw when any
    other key was held. */
module MovingPixelExample {
  import opened Keys
  import opened Fbx
  import opened PixelApp
  import opened FrameBuffer

  const RED: Rgba := Rgba(0xFF, 0, 0, 0xFF)

  /** The guard in front of `put_pixel` as written: the product of the
      coordinates against the frame's length in bytes. */
  predicate DrawGuardAsWritten(x: nat, y: nat, frameLen: nat)
  {
    x * y < frameLen
  }

  /** The guard the drawing needs: the column lies on the row and the
      pixel lies in the frame. */
  predicate DrawGuard(x: nat, y: nat, width: nat, frameLen: nat)
  {
    x < width && PixelIndex(width, x, y) < PixelCount(frameLen)
  }

  /** In a 500 by 500 frame the written guard lets (50, 500) through,
      a NotDone position the arrows reach from the start, whose pixel
      index lies past the end of the frame; and it lets (600, 60)
      through, whose pixel lands on the wrong row. */
  lemma DrawGuardAsWrittenAdmitsBadPixels()
    ensures DrawGuardAsWritten(50, 500, 500 * 500 * 4)
    ensures Classify(50, 500) == NotDone
    ensures PixelIndex(500, 50, 500) >= PixelCount(500 * 500 * 4)
    ensures DrawGuardAsWritten(600, 60, 500 * 500 * 4)
    ensures PixelIndex(500, 600, 60) / 500 != 60
    ensures !DrawGuard(50, 500, 500, 500 * 500 * 4) && !DrawGuard(600, 60, 500, 500 * 500 * 4)
  {
  }

  /** Under the corrected guard the pixel written is inside the frame,
      on row `y` at column `x`. */
  lemma DrawGuardPlacesPixel(x: nat, y: nat, width: nat, frameLen: nat)
    requires DrawGuard(x, y, width, frameLen)
    ensures PixelIndex(width, x, y) < PixelCount(frameLen)
    ensures PixelIndex(width, x, y) / width == y && PixelIndex(width, x, y) % width == x
  {
    PixelIndexInverse(width, x, y);
  }

  class MovingPixel {
    var x: nat
    var y: nat

    /** `MovingPixel::new`. */
    constructor (x: nat, y: nat)
      ensures this.x == x && this.y == y
    {
      this.x := x;
      this.y := y;
    }

    /** `done`: the shared classification of the position. */
    function Done(): (status: DoneStatus)
      reads this
      ensures status == NotDone <==> x >= 50 && y >= 50
      ensures status == Remain <==> x < 50
    {
      Classify(x, y)
    }

    /** `on_tick`: visits every held key once, in whatever order the set
        yields them, moving the pixel one step per arrow. A redraw is
        asked for unless some held key is not an arrow. */
    method OnTick(pressedKeys: set<MyKey>) returns (needsRedraw: bool)
      requires NoUnderflow(x, y, pressedKeys)
      modifies this
      ensures x as int == old(x) + Shift(pressedKeys).0
      ensures y as int == old(y) + Shift(pressedKeys).1
      ensures needsRedraw <==> pressedKeys <= Arrows
    {
      needsRedraw := true;
      var todo := pressedKeys;
      ghost var done: set<MyKey> := {};
      while todo != {}
        invariant todo <= pressedKeys && done == pressedKeys - todo
        invariant x as int == old(x) + Shift(done).0
        invariant y as int == old(y) + Shift(done).1
        invariant needsRedraw <==> forall k :: k in done ==> k in Arrows
        decreases todo
      {
        var key :| key in todo;
        match key {
          case Left => x := x - 1;
          case Right => x := x + 1;
          case Up => y := y - 1;
          case Down => y := y + 1;
          case _ => needsRedraw := false;
        }
        todo := todo - {key};
        done := done + {key};
      }
    }

    /** `draw`, with the corrected guard: the pixel at the position turns
        red when it lies in the frame, and nothing else changes. */
    method Draw(frame: array<bv8>, width: nat)
      modifies frame
      ensures DrawGuard(x, y, width, frame.Length) ==>
        PixelAt(frame[..], PixelIndex(width, x, y)) == RED
      ensures forall j :: 0 <= j < frame.Length && j / 4 != PixelIndex(width, x, y) ==>
        frame[j] == old(frame[j])
      ensures !DrawGuard(x, y, width, frame.Length) ==> frame[..] == old(frame[..])
    {
      if x < width && width * y + x < frame.Length / 4 {
        PutPixel(frame, width, x, y, RED);
      }
    }
  }
}
