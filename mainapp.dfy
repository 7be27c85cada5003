/** The application of the crate's binary (src/main.rs): a pixel moved by
    the arrow keys, which asks for a redraw when an arrow key was held. */
module MainApp {
  import opened Keys
  import opened Fbx
  import opened PixelApp

  class MovingPixel {
    var x: nat
    var y: nat

    /** `MovingPixel::new`. */
    constructor (x: nat, y: nat)
      ensures this.x == x && this.y == y
    {
      this.x := x;
      this.y := y;
    }

    /** `done`: the shared classification of the position. */
    function Done(): (status: DoneStatus)
      reads this
      ensures status == NotDone <==> x >= 50 && y >= 50
      ensures status == Remain <==> x < 50
    {
      Classify(x, y)
    }

    /** `on_tick`: visits every held key once, in whatever order the set
        yields them, moving the pixel one step per arrow; letter keys do
        nothing. A redraw is asked for exactly when an arrow was held. */
    method OnTick(pressedKeys: set<MyKey>) returns (ret: bool)
      requires NoUnderflow(x, y, pressedKeys)
      modifies this
      ensures x as int == old(x) + Shift(pressedKeys).0
      ensures y as int == old(y) + Shift(pressedKeys).1
      ensures ret <==> pressedKeys * Arrows != {}
    {
      ret := false;
      var todo := pressedKeys;
      ghost var done: set<MyKey> := {};
      while todo != {}
        invariant todo <= pressedKeys && done == pressedKeys - todo
        invariant x as int == old(x) + Shift(done).0
        invariant y as int == old(y) + Shift(done).1
        invariant ret <==> exists k :: k in done && k in Arrows
        decreases todo
      {
        var key :| key in todo;
        match key {
          case Left =>
            x := x - 1;
            ret := true;
          case KeyQ =>
          case Right =>
            x := x + 1;
            ret := true;
          case KeyD =>
          case Up =>
            y := y - 1;
            ret := true;
          case KeyZ =>
          case Down =>
            y := y + 1;
            ret := true;
          case KeyS =>
          case KeyA =>
          case KeyE =>
        }
        todo := todo - {key};
        done := done + {key};
      }
      assert ret <==> (exists k :: k in pressedKeys && k in Arrows);
    }
  }

  /** The pixel starts at (50, 100), where it is not done. */
  lemma StartNotDone()
    ensures Classify(50, 100) == NotDone
  {
  }

  /** `WinFbx::on_tick` with this application behind the `GfxApp`
      interface: the application is ticked only when NotDone, which is
      what keeps its unsigned decrements from underflowing. */
  method RunTick(fbx: WinFbx, app: MovingPixel)
    modifies fbx`needsRender, fbx`pressedKeys, fbx`releasedKeys, app
    ensures fbx.Keys() == Tick(old(fbx.Keys()))
    ensures old(app.Done()) == NotDone ==>
      app.x as int == old(app.x) + Shift(old(fbx.pressedKeys)).0 &&
      app.y as int == old(app.y) + Shift(old(fbx.pressedKeys)).1 &&
      app.x >= 49 && app.y >= 49 &&
      (fbx.needsRender <==> old(fbx.pressedKeys) * Arrows != {})
    ensures old(app.Done()) != NotDone ==>
      app.x == old(app.x) && app.y == old(app.y) && fbx.needsRender == old(fbx.needsRender)
  {
    if app.Done() == NotDone {
      var redraw := app.OnTick(fbx.pressedKeys);
      fbx.needsRender := redraw;
    }
    fbx.DrainReleased();
  }
}
