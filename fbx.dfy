/** The window-side state of the library (`WinFbx` in src/lib.rs): the two
    key sets that carry keyboard input across a tick boundary, the pause
    and redraw flags, and the frame size. The application behind the
    `GfxApp` interface is not an object here: each operation that consults
    it receives what it answers (its `DoneStatus`, or its `on_tick` as a
    function of the keys it is shown). */
module Fbx {
  import opened Keys

  /** What an application reports about itself (`DoneStatus`). */
  datatype DoneStatus = Exit | Remain | NotDone

  /** The two states a host key event can carry. */
  datatype ElementState = Pressed | Released

  /** The tracker's two sets: keys held, and keys released since the last tick. */
  datatype KeyState = KeyState(pressed: set<MyKey>, released: set<MyKey>)

  /** A press of a recognised key: it joins the held set. */
  function Press(s: KeyState, k: MyKey): KeyState
  {
    KeyState(s.pressed + {k}, s.released)
  }

  /** A release of a recognised key: it is only recorded as pending. */
  function Release(s: KeyState, k: MyKey): KeyState
  {
    KeyState(s.pressed, s.released + {k})
  }

  /** The effect of a host key event on the tracker: keys the mapping
      refuses are dropped. */
  function Record(s: KeyState, key: Key, state: ElementState): (r: KeyState)
    ensures TryFromKey(key).Err? ==> r == s
    ensures TryFromKey(key).Ok? ==>
      TryFromKey(key).value in (if state == Pressed then r.pressed else r.released)
    ensures state == Released ==> r.pressed == s.pressed
    ensures state == Pressed ==> r.released == s.released
    ensures s.pressed <= r.pressed && s.released <= r.released
    ensures TryFromKey(key).Ok? ==>
      r.pressed <= s.pressed + {TryFromKey(key).value} &&
      r.released <= s.released + {TryFromKey(key).value}
  {
    match TryFromKey(key)
    case Ok(k) => if state == Pressed then Press(s, k) else Release(s, k)
    case Err => s
  }

  /** Recording the same event twice is the same as recording it once, so
      a duplicate press or release has no further effect. */
  lemma RecordIdempotent(s: KeyState, key: Key, state: ElementState)
    ensures Record(Record(s, key, state), key, state) == Record(s, key, state)
  {
  }

  /** The bookkeeping at the end of a tick: released keys leave the held
      set and the pending set is emptied. */
  function Tick(s: KeyState): (r: KeyState)
    ensures r.released == {}
    ensures r.pressed <= s.pressed
    ensures forall k :: k in s.pressed ==> (k in r.pressed <==> k !in s.released)
  {
    KeyState(s.pressed - s.released, {})
  }

  /** A second tick with no event in between changes nothing. */
  lemma TickIdempotent(s: KeyState)
    ensures Tick(Tick(s)) == Tick(s)
  {
  }

  /** A key released and then pressed again before the tick is still
      removed by the tick, because the release stays pending. */
  lemma ReleaseThenPressStillRemoved(s: KeyState, k: MyKey)
    ensures k !in Tick(Press(Release(s, k), k)).pressed
  {
  }

  /** A key pressed and released within one tick window is held when the
      application looks at it and gone afterwards. */
  lemma PressReleaseWithinTick(s: KeyState, k: MyKey)
    ensures k in Press(s, k).pressed
    ensures k in Release(Press(s, k), k).pressed
    ensures k !in Tick(Release(Press(s, k), k)).pressed
  {
  }

  /** `WinFbx::done`: the loop is left only when the application says
      Exit; Remain keeps the window open just as NotDone does. */
  function Done(status: DoneStatus): (exit: bool)
    ensures exit <==> status == Exit
    ensures !exit <==> status == Remain || status == NotDone
  {
    status == Exit
  }

  class WinFbx {
    var pause: bool
    var width: nat
    var height: nat
    var pressedKeys: set<MyKey>
    var releasedKeys: set<MyKey>
    var needsRender: bool

    /** The tracker's sets as one value. */
    function Keys(): KeyState
      reads this
    {
      KeyState(pressedKeys, releasedKeys)
    }

    /** The part of `WinFbx::new` that is not window creation. */
    constructor (width: nat, height: nat)
      ensures this.width == width && this.height == height
      ensures !pause && needsRender
      ensures pressedKeys == {} && releasedKeys == {}
    {
      this.width := width;
      this.height := height;
      pause := false;
      pressedKeys := {};
      releasedKeys := {};
      needsRender := true;
    }

    /** `on_redraw`: when a frame is due the application draws and the
        buffer is presented; a failed present keeps the frame due. `drew`
        is whether the application's `draw` was called: exactly when a
        frame was due, whatever the application's status. */
    method OnRedraw(renderOk: bool) returns (drew: bool)
      modifies this`needsRender
      ensures drew == old(needsRender)
      ensures needsRender == (old(needsRender) && !renderOk)
    {
      drew := needsRender;
      if needsRender {
        if !renderOk {
          return;
        }
      }
      needsRender := false;
    }

    /** The `retain`/`clear` pair at the end of `on_tick`. */
    method DrainReleased()
      modifies this`pressedKeys, this`releasedKeys
      ensures Keys() == Tick(old(Keys()))
    {
      pressedKeys := set k | k in pressedKeys && k !in releasedKeys;
      releasedKeys := {};
    }

    /** `on_tick`: the application is asked, with the held set as it was
        before this tick's releases are applied, only while it is NotDone;
        the tick's bookkeeping happens in every case. */
    method OnTick(status: DoneStatus, appOnTick: set<MyKey> -> bool) returns (called: bool)
      modifies this`needsRender, this`pressedKeys, this`releasedKeys
      ensures called <==> status == NotDone
      ensures needsRender == if called then appOnTick(old(pressedKeys)) else old(needsRender)
      ensures Keys() == Tick(old(Keys()))
    {
      called := status == NotDone;
      if called {
        needsRender := appOnTick(pressedKeys);
      }
      DrainReleased();
    }

    /** `process_kbd_input` for a key event that passed the repeat filter.
        Returns whether the event asks the loop to exit (Escape pressed). */
    method ProcessKbdInput(key: Key, state: ElementState) returns (exit: bool)
      modifies this`pressedKeys, this`releasedKeys, this`pause
      ensures Keys() == Record(old(Keys()), key, state)
      ensures pause <==> (old(pause) != (state == Pressed && key == Named(Space)))
      ensures exit <==> state == Pressed && key == Named(Escape)
    {
      var mapped := TryFromKey(key);
      if mapped.Ok? {
        if state == Pressed {
          pressedKeys := pressedKeys + {mapped.value};
        } else if state == Released {
          releasedKeys := releasedKeys + {mapped.value};
        }
      }
      exit := false;
      if state == Pressed {
        match key {
          case Named(Escape) => exit := true;
          case Named(Space) => pause := !pause;
          case _ =>
        }
      }
    }

    /** `process_resize`: the new size is recorded and a frame is due. */
    method ProcessResize(newWidth: nat, newHeight: nat)
      modifies this`width, this`height, this`needsRender
      ensures width == newWidth && height == newHeight && needsRender
    {
      width := newWidth;
      height := newHeight;
      needsRender := true;
    }
  }

  /** A resize makes a frame due, so the redraw that follows calls the
      application's `draw`. `on_redraw` does not consult the application's
      status, so this holds under Remain too. */
  method ResizeThenRedrawDraws(fbx: WinFbx, newWidth: nat, newHeight: nat, renderOk: bool)
    returns (drew: bool)
    modifies fbx`width, fbx`height, fbx`needsRender
    ensures drew
    ensures fbx.needsRender == !renderOk
  {
    fbx.ProcessResize(newWidth, newHeight);
    drew := fbx.OnRedraw(renderOk);
  }
}
