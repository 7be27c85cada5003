/** The event-loop handler of the library (`WinitHandler` in src/lib.rs):
    the fixed-tick scheduler run when the host's event queue is drained,
    and the dispatch of window events to the `WinFbx`. Time is an integer
    number of nanoseconds given by the caller; what the application
    answers is given as in module Fbx. */
module Handler {
  import opened Keys
  import opened Fbx

  const NANOS_PER_SEC: nat := 1_000_000_000
  const U16_MAX: nat := 0xFFFF
  const U64_MAX: nat := 0xFFFF_FFFF_FFFF_FFFF

  /** `hz_to_nanosec_period`: the length of one tick, in nanoseconds, at
      `hz` ticks per second, rounded down. At 0 Hz the floating-point
      period is infinite and the cast to `u64` saturates. */
  function HzToNanosecPeriod(hz: nat): (period: nat)
    requires hz <= U16_MAX
    ensures hz == 0 ==> period == U64_MAX
    ensures hz > 0 ==> period * hz <= NANOS_PER_SEC < (period + 1) * hz
    ensures period <= U64_MAX
  {
    if hz == 0 then U64_MAX else NANOS_PER_SEC / hz
  }

  /** The two values the library's own test fixes. */
  lemma HzToNanosecPeriodExamples()
    ensures HzToNanosecPeriod(60) == 16_666_666
    ensures HzToNanosecPeriod(1) == 1_000_000_000
  {
  }

  /** `Instant::duration_since`: the time from `earlier` to `now`, zero
      when `now` is not later. */
  function DurationSince(now: int, earlier: int): (d: nat)
    ensures now >= earlier ==> earlier + d == now
    ensures now < earlier ==> d == 0
  {
    if now >= earlier then now - earlier else 0
  }

  /** The outcomes of `about_to_wait`: leave the loop, run a tick and ask
      for a redraw, sleep until a deadline, or sleep until the next event. */
  datatype Flow = ExitLoop | TickAndRedraw | WaitUntil(deadline: int) | Wait

  /** The decision `about_to_wait` takes, from the application's status,
      the clock, the last tick, the tick length, the `always_tick` flag and
      whether any key is held. */
  function Decide(status: DoneStatus, now: int, lastFrame: int, tick: nat,
                  alwaysTick: bool, anyPressed: bool): (f: Flow)
    ensures f == ExitLoop <==> status == Exit
    ensures f == TickAndRedraw <==> status != Exit && DurationSince(now, lastFrame) >= tick
    ensures f.WaitUntil? <==>
      status != Exit && DurationSince(now, lastFrame) < tick && (alwaysTick || anyPressed)
    ensures f == Wait <==>
      status != Exit && DurationSince(now, lastFrame) < tick && !alwaysTick && !anyPressed
    ensures f.WaitUntil? ==> now < f.deadline <= now + tick
    ensures f.WaitUntil? && now >= lastFrame ==> f.deadline == lastFrame + tick
  {
    if status == Exit then ExitLoop
    else
      var elapsed := DurationSince(now, lastFrame);
      if elapsed >= tick then TickAndRedraw
      else if alwaysTick || anyPressed then WaitUntil(now + (tick - elapsed))
      else Wait
  }

  /** The window events the handler distinguishes. */
  datatype WindowEvent =
    | CloseRequested
    | Resized(width: nat, height: nat)
    | KeyboardInput(key: Key, state: ElementState, repeat: bool)
    | RedrawRequested
    | CursorMoved
    | MouseInput(pressed: bool)
    | Other

  class WinitHandler {
    const winfbx: WinFbx
    var width: nat
    var height: nat
    var lastFrame: int
    var tick: nat
    var alwaysTick: bool

    /** `WinitHandler::new` followed by window creation: `now` is the
        clock reading taken as the last tick. */
    constructor (size: (nat, nat), tickPerSecond: nat, now: int)
      requires tickPerSecond <= U16_MAX
      ensures width == size.0 && height == size.1
      ensures lastFrame == now && tick == HzToNanosecPeriod(tickPerSecond)
      ensures !alwaysTick
      ensures fresh(winfbx) && winfbx.Keys() == KeyState({}, {}) && winfbx.needsRender
    {
      width := size.0;
      height := size.1;
      lastFrame := now;
      tick := HzToNanosecPeriod(tickPerSecond);
      alwaysTick := false;
      winfbx := new WinFbx(size.0, size.1);
    }

    /** `set_always_tick`. */
    method SetAlwaysTick(val: bool)
      modifies this`alwaysTick
      ensures alwaysTick == val
    {
      alwaysTick := val;
    }

    /** `about_to_wait`: runs a tick when one period has passed since the
        last one; otherwise sleeps until the next tick while keys are held
        (or ticking is continuous), and until the next event when not.
        Only the tick outcome moves `lastFrame` or touches the `WinFbx`. */
    method AboutToWait(now: int, status: DoneStatus, appOnTick: set<MyKey> -> bool)
      returns (flow: Flow)
      modifies this`lastFrame, winfbx`needsRender, winfbx`pressedKeys, winfbx`releasedKeys
      ensures flow == Decide(status, now, old(lastFrame), tick, alwaysTick,
                             old(winfbx.pressedKeys) != {})
      ensures lastFrame == if flow == TickAndRedraw then now else old(lastFrame)
      ensures flow == TickAndRedraw ==>
        winfbx.Keys() == Tick(old(winfbx.Keys())) &&
        winfbx.needsRender == if status == NotDone then appOnTick(old(winfbx.pressedKeys))
                              else old(winfbx.needsRender)
      ensures flow != TickAndRedraw ==>
        winfbx.Keys() == old(winfbx.Keys()) && winfbx.needsRender == old(winfbx.needsRender)
    {
      if Done(status) {
        return ExitLoop;
      }
      var elapsed := DurationSince(now, lastFrame);
      if elapsed >= tick {
        lastFrame := now;
        var _ := winfbx.OnTick(status, appOnTick);
        flow := TickAndRedraw;
      } else {
        if alwaysTick || winfbx.pressedKeys != {} {
          var toNextTick := tick - elapsed;
          flow := WaitUntil(now + toNextTick);
        } else {
          flow := Wait;
        }
      }
    }

    /** `window_event`: a close request or a pressed Escape asks the loop
        to exit; repeated key events are filtered out before they reach
        the tracker; `renderOk` is whether presenting a frame succeeds. */
    method HandleWindowEvent(event: WindowEvent, renderOk: bool) returns (exit: bool)
      modifies winfbx
      ensures exit <==> (event == CloseRequested ||
        (event.KeyboardInput? && !event.repeat && event.state == Pressed && event.key == Named(Escape)))
      ensures event.KeyboardInput? && !event.repeat ==>
        winfbx.Keys() == Record(old(winfbx.Keys()), event.key, event.state) &&
        (winfbx.pause <==> (old(winfbx.pause) != (event.state == Pressed && event.key == Named(Space))))
      ensures !(event.KeyboardInput? && !event.repeat) ==>
        winfbx.Keys() == old(winfbx.Keys()) && winfbx.pause == old(winfbx.pause)
      ensures event.Resized? ==>
        winfbx.width == event.width && winfbx.height == event.height && winfbx.needsRender
      ensures !event.Resized? ==> winfbx.width == old(winfbx.width) && winfbx.height == old(winfbx.height)
      ensures event == RedrawRequested ==> winfbx.needsRender == (old(winfbx.needsRender) && !renderOk)
      ensures !event.Resized? && event != RedrawRequested ==> winfbx.needsRender == old(winfbx.needsRender)
    {
      exit := false;
      match event {
        case CloseRequested =>
          exit := true;
        case Resized(w, h) =>
          winfbx.ProcessResize(w, h);
        case KeyboardInput(key, state, repeat) =>
          if !repeat {
            exit := winfbx.ProcessKbdInput(key, state);
          }
        case RedrawRequested =>
          var _ := winfbx.OnRedraw(renderOk);
        case CursorMoved =>
        case MouseInput(_) =>
        case Other =>
      }
    }
  }

  /** The scheduler leaves the loop exactly when `WinFbx::done` holds. */
  lemma ExitLoopExactlyWhenDone(status: DoneStatus, now: int, lastFrame: int, tick: nat,
                                alwaysTick: bool, anyPressed: bool)
    ensures Decide(status, now, lastFrame, tick, alwaysTick, anyPressed) == ExitLoop <==> Done(status)
  {
  }

  /** A held key makes the scheduler wake for the next tick rather than
      sleep until the next event. */
  lemma HeldKeyKeepsTicking(now: int, lastFrame: int, tick: nat, alwaysTick: bool)
    requires now >= lastFrame && now - lastFrame < tick
    ensures Decide(NotDone, now, lastFrame, tick, alwaysTick, true) == WaitUntil(lastFrame + tick)
  {
  }
}
