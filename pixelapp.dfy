/** What the two moving-pixel applications share: the displacement the
    arrow keys ask for, the condition under which their unsigned
    decrements cannot underflow, and the rule that classifies a position
    as done or not. */
module PixelApp {
  import opened Keys
  import opened Fbx

  /** The four arrow keys. */
  const Arrows: set<MyKey> := {Up, Down, Left, Right}

  /** 1 when `b` holds, 0 otherwise. */
  function Ind(b: bool): int
  {
    if b then 1 else 0
  }

  /** The displacement the arrow keys in `keys` ask for: x grows with
      Right and shrinks with Left, y grows with Down and shrinks with Up.
      A set holds each key once, so each counts at most once. */
  function Shift(keys: set<MyKey>): (int, int)
  {
    (Ind(Right in keys) - Ind(Left in keys), Ind(Down in keys) - Ind(Up in keys))
  }

  /** `usize` coordinates are decremented only when positive. */
  predicate NoUnderflow(x: nat, y: nat, keys: set<MyKey>)
  {
    (Left in keys ==> x >= 1) && (Up in keys ==> y >= 1)
  }

  /** The `done` rule of both applications: Remain when x is below 50,
      otherwise Exit when y is below 50, otherwise NotDone. */
  function Classify(x: nat, y: nat): (status: DoneStatus)
    ensures status == Remain <==> x < 50
    ensures status == Exit <==> x >= 50 && y < 50
    ensures status == NotDone <==> x >= 50 && y >= 50
  {
    if x < 50 then Remain
    else if y < 50 then Exit
    else NotDone
  }

  /** Each coordinate moves by at most one per tick; only letter keys
      held changes nothing, and opposite arrows cancel. */
  lemma ShiftProperties(keys: set<MyKey>, letters: set<MyKey>)
    requires letters !! Arrows
    ensures -1 <= Shift(keys).0 <= 1 && -1 <= Shift(keys).1 <= 1
    ensures Shift(keys + letters) == Shift(keys)
    ensures Shift(letters) == (0, 0)
    ensures Left in keys && Right in keys ==> Shift(keys).0 == 0
    ensures Up in keys && Down in keys ==> Shift(keys).1 == 0
  {
  }

  /** A NotDone position leaves room for one decrement on each axis, so
      a tick run under the NotDone gate cannot underflow, and leaves both
      coordinates at 49 or more. */
  lemma NotDoneAllowsTick(x: nat, y: nat, keys: set<MyKey>)
    requires Classify(x, y) == NotDone
    ensures NoUnderflow(x, y, keys)
    ensures x + Shift(keys).0 >= 49 && y + Shift(keys).1 >= 49
  {
  }
}
