/**
 * The gameplay states and the context that holds the current one
 * (src/classes/gameplay-state/GameplayState.ts).
 */
module GameplayState {
  import opened Wrappers

  /** The shadow colour of every state but PlayingAccelerated. */
  const NEUTRAL_SHADOW: int := 0xeeeeee

  /** Rows of shadow colours that PlayingAccelerated cycles through. */
  type PlatformColors = seq<seq<int>>

  /** `payload[x][y]`, which is `undefined` when either index is out of range. */
  function Cell(payload: PlatformColors, x: nat, y: nat): Option<int>
  {
    if x < |payload| && y < |payload[x]| then Some(payload[x][y]) else None
  }

  /** One draw: the colour returned and the cursor after it. */
  datatype Draw = Draw(color: Option<int>, x: nat, y: nat)

  /**
   * PlayingAcceleratedState.getNextPlatformShadowColor on cursor (x, y): the
   * row's next column, else the next row's first column, else back to (0, 0),
   * returning `payload[0][0]` instead of the cell under the cursor. Reading the
   * length of a missing row fails, which happens exactly when there are no rows.
   */
  function NextShadow(payload: PlatformColors, x: nat, y: nat): (r: Result<Draw>)
    requires payload == [] || x < |payload|
    ensures r.Err? <==> payload == []
    ensures r.Ok? ==> r.value.x < |payload|
  {
    if payload == [] then Err(TypeError)
    else if y < |payload[x]| - 1 then Ok(Draw(Cell(payload, x, y), x, y + 1))
    else if x < |payload| - 1 then Ok(Draw(Cell(payload, x, y), x + 1, 0))
    else Ok(Draw(Cell(payload, 0, 0), 0, 0))
  }

  ghost predicate RowsNonEmpty(payload: PlatformColors)
  {
    payload != [] && forall x :: 0 <= x < |payload| ==> payload[x] != []
  }

  ghost predicate InBounds(payload: PlatformColors, x: nat, y: nat)
  {
    x < |payload| && y < |payload[x]|
  }

  /** With no empty row the cursor never leaves the matrix and every draw is a colour. */
  lemma NextShadowInBounds(payload: PlatformColors, x: nat, y: nat)
    requires RowsNonEmpty(payload) && InBounds(payload, x, y)
    ensures NextShadow(payload, x, y).Ok?
    ensures InBounds(payload, NextShadow(payload, x, y).value.x, NextShadow(payload, x, y).value.y)
    ensures NextShadow(payload, x, y).value.color.Some?
  {
  }

  /** The colours of `n` successive draws from cursor (x, y), stopping at a failure. */
  datatype Run = Run(colors: seq<Option<int>>, x: nat, y: nat)

  function Draws(payload: PlatformColors, x: nat, y: nat, n: nat): (r: Run)
    requires payload == [] || x < |payload|
    ensures payload == [] || r.x < |payload|
    decreases n
  {
    if n == 0 then Run([], x, y)
    else
      match NextShadow(payload, x, y)
      case Err(_) => Run([], x, y)
      case Ok(d) =>
        var rest := Draws(payload, d.x, d.y, n - 1);
        Run([d.color] + rest.colors, rest.x, rest.y)
  }

  /** The matrix read row by row. */
  function Flatten(payload: PlatformColors): seq<int>
  {
    if payload == [] then [] else Flatten(payload[..|payload| - 1]) + payload[|payload| - 1]
  }

  /** Every colour of `s`, each as a present value. */
  function Somes(s: seq<int>): seq<Option<int>>
  {
    if s == [] then [] else [Some(s[0])] + Somes(s[1..])
  }

  /** The flat position of row x's first cell. */
  function Offset(payload: PlatformColors, x: nat): nat
    requires x <= |payload|
  {
    |Flatten(payload[..x])|
  }

  lemma {:induction false} FlattenPrefix(payload: PlatformColors, x: nat)
    requires x <= |payload|
    ensures Flatten(payload[..x]) <= Flatten(payload)
    decreases |payload| - x
  {
    if x < |payload| {
      FlattenPrefix(payload, x + 1);
      assert payload[..x + 1][..x] == payload[..x];
    } else {
      assert payload[..x] == payload;
    }
  }

  lemma FlattenStep(payload: PlatformColors, x: nat)
    requires x < |payload|
    ensures Flatten(payload[..x + 1]) == Flatten(payload[..x]) + payload[x]
  {
    assert payload[..x + 1][..x] == payload[..x];
  }

  /** Cell (x, y) sits at flat position Offset(x) + y. */
  lemma FlatAt(payload: PlatformColors, x: nat, y: nat)
    requires InBounds(payload, x, y)
    ensures Offset(payload, x + 1) == Offset(payload, x) + |payload[x]|
    ensures Offset(payload, x) + y < |Flatten(payload)|
    ensures Flatten(payload)[Offset(payload, x) + y] == payload[x][y]
  {
    FlattenStep(payload, x);
    FlattenPrefix(payload, x + 1);
  }

  /** The last row ends at the end of the flat sequence. */
  lemma LastRowEnds(payload: PlatformColors)
    requires RowsNonEmpty(payload)
    ensures Offset(payload, |payload| - 1) + |payload[|payload| - 1]| == |Flatten(payload)|
  {
    var last := |payload| - 1;
    FlatAt(payload, last, 0);
    assert payload[..last + 1] == payload;
  }

  /** Only the last cell of the last row sits at the last flat position. */
  lemma AtLastCell(payload: PlatformColors, x: nat, y: nat)
    requires RowsNonEmpty(payload) && InBounds(payload, x, y)
    requires Offset(payload, x) + y == |Flatten(payload)| - 1
    ensures x == |payload| - 1 && y == |payload[x]| - 1
  {
    LastRowEnds(payload);
    FlatAt(payload, x, y);
    if x < |payload| - 1 {
      FlatAt(payload, x + 1, 0);
    }
  }

  /** Away from the last cell a draw returns the cell's colour and moves one flat position on. */
  lemma StepFlat(payload: PlatformColors, x: nat, y: nat)
    requires RowsNonEmpty(payload) && InBounds(payload, x, y)
    requires Offset(payload, x) + y < |Flatten(payload)| - 1
    ensures NextShadow(payload, x, y).Ok?
    ensures var d := NextShadow(payload, x, y).value;
      && InBounds(payload, d.x, d.y)
      && d.color == Some(Flatten(payload)[Offset(payload, x) + y])
      && Offset(payload, d.x) + d.y == Offset(payload, x) + y + 1
  {
    LastRowEnds(payload);
    FlatAt(payload, x, y);
    if y == |payload[x]| - 1 && x < |payload| - 1 {
      FlatAt(payload, x + 1, 0);
    }
  }

  /** The draws from flat position k to the end of the matrix, and the wrap. */
  lemma {:induction false} DrawsToEnd(payload: PlatformColors, x: nat, y: nat)
    requires RowsNonEmpty(payload) && InBounds(payload, x, y)
    ensures var n, k := |Flatten(payload)|, Offset(payload, x) + y;
      k < n &&
      Draws(payload, x, y, n - k) ==
        Run(Somes(Flatten(payload)[k..n - 1]) + [Some(payload[0][0])], 0, 0)
    decreases |Flatten(payload)| - (Offset(payload, x) + y)
  {
    var flat := Flatten(payload);
    var n, k := |flat|, Offset(payload, x) + y;
    FlatAt(payload, x, y);
    if k == n - 1 {
      AtLastCell(payload, x, y);
      LastDraw(payload);
      assert flat[k..n - 1] == [];
    } else {
      StepFlat(payload, x, y);
      var d := NextShadow(payload, x, y).value;
      DrawsToEnd(payload, d.x, d.y);
      var rest := Somes(flat[k + 1..n - 1]) + [Some(payload[0][0])];
      DrawStep(payload, x, y, n - k, rest);
      SomesCons(flat, k, n - 1, [Some(payload[0][0])]);
    }
  }

  /** The draw from the last cell returns `payload[0][0]` and wraps to (0, 0). */
  lemma LastDraw(payload: PlatformColors)
    requires RowsNonEmpty(payload)
    ensures var x := |payload| - 1;
      Draws(payload, x, |payload[x]| - 1, 1) == Run([Some(payload[0][0])], 0, 0)
  {
    assert Draws(payload, 0, 0, 0) == Run([], 0, 0);
  }

  /** A draw that succeeds puts its colour in front of the draws after it. */
  lemma DrawStep(payload: PlatformColors, x: nat, y: nat, m: nat, rest: seq<Option<int>>)
    requires payload != [] && x < |payload| && m > 0
    requires var d := NextShadow(payload, x, y).value;
      Draws(payload, d.x, d.y, m - 1) == Run(rest, 0, 0)
    ensures Draws(payload, x, y, m) == Run([NextShadow(payload, x, y).value.color] + rest, 0, 0)
  {
  }

  lemma SomesCons(s: seq<int>, k: nat, e: nat, tail: seq<Option<int>>)
    requires k < e <= |s|
    ensures [Some(s[k])] + (Somes(s[k + 1..e]) + tail) == Somes(s[k..e]) + tail
  {
    assert s[k..e][1..] == s[k + 1..e];
    AppendAssociative([Some(s[k])], Somes(s[k + 1..e]), tail);
  }

  /**
   * A full cycle from (0, 0): as many draws as there are cells return every
   * cell in row-major order except the last one, then `payload[0][0]` again,
   * and leave the cursor back at (0, 0).
   */
  lemma ShadowCycle(payload: PlatformColors)
    requires RowsNonEmpty(payload)
    ensures var flat := Flatten(payload);
      |flat| >= 1 &&
      Draws(payload, 0, 0, |flat|) == Run(Somes(flat[..|flat| - 1]) + [Some(payload[0][0])], 0, 0)
  {
    DrawsToEnd(payload, 0, 0);
    assert Offset(payload, 0) == 0 by { assert payload[..0] == []; }
    assert Flatten(payload)[0..|Flatten(payload)| - 1] == Flatten(payload)[..|Flatten(payload)| - 1];
  }

  /** PlayingAcceleratedState: its cursor is the only mutable state of any state. */
  class PlayingAcceleratedState {
    var currX: nat
    var currY: nat
    const payload: PlatformColors

    ghost predicate Valid()
      reads this
    {
      payload == [] || currX < |payload|
    }

    constructor (payload: PlatformColors)
      ensures Valid() && currX == 0 && currY == 0 && this.payload == payload
    {
      currX := 0;
      currY := 0;
      this.payload := payload;
    }

    method GetNextPlatformShadowColor() returns (r: Result<Option<int>>)
      requires Valid()
      modifies this
      ensures Valid()
      ensures match NextShadow(payload, old(currX), old(currY))
              case Err(e) => r == Err(e) && currX == old(currX) && currY == old(currY)
              case Ok(d) => r == Ok(d.color) && currX == d.x && currY == d.y
    {
      if |payload| == 0 {
        return Err(TypeError);
      }
      var rowLength := |payload|;
      var colLength := |payload[currX]|;
      if currY < colLength - 1 {
        var ret := Cell(payload, currX, currY);
        currY := currY + 1;
        return Ok(ret);
      }
      if currX < rowLength - 1 {
        var ret := Cell(payload, currX, currY);
        currX := currX + 1;
        currY := 0;
        return Ok(ret);
      }
      currX := 0;
      currY := 0;
      return Ok(Cell(payload, 0, 0));
    }
  }

  datatype GameplayState =
    | Static
    | Playing
    | Accelerated(cursor: PlayingAcceleratedState)
    | GameOver

  function PlayerAcceleration(s: GameplayState): real
  {
    match s
    case Static => 0.0
    case Playing => 200.0
    case Accelerated(_) => 200.0
    case GameOver => 0.0
  }

  function PlatformVelocity(s: GameplayState): real
  {
    match s
    case Static => 0.0
    case Playing => -550.0
    case Accelerated(_) => -650.0
    case GameOver => 0.0
  }

  /** Static and GameOver are at rest, the playing states accelerate the ball and scroll. */
  lemma StateReadings(c: PlayingAcceleratedState)
    ensures PlayerAcceleration(Static) == 0.0 && PlatformVelocity(Static) == 0.0
    ensures PlayerAcceleration(GameOver) == 0.0 && PlatformVelocity(GameOver) == 0.0
    ensures PlayerAcceleration(Playing) == 200.0 && PlatformVelocity(Playing) == -550.0
    ensures PlayerAcceleration(Accelerated(c)) == 200.0 && PlatformVelocity(Accelerated(c)) == -650.0
  {
  }

  /** The cursor objects a shadow-colour draw may move. */
  function Cursors(s: GameplayState): set<object>
  {
    if s.Accelerated? then {s.cursor} else {}
  }

  /** The shadow cursor's position: PlayingAccelerated's (currX, currY), and (0, 0) in every other state. */
  function Position(s: GameplayState): (nat, nat)
    reads Cursors(s)
  {
    if s.Accelerated? then (s.cursor.currX, s.cursor.currY) else (0, 0)
  }

  ghost predicate StateValid(s: GameplayState)
    reads Cursors(s)
  {
    s.Accelerated? ==> s.cursor.Valid()
  }

  /** getNextPlatformShadowColor of any state: the neutral colour, or the cursor's draw. */
  method NextPlatformShadowColor(s: GameplayState) returns (r: Result<Option<int>>)
    requires StateValid(s)
    modifies Cursors(s)
    ensures StateValid(s)
    ensures !s.Accelerated? ==> r == Ok(Some(NEUTRAL_SHADOW))
    ensures s.Accelerated? ==>
      match NextShadow(s.cursor.payload, old(s.cursor.currX), old(s.cursor.currY))
      case Err(e) => r == Err(e) && s.cursor.currX == old(s.cursor.currX) && s.cursor.currY == old(s.cursor.currY)
      case Ok(d) => r == Ok(d.color) && s.cursor.currX == d.x && s.cursor.currY == d.y
  {
    if s.Accelerated? {
      r := s.cursor.GetNextPlatformShadowColor();
    } else {
      r := Ok(Some(NEUTRAL_SHADOW));
    }
  }

  /** A registered state-change listener, by identity. */
  datatype Callback = Callback(id: nat)

  /** Where `Array.prototype.splice(index, 1)` starts on an array of `len` items. */
  function SpliceStart(len: nat, index: int): (k: nat)
    ensures k <= len
    ensures 0 <= index ==> k == if index < len then index else len
    ensures index < 0 ==> k == if len + index < 0 then 0 else len + index
  {
    if index < 0 then (if len + index < 0 then 0 else len + index)
    else if index < len then index else len
  }

  /** `splice(index, 1)`: removes one item and shifts the later ones down a place. */
  function SpliceOne<T>(s: seq<T>, index: int): (r: seq<T>)
    ensures var k := SpliceStart(|s|, index);
      && |r| == (if k < |s| then |s| - 1 else |s|)
      && (forall j :: 0 <= j < k && j < |s| ==> r[j] == s[j])
      && (forall j :: k < j < |s| ==> r[j - 1] == s[j])
  {
    var k := SpliceStart(|s|, index);
    if k < |s| then s[..k] + s[k + 1..] else s
  }

  /** GameplayStateMachine: the current state and the state-change listeners. */
  class GameplayStateMachine {
    var state: GameplayState
    var eventListeners: seq<Callback>

    ghost predicate Valid()
      reads this, Cursors(state)
    {
      StateValid(state)
    }

    constructor (initialState: GameplayState)
      requires StateValid(initialState)
      ensures Valid() && state == initialState && eventListeners == []
    {
      state := initialState;
      eventListeners := [];
    }

    function GetState(): GameplayState
      reads this
    {
      state
    }

    /**
     * Installs `newState` whatever the current state is (GameOver included) and
     * returns it, with the listeners to call with it: each registered listener
     * once, in registration order.
     */
    method ChangeState(newState: GameplayState) returns (r: GameplayState, invoked: seq<Callback>)
      requires StateValid(newState)
      modifies this
      ensures Valid()
      ensures state == newState && r == newState
      ensures eventListeners == old(eventListeners) && invoked == eventListeners
    {
      state := newState;
      invoked := eventListeners;
      r := newState;
    }

    function GetPlayerAcceleration(): real
      reads this
    {
      PlayerAcceleration(state)
    }

    function GetPlatformVelocity(): real
      reads this
    {
      PlatformVelocity(state)
    }

    method GetNextPlatformShadowColor() returns (r: Result<Option<int>>)
      requires Valid()
      modifies Cursors(state)
      ensures Valid()
      ensures !state.Accelerated? ==> r == Ok(Some(NEUTRAL_SHADOW))
      ensures state.Accelerated? ==>
        match NextShadow(state.cursor.payload, old(state.cursor.currX), old(state.cursor.currY))
        case Err(e) => r == Err(e) && state.cursor.currX == old(state.cursor.currX) && state.cursor.currY == old(state.cursor.currY)
        case Ok(d) => r == Ok(d.color) && state.cursor.currX == d.x && state.cursor.currY == d.y
    {
      r := NextPlatformShadowColor(state);
    }

    /** Appends a listener; its handle is its index in the list. */
    method OnStateChange(callback: Callback) returns (handle: nat)
      modifies this
      ensures state == old(state)
      ensures eventListeners == old(eventListeners) + [callback]
      ensures handle == |old(eventListeners)| && eventListeners[handle] == callback
    {
      eventListeners := eventListeners + [callback];
      handle := |eventListeners| - 1;
    }

    /** Removes the listener in slot `index`; the handles of later listeners go stale. */
    method RemoveEventListener(index: int)
      modifies this
      ensures state == old(state)
      ensures eventListeners == SpliceOne(old(eventListeners), index)
    {
      eventListeners := SpliceOne(eventListeners, index);
    }
  }
}
