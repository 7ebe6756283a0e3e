/** The game-over menu: a panel that stays hidden until the game is over,
    then pauses the game and lets the player step through its buttons with
    the steering wheel and press the selected one with the submit button. */
module GameOverUI {
  import opened Engine

  /** A UI game object; `hasButton` says whether it carries a `Button`
      component. Two widgets are the same object when they are equal. */
  datatype Widget = Widget(id: nat, hasButton: bool)

  /** A scene-load request: the scene that is active now, or one by name. */
  datatype SceneRequest = ReloadActive | LoadNamed(name: string)

  /** The engine's global time scale (`Time.timeScale`). */
  class GameTime {
    var timeScale: real

    constructor ()
      ensures timeScale == 1.0
    {
      timeScale := 1.0;
    }
  }

  /** Every widget in the list carries a button. */
  ghost predicate AllButtons(buttons: seq<Widget>)
  {
    forall i :: 0 <= i < |buttons| ==> buttons[i].hasButton
  }

  /** No widget occurs twice in the list. */
  ghost predicate Distinct(buttons: seq<Widget>)
  {
    forall i, j :: 0 <= i < j < |buttons| ==> buttons[i] != buttons[j]
  }

  /** `System.Array.IndexOf`: the first position holding `w`, or -1. */
  function IndexOf(buttons: seq<Widget>, w: Widget): (index: int)
    ensures -1 <= index < |buttons|
    ensures index == -1 <==> w !in buttons
    ensures 0 <= index ==> buttons[index] == w && w !in buttons[..index]
  {
    if |buttons| == 0 then -1
    else if buttons[0] == w then 0
    else
      var rest := IndexOf(buttons[1..], w);
      assert buttons[1..][..rest + 1] == buttons[..rest + 2][1..] by {
        assert rest + 2 <= |buttons| || rest == -1;
      }
      if rest == -1 then -1 else rest + 1
  }

  /** The wrap-around `MoveSelection` applies to a shifted index: below the
      first button it goes to the last, past the last it goes to the first. */
  function Wrap(index: int, count: nat): (j: int)
    requires count > 0
    ensures 0 <= j < count
  {
    if index < 0 then count - 1
    else if index >= count then 0
    else index
  }

  /** The selection after `MoveSelection(direction)`: unchanged when nothing is
      selected or the selected object is not one of the panel's buttons (an
      object without a button looks up as null, which the list never holds);
      otherwise the button `direction` places further, wrapped. */
  function Moved(buttons: seq<Widget>, current: Option<Widget>, direction: int): (next: Option<Widget>)
    ensures current.None? || !current.value.hasButton || current.value !in buttons ==> next == current
    ensures current.Some? && current.value.hasButton && current.value in buttons ==>
      next.Some? && next.value in buttons
  {
    if current.None? then current
    else
      var index := if current.value.hasButton then IndexOf(buttons, current.value) else -1;
      if index == -1 then current
      else Some(buttons[Wrap(index + direction, |buttons|)])
  }

  /** The move one `Update` asks for: +1 when the steering axis crosses
      above 0.5, -1 when it crosses below -0.5, 0 otherwise. */
  function Navigation(lastSteer: real, steer: real): (step: int)
    ensures -1 <= step <= 1
    ensures step == 1 <==> lastSteer <= 0.5 < steer
    ensures step == -1 <==> steer < -0.5 <= lastSteer
  {
    if steer > 0.5 && lastSteer <= 0.5 then 1
    else if steer < -0.5 && lastSteer >= -0.5 then -1
    else 0
  }

  /** In a list without repeats, each button is found at its own position. */
  lemma {:induction false} IndexOfDistinct(buttons: seq<Widget>, i: nat)
    requires Distinct(buttons) && i < |buttons|
    ensures IndexOf(buttons, buttons[i]) == i
  {
    if i > 0 {
      assert buttons[0] != buttons[i];
      assert buttons[1..][i - 1] == buttons[i];
      IndexOfDistinct(buttons[1..], i - 1);
    }
  }

  /** The wrap-around agrees with arithmetic modulo the count for a shift of
      at most one place past either end. */
  lemma WrapIsModular(index: int, count: nat)
    requires count > 0 && -1 <= index <= count
    ensures Wrap(index, count) == index % count
  {
    if index == -1 {
      assert index == (count - 1) - count;
    } else if index == count {
      assert index == 0 + count;
    }
  }

  /** One step right from the last button selects the first, one step left
      from the first selects the last; every other single step is the index
      plus or minus one. Together: a single step is arithmetic modulo the
      number of buttons. */
  lemma StepIsModular(buttons: seq<Widget>, i: nat, direction: int)
    requires Distinct(buttons) && AllButtons(buttons) && i < |buttons|
    requires direction == 1 || direction == -1
    ensures Moved(buttons, Some(buttons[i]), direction) == Some(buttons[(i + direction) % |buttons|])
  {
    IndexOfDistinct(buttons, i);
    WrapIsModular(i + direction, |buttons|);
  }

  /** A step right from the last button wraps to the first, and a step left
      from the first wraps to the last. */
  lemma WrapsAtTheEnds(buttons: seq<Widget>)
    requires Distinct(buttons) && AllButtons(buttons) && |buttons| > 0
    ensures Moved(buttons, Some(buttons[|buttons| - 1]), 1) == Some(buttons[0])
    ensures Moved(buttons, Some(buttons[0]), -1) == Some(buttons[|buttons| - 1])
  {
    StepIsModular(buttons, |buttons| - 1, 1);
    StepIsModular(buttons, 0, -1);
  }

  /** Steering right and then left brings the selection back to where it was,
      on or off the panel. */
  lemma ForwardThenBackRestores(buttons: seq<Widget>, current: Option<Widget>)
    requires Distinct(buttons) && AllButtons(buttons)
    ensures Moved(buttons, Moved(buttons, current, 1), -1) == current
  {
    if current.Some? && current.value in buttons && current.value.hasButton {
      var i := IndexOf(buttons, current.value);
      var n := |buttons|;
      StepIsModular(buttons, i, 1);
      var j := (i + 1) % n;
      StepIsModular(buttons, j, -1);
      assert (j - 1) % n == i by {
        if i + 1 < n {
          assert j == i + 1;
        } else {
          assert j == 0 && i == n - 1;
          assert (0 - 1) % n == n - 1 by { assert -1 == (n - 1) - n; }
        }
      }
    }
  }

  /** Holding the wheel still never moves the selection a second time. */
  lemma HoldingDoesNotRepeat(steer: real)
    ensures Navigation(steer, steer) == 0
  {
  }

  /** The steering axis must come back to 0.5 or below before a second step
      right, and back to -0.5 or above before a second step left. */
  lemma NoRepeatWithoutRelease(previous: real, last: real, steer: real)
    ensures !(Navigation(previous, last) == 1 && Navigation(last, steer) == 1)
    ensures !(Navigation(previous, last) == -1 && Navigation(last, steer) == -1)
  {
  }

  /** The menu component. Its panel and the button selected first are fixed
      in the inspector; `selected` is the event system's current selection. */
  class UIManager {
    const panelButtons: seq<Widget>
    const firstSelectedButton: Widget

    var panelActive: bool
    var isGameOver: bool
    var lastSteer: real
    var selected: Option<Widget>

    /** The panel's buttons are what `GetComponentsInChildren<Button>`
        returns, so each carries a button and none occurs twice, and the
        button selected first is a button. */
    ghost predicate Valid()
    {
      AllButtons(panelButtons) && Distinct(panelButtons) && firstSelectedButton.hasButton
    }

    constructor (panelButtons: seq<Widget>, firstSelectedButton: Widget, panelActive: bool, selected: Option<Widget>)
      requires AllButtons(panelButtons) && Distinct(panelButtons) && firstSelectedButton.hasButton
      ensures Valid()
      ensures this.panelButtons == panelButtons && this.firstSelectedButton == firstSelectedButton
      ensures this.panelActive == panelActive && this.selected == selected
      ensures !isGameOver && lastSteer == 0.0
    {
      this.panelButtons := panelButtons;
      this.firstSelectedButton := firstSelectedButton;
      this.selected := selected;
      this.panelActive := panelActive;
      isGameOver := false;
      lastSteer := 0.0;
    }

    /** Hides the panel. */
    method Start()
      modifies this`panelActive
      ensures !panelActive
    {
      panelActive := false;
    }

    /** One frame: nothing at all until the game is over; then a steering
        edge moves the selection one button, `lastSteer` records the value
        read, and a submit press clicks the selected object's button, which
        is returned. */
    method Update(steer: real, submitTriggered: bool) returns (clicked: Option<Widget>)
      modifies this`lastSteer, this`selected
      ensures !old(isGameOver) ==> lastSteer == old(lastSteer) && selected == old(selected) && clicked == None
      ensures old(isGameOver) ==> lastSteer == steer
      ensures old(isGameOver) ==>
        var step := Navigation(old(lastSteer), steer);
        selected == if step == 0 then old(selected) else Moved(panelButtons, old(selected), step)
      ensures old(isGameOver) && old(selected).Some? && old(selected).value in panelButtons
              && old(selected).value.hasButton
        ==> selected.Some? && selected.value in panelButtons
      ensures clicked.Some? <==> old(isGameOver) && submitTriggered && selected.Some? && selected.value.hasButton
      ensures clicked.Some? ==> clicked == selected
    {
      clicked := None;
      if !isGameOver {
        return;
      }
      if steer > 0.5 && lastSteer <= 0.5 {
        MoveSelection(1);
      } else if steer < -0.5 && lastSteer >= -0.5 {
        MoveSelection(-1);
      }
      lastSteer := steer;
      if submitTriggered {
        if selected.Some? {
          if selected.value.hasButton {
            clicked := selected;
          }
        }
      }
    }

    /** Latches the game-over state: the first call shows the panel, selects
        the first button and pauses the game; later calls change nothing. */
    method ShowGameOver(time: GameTime)
      modifies this`isGameOver, this`panelActive, this`selected, time
      ensures isGameOver
      ensures old(isGameOver) ==>
        panelActive == old(panelActive) && selected == old(selected) && time.timeScale == old(time.timeScale)
      ensures !old(isGameOver) ==>
        panelActive && selected == Some(firstSelectedButton) && time.timeScale == 0.0
    {
      if isGameOver {
        return;
      }
      isGameOver := true;
      panelActive := true;
      selected := Some(firstSelectedButton);
      time.timeScale := 0.0;
    }

    /** Steps the selection `direction` buttons along the panel, wrapping
        past either end. */
    method MoveSelection(direction: int)
      modifies this`selected
      ensures selected == Moved(panelButtons, old(selected), direction)
      ensures old(selected).Some? && old(selected).value in panelButtons && old(selected).value.hasButton
        ==> selected.Some? && selected.value in panelButtons
      ensures Valid() && (direction == 1 || direction == -1) && old(selected).Some? && old(selected).value in panelButtons
        ==> selected == Some(panelButtons[(IndexOf(panelButtons, old(selected).value) + direction) % |panelButtons|])
    {
      if Valid() && (direction == 1 || direction == -1) && selected.Some? && selected.value in panelButtons {
        StepIsModular(panelButtons, IndexOf(panelButtons, selected.value), direction);
      }
      if selected.None? {
        return;
      }
      var buttons := panelButtons;
      var index := if selected.value.hasButton then IndexOf(buttons, selected.value) else -1;
      if index == -1 {
        return;
      }
      index := index + direction;
      if index < 0 {
        index := |buttons| - 1;
      } else if index >= |buttons| {
        index := 0;
      }
      selected := Some(buttons[index]);
    }

    /** Resumes time and asks for the current scene to be loaded again. */
    method TryAgain(time: GameTime) returns (request: SceneRequest)
      modifies time
      ensures time.timeScale == 1.0 && request == ReloadActive
    {
      time.timeScale := 1.0;
      request := ReloadActive;
    }

    /** Resumes time and asks for the main menu scene. */
    method GoToMainMenu(time: GameTime) returns (request: SceneRequest)
      modifies time
      ensures time.timeScale == 1.0 && request == LoadNamed("MainMenu")
    {
      time.timeScale := 1.0;
      request := LoadNamed("MainMenu");
    }
  }
}
