/** The window callbacks (src/callbacks.cpp) and the input state they keep
    on the game (src/Classes/Game.cpp): a table of held keys, the mouse
    button slots, three toggles and the last cursor position, with -1 as the
    "no drag in progress" sentinel. Each callback does nothing when no game
    is attached to the window. What a callback asks of GLFW, OpenGL or the
    camera is returned as a list of effects; the camera's own arithmetic is
    not part of this model. Which scene is the main one is looked up by the
    caller and passed in as `hasMainScene`. */
module Input {

  // GLFW constants used by the callbacks.
  const KeyEscape := 256
  const Key1 := 49
  const Key2 := 50
  const Key3 := 51
  const KeyLeftShift := 340
  const Release := 0
  const Press := 1
  const MouseButtonRight := 1
  const MouseButtonMiddle := 2

  /** Sizes of the key table and of the mouse button slots. */
  const KeyCount := 1024
  const MouseButtonCount := 8

  /** The cursor modes the capture toggle switches between. */
  datatype CursorMode = Captured | Disabled

  /** What a callback asks of the window system, the GL or the camera. */
  datatype Effect =
    | CloseWindow
    | DepthTest(enabled: bool)
    | SetCursorMode(mode: CursorMode)
    | SwapInterval(interval: int)
    | Viewport(width: int, height: int)
    | UpdateProjection(width: int, height: int)
    | Pan(dx: real, dy: real)
    | Orbit(dx: real, dy: real)
    | Zoom(offset: real)

  /** The input state of a game, as a value. */
  datatype InputState = InputState(
    keys: seq<bool>,
    mouseKeys: seq<bool>,
    depthTest: bool,
    captureCursor: bool,
    vSync: bool,
    lastX: real,
    lastY: real)

  predicate WellFormed(s: InputState)
  {
    |s.keys| == KeyCount && |s.mouseKeys| == MouseButtonCount
  }

  // ---------------------------------------------------------------------------
  // Keyboard

  /** The key table after an event: a key inside the table is held after a
      press and released after a release; any other action, and any key
      outside the table, leaves it as it was. */
  function KeyTable(keys: seq<bool>, key: int, action: int): (r: seq<bool>)
    requires |keys| == KeyCount
    ensures |r| == KeyCount
    ensures forall k :: 0 <= k < KeyCount && k != key ==> r[k] == keys[k]
    ensures 0 <= key < KeyCount && action == Press ==> r[key]
    ensures 0 <= key < KeyCount && action == Release ==> !r[key]
    ensures 0 <= key < KeyCount && action != Press && action != Release ==> r[key] == keys[key]
  {
    if 0 <= key < KeyCount then
      if action == Press then keys[key := true]
      else if action == Release then keys[key := false]
      else keys
    else keys
  }

  /** The state after a key event: releasing 1, 2 or 3 flips the depth
      test, the cursor capture or v-sync; then the key table is updated. */
  function AfterKey(s: InputState, key: int, action: int): InputState
    requires WellFormed(s)
  {
    s.(keys := KeyTable(s.keys, key, action),
       depthTest := if key == Key1 && action == Release then !s.depthTest else s.depthTest,
       captureCursor := if key == Key2 && action == Release then !s.captureCursor else s.captureCursor,
       vSync := if key == Key3 && action == Release then !s.vSync else s.vSync)
  }

  /** What a key event asks for, in order: closing the window on an ESC
      press, then the new depth test, cursor mode or swap interval on a
      release of 1, 2 or 3. */
  function KeyEffects(s: InputState, key: int, action: int): seq<Effect>
  {
    (if key == KeyEscape && action == Press then [CloseWindow] else [])
    + (if key == Key1 && action == Release then [DepthTest(!s.depthTest)] else [])
    + (if key == Key2 && action == Release then [SetCursorMode(if !s.captureCursor then Captured else Disabled)] else [])
    + (if key == Key3 && action == Release then [SwapInterval(if !s.vSync then 1 else 0)] else [])
  }

  /** Releasing the same toggle key twice restores every toggle, and the
      second release leaves the key table as the first one did. */
  lemma ToggleTwiceRestores(s: InputState, key: int)
    requires WellFormed(s) && (key == Key1 || key == Key2 || key == Key3)
    ensures var twice := AfterKey(AfterKey(s, key, Release), key, Release);
      twice.depthTest == s.depthTest && twice.captureCursor == s.captureCursor && twice.vSync == s.vSync
      && twice.keys == AfterKey(s, key, Release).keys
  {
    var once := AfterKey(s, key, Release);
    assert KeyTable(once.keys, key, Release) == once.keys;
  }

  /** Only a release of 1, 2 or 3 changes a toggle, and only its own one. */
  lemma TogglesOnlyOnRelease(s: InputState, key: int, action: int)
    requires WellFormed(s)
    ensures AfterKey(s, key, action).depthTest != s.depthTest <==> key == Key1 && action == Release
    ensures AfterKey(s, key, action).captureCursor != s.captureCursor <==> key == Key2 && action == Release
    ensures AfterKey(s, key, action).vSync != s.vSync <==> key == Key3 && action == Release
  {
  }

  /** The window is asked to close exactly on a press of ESC. */
  lemma CloseOnlyOnEscape(s: InputState, key: int, action: int)
    ensures CloseWindow in KeyEffects(s, key, action) <==> key == KeyEscape && action == Press
  {
    var e := KeyEffects(s, key, action);
    if key == KeyEscape && action == Press {
      assert e[0] == CloseWindow;
    }
  }

  /** A press followed by a release of the same key leaves it not held and
      every other key as it was. */
  lemma PressThenRelease(keys: seq<bool>, key: int)
    requires |keys| == KeyCount
    ensures var after := KeyTable(KeyTable(keys, key, Press), key, Release);
      (0 <= key < KeyCount ==> !after[key])
      && forall k :: 0 <= k < KeyCount && k != key ==> after[k] == keys[k]
  {
  }

  // ---------------------------------------------------------------------------
  // Mouse buttons, cursor and scroll

  /** The middle button slot is held and a drag origin is recorded. */
  predicate Dragging(s: InputState)
    requires WellFormed(s)
  {
    s.mouseKeys[MouseButtonMiddle] && s.lastX != -1.0
  }

  /** The state after a button event. Both the middle and the right button
      drive the middle slot: a press holds it and records the cursor position
      as the drag origin, a release frees it and resets the origin to the
      sentinel. Other buttons change nothing. */
  function AfterButton(s: InputState, button: int, action: int, cursorX: real, cursorY: real): (r: InputState)
    requires WellFormed(s)
    ensures WellFormed(r)
  {
    if button == MouseButtonMiddle || button == MouseButtonRight then
      if action == Press then
        s.(mouseKeys := s.mouseKeys[MouseButtonMiddle := true], lastX := cursorX, lastY := cursorY)
      else if action == Release then
        s.(mouseKeys := s.mouseKeys[MouseButtonMiddle := false], lastX := -1.0, lastY := -1.0)
      else s
    else s
  }

  /** The state after a cursor move: the position is always recorded. */
  function AfterCursor(s: InputState, xpos: real, ypos: real): (r: InputState)
    requires WellFormed(s)
    ensures WellFormed(r) && r.lastX == xpos && r.lastY == ypos
    ensures r.keys == s.keys && r.mouseKeys == s.mouseKeys
  {
    s.(lastX := xpos, lastY := ypos)
  }

  /** A cursor move during a drag pans (left shift held) or orbits the main
      scene's camera by the offset from the previous position, with y
      growing upwards; otherwise it asks for nothing. */
  function CursorEffects(s: InputState, xpos: real, ypos: real, hasMainScene: bool): seq<Effect>
    requires WellFormed(s)
  {
    if !Dragging(s) || !hasMainScene then []
    else if s.keys[KeyLeftShift] then [Pan(xpos - s.lastX, s.lastY - ypos)]
    else [Orbit(xpos - s.lastX, s.lastY - ypos)]
  }

  /** The camera operation a cursor effect carries, as its two offsets. */
  predicate MovesBy(e: seq<Effect>, dx: real, dy: real)
  {
    |e| == 1 && (e[0].Pan? || e[0].Orbit?) && e[0].dx == dx && e[0].dy == dy
  }

  /** Two moves in one drag move the camera by as much as one move from the
      first position to the last would. */
  lemma DragOffsetsAdd(s: InputState, x1: real, y1: real, x2: real, y2: real)
    requires WellFormed(s) && Dragging(s) && x1 != -1.0
    ensures var first := CursorEffects(s, x1, y1, true);
      var second := CursorEffects(AfterCursor(s, x1, y1), x2, y2, true);
      MovesBy(first, x1 - s.lastX, s.lastY - y1) && MovesBy(second, x2 - x1, y1 - y2)
      && first[0].dx + second[0].dx == x2 - s.lastX && first[0].dy + second[0].dy == s.lastY - y2
      && MovesBy(CursorEffects(s, x2, y2, true), x2 - s.lastX, s.lastY - y2)
  {
    assert Dragging(AfterCursor(s, x1, y1));
  }

  /** After either drag button is released no cursor move reaches the camera
      until a button is pressed again. */
  lemma ReleaseEndsDrag(s: InputState, button: int, cursorX: real, cursorY: real, xpos: real, ypos: real, hasMainScene: bool)
    requires WellFormed(s) && (button == MouseButtonMiddle || button == MouseButtonRight)
    ensures var released := AfterButton(s, button, Release, cursorX, cursorY);
      !Dragging(released) && CursorEffects(released, xpos, ypos, hasMainScene) == []
      && !Dragging(AfterCursor(released, xpos, ypos))
  {
  }

  /** A press starts a drag from the cursor position, unless that position
      has x equal to the sentinel -1, in which case the next move is taken
      for a move without a drag. */
  lemma PressStartsDrag(s: InputState, button: int, cursorX: real, cursorY: real)
    requires WellFormed(s) && (button == MouseButtonMiddle || button == MouseButtonRight)
    ensures Dragging(AfterButton(s, button, Press, cursorX, cursorY)) <==> cursorX != -1.0
  {
  }

  // ---------------------------------------------------------------------------
  // The game's input state and the callbacks

  class Game {
    var keys: array<bool>
    var mouseKeys: array<bool>
    var depthTest: bool
    var captureCursor: bool
    var vSync: bool
    var lastX: real
    var lastY: real

    ghost predicate Valid()
      reads this
    {
      keys.Length == KeyCount && mouseKeys.Length == MouseButtonCount && keys != mouseKeys
    }

    function State(): (s: InputState)
      reads this, keys, mouseKeys
      requires Valid()
      ensures WellFormed(s)
    {
      InputState(keys[..], mouseKeys[..], depthTest, captureCursor, vSync, lastX, lastY)
    }

    /** No key is held and every mouse slot is released. The toggles and the
        last cursor position are not initialised by the constructor; they
        are the given values here. */
    constructor(depthTest: bool, captureCursor: bool, vSync: bool, lastX: real, lastY: real)
      ensures Valid() && fresh(keys) && fresh(mouseKeys)
      ensures forall k :: 0 <= k < KeyCount ==> !State().keys[k]
      ensures forall b :: 0 <= b < MouseButtonCount ==> !State().mouseKeys[b]
      ensures State().depthTest == depthTest && State().captureCursor == captureCursor && State().vSync == vSync
      ensures State().lastX == lastX && State().lastY == lastY
    {
      var table := new bool[KeyCount](_ => false);
      assert forall k :: 0 <= k < KeyCount ==> !table[k];
      var slots := new bool[MouseButtonCount];
      for i := 0 to MouseButtonCount
        invariant forall b :: 0 <= b < i ==> !slots[b]
      invariant forall k :: 0 <= k < KeyCount ==> !table[k]
      {
        slots[i] := false;
      }
      keys := table;
      mouseKeys := slots;
      this.depthTest := depthTest;
      this.captureCursor := captureCursor;
      this.vSync := vSync;
      this.lastX := lastX;
      this.lastY := lastY;
    }
  }

  /** keyboard_callback. */
  method KeyboardCallback(game: Game?, key: int, action: int) returns (effects: seq<Effect>)
    requires game != null ==> game.Valid()
    modifies if game != null then {game, game.keys} else {}
    ensures game == null ==> effects == []
    ensures game != null ==> game.Valid() && game.keys == old(game.keys) && game.mouseKeys == old(game.mouseKeys)
    ensures game != null ==> game.State() == AfterKey(old(game.State()), key, action)
    ensures game != null ==> effects == KeyEffects(old(game.State()), key, action)
  {
    effects := [];
    if game == null {
      return;
    }
    if key == KeyEscape && action == Press {
      effects := effects + [CloseWindow];
    }
    if key == Key1 && action == Release {
      game.depthTest := !game.depthTest;
      effects := effects + [DepthTest(game.depthTest)];
    }
    if key == Key2 && action == Release {
      game.captureCursor := !game.captureCursor;
      effects := effects + [SetCursorMode(if game.captureCursor then Captured else Disabled)];
    }
    if key == Key3 && action == Release {
      game.vSync := !game.vSync;
      effects := effects + [SwapInterval(if game.vSync then 1 else 0)];
    }
    if 0 <= key < KeyCount {
      if action == Press {
        game.keys[key] := true;
      } else if action == Release {
        game.keys[key] := false;
      }
    }
  }

  /** mouse_button_callback. `cursorX` and `cursorY` are the position GLFW
      reports when asked on a press. */
  method MouseButtonCallback(game: Game?, button: int, action: int, cursorX: real, cursorY: real)
    requires game != null ==> game.Valid()
    modifies if game != null then {game, game.mouseKeys} else {}
    ensures game != null ==> game.Valid() && game.keys == old(game.keys) && game.mouseKeys == old(game.mouseKeys)
    ensures game != null ==> game.State() == AfterButton(old(game.State()), button, action, cursorX, cursorY)
  {
    if game == null {
      return;
    }
    if button == MouseButtonMiddle || button == MouseButtonRight {
      if action == Press {
        game.mouseKeys[MouseButtonMiddle] := true;
        game.lastX, game.lastY := cursorX, cursorY;
      }
      if action == Release {
        game.mouseKeys[MouseButtonMiddle] := false;
        game.lastX, game.lastY := -1.0, -1.0;
      }
    }
  }

  /** cursor_position_callback. */
  method CursorPositionCallback(game: Game?, xpos: real, ypos: real, hasMainScene: bool) returns (effects: seq<Effect>)
    requires game != null ==> game.Valid()
    modifies if game != null then {game} else {}
    ensures game == null ==> effects == []
    ensures game != null ==> game.Valid() && game.keys == old(game.keys) && game.mouseKeys == old(game.mouseKeys)
    ensures game != null ==> game.State() == AfterCursor(old(game.State()), xpos, ypos)
    ensures game != null ==> effects == CursorEffects(old(game.State()), xpos, ypos, hasMainScene)
  {
    effects := [];
    if game == null {
      return;
    }
    if !game.mouseKeys[MouseButtonMiddle] || game.lastX == -1.0 {
      game.lastX, game.lastY := xpos, ypos;
      return;
    }
    var xoffset := xpos - game.lastX;
    var yoffset := game.lastY - ypos;
    game.lastX, game.lastY := xpos, ypos;
    if hasMainScene {
      if game.keys[KeyLeftShift] {
        effects := [Pan(xoffset, yoffset)];
      } else {
        effects := [Orbit(xoffset, yoffset)];
      }
    }
  }

  /** mouse_scroll_callback: a vertical scroll zooms the main scene's camera. */
  method MouseScrollCallback(game: Game?, xoff: real, yoff: real, hasMainScene: bool) returns (effects: seq<Effect>)
    ensures effects == if game != null && hasMainScene then [Zoom(yoff)] else []
  {
    effects := [];
    if game != null && hasMainScene {
      effects := [Zoom(yoff)];
    }
  }

  /** framebuffer_size_callback: the viewport follows the window, and so does
      the main scene's projection. */
  method FramebufferSizeCallback(game: Game?, width: int, height: int, hasMainScene: bool) returns (effects: seq<Effect>)
    ensures game == null ==> effects == []
    ensures game != null ==> effects == [Viewport(width, height)] + (if hasMainScene then [UpdateProjection(width, height)] else [])
  {
    effects := [];
    if game != null {
      effects := [Viewport(width, height)];
      if hasMainScene {
        effects := effects + [UpdateProjection(width, height)];
      }
    }
  }
}
