/** `Controls` (src/app/core/engine/class/Controls.ts): the AZERTY key map and the
    `pressedKeys` record that the keydown and keyup handlers update. A key event is a
    method call carrying the event's `code`. */
module KeyControls {

  /** The `ControlKeys` enum. */
  datatype ControlKey = Forward | Left | Right | Back | Up | Down

  const AllKeys: set<ControlKey> := {Forward, Left, Right, Back, Up, Down}

  /** `azertyKeyMap`. */
  const AzertyKeyMap: map<string, ControlKey> :=
    map["KeyW" := Forward, "KeyA" := Left, "KeyD" := Right, "KeyS" := Back, "Space" := Up, "KeyE" := Down]

  /** What `resetPressedKeys` returns: every flag down. */
  const Released: map<ControlKey, bool> :=
    map[Forward := false, Left := false, Right := false, Back := false, Up := false, Down := false]

  /** The record after a key event: a mapped code sets its flag to `down` (true on keydown,
      false on keyup); an unmapped code changes nothing. */
  function KeyEvent(pressed: map<ControlKey, bool>, keymap: map<string, ControlKey>, code: string, down: bool)
    : (r: map<ControlKey, bool>)
    ensures r.Keys == pressed.Keys + (if code in keymap then {keymap[code]} else {})
    ensures code in keymap ==> r[keymap[code]] == down
    ensures forall k :: k in pressed && (code !in keymap || k != keymap[code]) ==> r[k] == pressed[k]
  {
    if code in keymap then pressed[keymap[code] := down] else pressed
  }

  class Controls {
    var keymap: map<string, ControlKey>
    var pressedKeys: map<ControlKey, bool>

    /** `new Controls('azerty', canvas)`: the AZERTY map and all six flags false. */
    constructor ()
      ensures keymap == AzertyKeyMap
      ensures pressedKeys.Keys == AllKeys && forall k :: k in pressedKeys ==> !pressedKeys[k]
    {
      keymap := AzertyKeyMap;
      pressedKeys := Released;
    }

    /** The `keydown` handler. */
    method KeyDown(code: string)
      modifies this
      ensures keymap == old(keymap)
      ensures pressedKeys == KeyEvent(old(pressedKeys), keymap, code, true)
    {
      if code in keymap {
        pressedKeys := pressedKeys[keymap[code] := true];
      }
    }

    /** The `keyup` handler. */
    method KeyUp(code: string)
      modifies this
      ensures keymap == old(keymap)
      ensures pressedKeys == KeyEvent(old(pressedKeys), keymap, code, false)
    {
      if code in keymap {
        pressedKeys := pressedKeys[keymap[code] := false];
      }
    }
  }

  /** Every control has exactly one key in the AZERTY map. */
  lemma AzertyKeyMapIsOneToOne()
    ensures AzertyKeyMap.Values == AllKeys
    ensures forall a, b :: a in AzertyKeyMap && b in AzertyKeyMap && AzertyKeyMap[a] == AzertyKeyMap[b] ==> a == b
  {
    assert AzertyKeyMap.Keys == {"KeyW", "KeyA", "KeyD", "KeyS", "Space", "KeyE"};
    assert AzertyKeyMap.Values == AllKeys by {
      assert AzertyKeyMap["KeyW"] == Forward && AzertyKeyMap["KeyA"] == Left && AzertyKeyMap["KeyD"] == Right;
      assert AzertyKeyMap["KeyS"] == Back && AzertyKeyMap["Space"] == Up && AzertyKeyMap["KeyE"] == Down;
    }
  }

  /** Releasing a key undoes pressing it: after keydown then keyup of the same code the
      record is the one before, when the flag was down to begin with. */
  lemma PressThenRelease(pressed: map<ControlKey, bool>, keymap: map<string, ControlKey>, code: string)
    requires code in keymap ==> keymap[code] in pressed && !pressed[keymap[code]]
    ensures KeyEvent(KeyEvent(pressed, keymap, code, true), keymap, code, false) == pressed
  {
    if code in keymap {
      var r := KeyEvent(KeyEvent(pressed, keymap, code, true), keymap, code, false);
      assert r.Keys == pressed.Keys;
      assert forall k :: k in r ==> r[k] == pressed[k];
    }
  }

  /** A repeated keydown (the browser's auto-repeat) changes nothing more. */
  lemma KeyEventIdempotent(pressed: map<ControlKey, bool>, keymap: map<string, ControlKey>, code: string, down: bool)
    ensures KeyEvent(KeyEvent(pressed, keymap, code, down), keymap, code, down) == KeyEvent(pressed, keymap, code, down)
  {
  }

  /** Events for codes that map to different controls commute. */
  lemma KeyEventsCommute(pressed: map<ControlKey, bool>, keymap: map<string, ControlKey>,
                         a: string, da: bool, b: string, db: bool)
    requires a in keymap && b in keymap && keymap[a] != keymap[b]
    ensures KeyEvent(KeyEvent(pressed, keymap, a, da), keymap, b, db)
         == KeyEvent(KeyEvent(pressed, keymap, b, db), keymap, a, da)
  {
  }

  /** A scenario with the handlers in order: `W` down, `E` down, an unmapped key, `W` up. */
  method KeyScenario()
  {
    var c := new Controls();
    c.KeyDown("KeyW");
    c.KeyDown("KeyE");
    c.KeyDown("KeyQ");
    c.KeyUp("KeyW");
    assert c.pressedKeys[Forward] == false && c.pressedKeys[Down] == true && c.pressedKeys[Up] == false;
  }
}
