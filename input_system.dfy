/**
 * The input latch (src/systems/InputSystem.ts): a set of held key codes,
 * changed by the keydown, keyup and blur handlers, and copied as four
 * directional flags into every entity that has an Input component.
 */
module InputSystem {
  import opened Optional
  import opened Ecs

  /** The four directions a key can be bound to. */
  datatype Arrow = Up | Down | Left | Right

  /** The key bindings: WASD and the arrow keys. */
  function Binding(code: string): (r: Option<Arrow>)
    ensures r == Some(Up) <==> code in {"KeyW", "ArrowUp"}
    ensures r == Some(Down) <==> code in {"KeyS", "ArrowDown"}
    ensures r == Some(Left) <==> code in {"KeyA", "ArrowLeft"}
    ensures r == Some(Right) <==> code in {"KeyD", "ArrowRight"}
  {
    if code == "KeyW" || code == "ArrowUp" then Some(Up)
    else if code == "KeyS" || code == "ArrowDown" then Some(Down)
    else if code == "KeyA" || code == "ArrowLeft" then Some(Left)
    else if code == "KeyD" || code == "ArrowRight" then Some(Right)
    else None
  }

  /** Some held key is bound to `a`. */
  ghost predicate Held(keys: set<string>, a: Arrow)
  {
    exists code :: code in keys && Binding(code) == Some(a)
  }

  /** The flags written for a set of held keys; a flag is set exactly when a key bound to it is held. */
  function FlagsFor(keys: set<string>): (r: Input)
    ensures r.up == Held(keys, Up)
    ensures r.down == Held(keys, Down)
    ensures r.left == Held(keys, Left)
    ensures r.right == Held(keys, Right)
  {
    assert Binding("KeyW") == Binding("ArrowUp") == Some(Up);
    assert Binding("KeyS") == Binding("ArrowDown") == Some(Down);
    assert Binding("KeyA") == Binding("ArrowLeft") == Some(Left);
    assert Binding("KeyD") == Binding("ArrowRight") == Some(Right);
    Input(
      "KeyW" in keys || "ArrowUp" in keys,
      "KeyS" in keys || "ArrowDown" in keys,
      "KeyA" in keys || "ArrowLeft" in keys,
      "KeyD" in keys || "ArrowRight" in keys)
  }

  /** With nothing held (after blur or destroy), all four flags are 0. */
  lemma NoKeysNoFlags()
    ensures FlagsFor({}) == Input(false, false, false, false)
  {
  }

  /** The flags are independent: opposite directions can be latched together. */
  lemma OppositeFlagsTogether()
    ensures var r := FlagsFor({"KeyW", "ArrowDown", "KeyA", "KeyD"});
            r.up && r.down && r.left && r.right
  {
  }

  /** Pressing a bound key sets its flag, whatever else is held. */
  lemma KeyDownSetsFlag(keys: set<string>, code: string, a: Arrow)
    requires Binding(code) == Some(a)
    ensures Held(keys + {code}, a)
  {
    assert code in keys + {code};
  }

  /** Releasing the only held key bound to a direction clears that flag. */
  lemma KeyUpClearsFlag(keys: set<string>, code: string, a: Arrow)
    requires Binding(code) == Some(a)
    requires forall k :: k in keys && k != code ==> Binding(k) != Some(a)
    ensures !Held(keys - {code}, a)
  {
  }

  class InputSystem {
    /** The codes of the keys currently held down. */
    var keys: set<string>

    /** A new latch holds no key. Registering the window listeners is left to the caller. */
    constructor ()
      ensures keys == {}
    {
      keys := {};
    }

    /** The keydown listener. */
    method OnKeyDown(code: string)
      modifies this
      ensures keys == old(keys) + {code}
    {
      keys := keys + {code};
    }

    /** The keyup listener. */
    method OnKeyUp(code: string)
      modifies this
      ensures keys == old(keys) - {code}
    {
      keys := keys - {code};
    }

    /** The blur listener: losing focus releases every key. */
    method OnBlur()
      modifies this
      ensures keys == {}
    {
      keys := {};
    }

    /** execute: every entity that has Input gets the flags of the held keys. */
    method Execute(w: World)
      requires w.Valid()
      modifies w`input
      ensures w.Valid()
      ensures w.input.Keys == old(w.input.Keys)
      ensures forall e :: e in w.input ==> w.input[e] == FlagsFor(keys)
    {
      var flags := FlagsFor(keys);
      for e := 0 to w.nextEntity
        invariant w.Valid()
        invariant w.input.Keys == old(w.input.Keys)
        invariant forall k :: k in w.input && k < e ==> w.input[k] == flags
      {
        if e in w.input {
          w.input := w.input[e := flags];
        }
      }
    }

    /** destroy: releases every key. */
    method Destroy()
      modifies this
      ensures keys == {}
    {
      keys := {};
    }
  }
}
