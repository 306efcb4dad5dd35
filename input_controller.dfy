/**
 * The human player's input sampler (src/pong/core/InputController.ts):
 * the set of held keys, kept lower-cased, and a ternary direction that is
 * recomputed only when the sampling step runs.
 */
module Input {
  /** -1 moves the paddle up, +1 down, 0 stays. */
  type MoveDirection = d: int | -1 <= d <= 1

  /** Lower-casing of one character (the ASCII letters; other characters are kept). */
  function LowerChar(c: char): (l: char)
    ensures 'A' <= c <= 'Z' ==> l as int == c as int + 32
    ensures !('A' <= c <= 'Z') ==> l == c
    ensures !('A' <= l <= 'Z')
  {
    if 'A' <= c <= 'Z' then (c as int + 32) as char else c
  }

  /** `toLowerCase` of a key name, character by character. */
  function Lower(s: string): (r: string)
    ensures |r| == |s|
    ensures forall i :: 0 <= i < |s| ==> r[i] == LowerChar(s[i])
  {
    if s == [] then [] else [LowerChar(s[0])] + Lower(s[1..])
  }

  /** Lower-casing twice is lower-casing once, so `'W'` and `'w'` name the same entry. */
  lemma LowerIdempotent(s: string)
    ensures Lower(Lower(s)) == Lower(s)
  {
    var l := Lower(s);
    assert forall i :: 0 <= i < |l| ==> Lower(l)[i] == l[i];
  }

  /** Key names differing only in case name the same entry of the pressed set. */
  lemma KeyNamesIgnoreCase()
    ensures Lower("W") == Lower("w") == "w"
    ensures Lower("ArrowUp") == Lower("arrowup") == "arrowup"
    ensures Lower("S") == "s" && Lower("ArrowDown") == "arrowdown"
  {
    LowerIs("W", "w");
    LowerIs("w", "w");
    LowerIs("S", "s");
    LowerIs("ArrowUp", "arrowup");
    LowerIs("arrowup", "arrowup");
    LowerIs("ArrowDown", "arrowdown");
  }

  /** `t` is the lower-casing of `s` when it lower-cases each character of `s`. */
  lemma LowerIs(s: string, t: string)
    requires |s| == |t| && forall i :: 0 <= i < |s| ==> LowerChar(s[i]) == t[i]
    ensures Lower(s) == t
  {
  }

  /** The key names that move the paddle up and down. */
  predicate UpHeld(keys: set<string>) {
    "w" in keys || "arrowup" in keys
  }

  predicate DownHeld(keys: set<string>) {
    "s" in keys || "arrowdown" in keys
  }

  class InputController {
    var moveDirection: MoveDirection
    /** An animation frame is requested to run the sampling step again. */
    var frameRequested: bool
    var listenersAttached: bool
    var pressedKeys: set<string>

    constructor ()
      ensures moveDirection == 0 && !frameRequested && !listenersAttached && pressedKeys == {}
    {
      moveDirection := 0;
      frameRequested := false;
      listenersAttached := false;
      pressedKeys := {};
    }

    /** Up wins only when down is not held, and vice versa; both or neither cancel. */
    function ComputeDirection(): (d: MoveDirection)
      reads this
      ensures d == -1 <==> UpHeld(pressedKeys) && !DownHeld(pressedKeys)
      ensures d == 1 <==> DownHeld(pressedKeys) && !UpHeld(pressedKeys)
      ensures d == 0 <==> (UpHeld(pressedKeys) <==> DownHeld(pressedKeys))
    {
      var upPressed := UpHeld(pressedKeys);
      var downPressed := DownHeld(pressedKeys);
      if upPressed && !downPressed then -1
      else if downPressed && !upPressed then 1
      else 0
    }

    /** The value stored by the last sampling step. */
    function GetDirection(): MoveDirection
      reads this
    {
      moveDirection
    }

    /** One sampling step: store the current direction and request the next frame. */
    method UpdateLoop()
      modifies this
      ensures moveDirection == old(ComputeDirection())
      ensures frameRequested
      ensures pressedKeys == old(pressedKeys) && listenersAttached == old(listenersAttached)
    {
      moveDirection := ComputeDirection();
      frameRequested := true;
    }

    method Connect()
      modifies this
      ensures listenersAttached
      ensures old(listenersAttached) ==> unchanged(this)
      ensures !old(listenersAttached) ==> moveDirection == old(ComputeDirection()) && frameRequested
      ensures pressedKeys == old(pressedKeys)
    {
      if listenersAttached {
        return;
      }
      listenersAttached := true;
      UpdateLoop();
    }

    method Disconnect()
      modifies this
      ensures pressedKeys == {} && moveDirection == 0 && !listenersAttached && !frameRequested
      ensures GetDirection() == 0 && ComputeDirection() == 0
    {
      if frameRequested {
        frameRequested := false;
      }
      moveDirection := 0;
      listenersAttached := false;
      pressedKeys := {};
    }

    method HandleKeyDown(key: string)
      modifies this
      ensures pressedKeys == old(pressedKeys) + {Lower(key)}
      ensures moveDirection == old(moveDirection) && GetDirection() == old(GetDirection())
      ensures listenersAttached == old(listenersAttached) && frameRequested == old(frameRequested)
    {
      pressedKeys := pressedKeys + {Lower(key)};
    }

    method HandleKeyUp(key: string)
      modifies this
      ensures pressedKeys == old(pressedKeys) - {Lower(key)}
      ensures Lower(key) !in pressedKeys
      ensures moveDirection == old(moveDirection) && GetDirection() == old(GetDirection())
      ensures listenersAttached == old(listenersAttached) && frameRequested == old(frameRequested)
    {
      pressedKeys := pressedKeys - {Lower(key)};
    }
  }
}
