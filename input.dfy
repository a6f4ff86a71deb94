/** The four control flags of the truck and what the document's keydown and
    keyup handlers do to them. */
module Input {
  import opened Wrappers

  datatype Controls = Controls(forward: bool, backward: bool, left: bool, right: bool)

  /** The flags of a freshly constructed truck. */
  const Released: Controls := Controls(false, false, false, false)

  /** The key codes the handlers test (`e.which`). */
  const KEY_W: int := 87
  const KEY_A: int := 65
  const KEY_S: int := 83
  const KEY_D: int := 68
  const KEY_SPACE: int := 32

  datatype Control = Forward | Backward | Left | Right

  /** Which flag a key drives, if any: the reference mapping. */
  function Binding(key: int): Option<Control> {
    if key == KEY_W then Some(Forward)
    else if key == KEY_A then Some(Left)
    else if key == KEY_S then Some(Backward)
    else if key == KEY_D then Some(Right)
    else None
  }

  function Held(c: Controls, w: Control): bool {
    match w
    case Forward => c.forward
    case Backward => c.backward
    case Left => c.left
    case Right => c.right
  }

  /** The keydown handler's effect on the flags: it sets exactly the flag the
      key is bound to and leaves the other three. */
  function Pressed(c: Controls, key: int): (r: Controls)
    ensures forall w: Control :: Held(r, w) == (Binding(key) == Some(w) || Held(c, w))
  {
    if key == KEY_W then c.(forward := true)
    else if key == KEY_A then c.(left := true)
    else if key == KEY_S then c.(backward := true)
    else if key == KEY_D then c.(right := true)
    else c
  }

  /** The keyup handler's effect on the flags: it clears exactly the flag the
      key is bound to and leaves the other three. */
  function ReleasedKey(c: Controls, key: int): (r: Controls)
    ensures forall w: Control :: Held(r, w) == (Binding(key) != Some(w) && Held(c, w))
  {
    if key == KEY_W then c.(forward := false)
    else if key == KEY_A then c.(left := false)
    else if key == KEY_S then c.(backward := false)
    else if key == KEY_D then c.(right := false)
    else c
  }

  /** keydown triggers fireProjectile exactly on the space bar. */
  function FiresOnKeyDown(key: int): bool {
    key == KEY_SPACE
  }

  /** An unbound key (space among them) changes no flag on keydown or keyup;
      space is the only key that fires. */
  lemma UnboundKeysChangeNothing(c: Controls, key: int)
    requires Binding(key) == None
    ensures Pressed(c, key) == c && ReleasedKey(c, key) == c
    ensures FiresOnKeyDown(key) ==> key == KEY_SPACE
  {
  }

  /** Releasing a key undoes pressing it: the flag ends cleared whatever it was. */
  lemma ReleaseAfterPress(c: Controls, key: int)
    ensures ReleasedKey(Pressed(c, key), key) == ReleasedKey(c, key)
    ensures Pressed(ReleasedKey(c, key), key) == Pressed(c, key)
  {
  }

  /** Key repeat is harmless: a second keydown of the same key changes nothing. */
  lemma PressIdempotent(c: Controls, key: int)
    ensures Pressed(Pressed(c, key), key) == Pressed(c, key)
    ensures ReleasedKey(ReleasedKey(c, key), key) == ReleasedKey(c, key)
  {
  }
}
