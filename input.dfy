/** The keyboard state of InputHandler: four arrow keys, each held or not. */
module Input {

  datatype Direction = Up | Down | Left | Right

  /** A keyboard event's `key`: the four arrow keys by name, any other key
      by its name. */
  datatype Key = ArrowUp | ArrowDown | ArrowLeft | ArrowRight | OtherKey(name: string)

  /** The keys of keysPressed in their insertion order, which is the order
      in which getActiveKeys walks Object.entries. */
  const ArrowKeys: seq<Key> := [ArrowUp, ArrowDown, ArrowLeft, ArrowRight]

  /** The initial (and reset) value of keysPressed: every arrow key released. */
  const Released: map<Key, bool> :=
    map[ArrowUp := false, ArrowDown := false, ArrowLeft := false, ArrowRight := false]

  /** keyToDirection. */
  function DirectionOf(key: Key): Direction
    requires key in ArrowKeys
  {
    match key
    case ArrowUp => Up
    case ArrowDown => Down
    case ArrowLeft => Left
    case ArrowRight => Right
  }

  /** The key that keyToDirection maps to a direction (isDirectionActive's find). */
  function KeyOf(d: Direction): (key: Key)
    ensures key in ArrowKeys && DirectionOf(key) == d
  {
    match d
    case Up => ArrowUp
    case Down => ArrowDown
    case Left => ArrowLeft
    case Right => ArrowRight
  }

  /** Position of a direction's key in ArrowKeys. */
  function Rank(d: Direction): (i: nat)
    ensures i < |ArrowKeys| && ArrowKeys[i] == KeyOf(d)
  {
    match d
    case Up => 0
    case Down => 1
    case Left => 2
    case Right => 3
  }

  /** keysPressed holds exactly the four arrow keys. */
  predicate WellFormed(keys: map<Key, bool>) {
    keys.Keys == Released.Keys
  }

  /** isKeyPressed: `keysPressed[key] || false`, so an unknown key reads as released. */
  predicate KeyHeld(keys: map<Key, bool>, key: Key) {
    key in keys && keys[key]
  }

  /** isDirectionActive. */
  predicate DirectionHeld(keys: map<Key, bool>, d: Direction) {
    KeyHeld(keys, KeyOf(d))
  }

  /** onKeyDown: only a tracked key changes the state. */
  function KeyDown(keys: map<Key, bool>, key: Key): map<Key, bool> {
    if key in keys then keys[key := true] else keys
  }

  /** onKeyUp. */
  function KeyUp(keys: map<Key, bool>, key: Key): map<Key, bool> {
    if key in keys then keys[key := false] else keys
  }

  /** The directions of the held keys among the first `n` of ArrowKeys, in
      key order. */
  function ActivePrefix(keys: map<Key, bool>, n: nat): seq<Direction>
    requires n <= |ArrowKeys|
  {
    if n == 0 then []
    else ActivePrefix(keys, n - 1)
         + (if KeyHeld(keys, ArrowKeys[n - 1]) then [DirectionOf(ArrowKeys[n - 1])] else [])
  }

  /** getActiveKeys: the held directions in key order. */
  function ActiveDirections(keys: map<Key, bool>): seq<Direction> {
    ActivePrefix(keys, |ArrowKeys|)
  }

  /** A direction is listed exactly when its key is held and lies among the
      first `n`, and the list is strictly ordered by key position (so no
      direction appears twice). */
  lemma {:induction false} ActivePrefixSpec(keys: map<Key, bool>, n: nat)
    requires n <= |ArrowKeys|
    ensures forall d :: d in ActivePrefix(keys, n) <==> Rank(d) < n && DirectionHeld(keys, d)
    ensures forall i, j :: 0 <= i < j < |ActivePrefix(keys, n)| ==>
              Rank(ActivePrefix(keys, n)[i]) < Rank(ActivePrefix(keys, n)[j])
  {
    if n > 0 {
      ActivePrefixSpec(keys, n - 1);
      var k := ArrowKeys[n - 1];
      var front := ActivePrefix(keys, n - 1);
      assert ActivePrefix(keys, n) == front + (if KeyHeld(keys, k) then [DirectionOf(k)] else []);
      assert Rank(DirectionOf(k)) == n - 1;
      forall d
        ensures d in ActivePrefix(keys, n) <==> Rank(d) < n && DirectionHeld(keys, d)
      {
        if Rank(d) == n - 1 {
          assert KeyOf(d) == k;
        }
      }
    }
  }

  lemma ActiveDirectionsSpec(keys: map<Key, bool>)
    ensures forall d :: d in ActiveDirections(keys) <==> DirectionHeld(keys, d)
    ensures forall i, j :: 0 <= i < j < |ActiveDirections(keys)| ==>
              Rank(ActiveDirections(keys)[i]) < Rank(ActiveDirections(keys)[j])
    ensures ActiveDirections(keys) == [] <==> forall d :: !DirectionHeld(keys, d)
  {
    ActivePrefixSpec(keys, |ArrowKeys|);
    var active := ActiveDirections(keys);
    if active != [] {
      assert active[0] in active;
    }
  }

  /** After a key-up of a direction's key that direction is no longer active,
      and after a key-down it is; the other directions keep their state. */
  lemma KeyEventsSpec(keys: map<Key, bool>, d: Direction, e: Direction)
    requires WellFormed(keys)
    ensures DirectionHeld(KeyDown(keys, KeyOf(d)), d)
    ensures !DirectionHeld(KeyUp(keys, KeyOf(d)), d)
    ensures e != d ==> DirectionHeld(KeyDown(keys, KeyOf(d)), e) == DirectionHeld(keys, e)
    ensures e != d ==> DirectionHeld(KeyUp(keys, KeyOf(d)), e) == DirectionHeld(keys, e)
    ensures WellFormed(KeyDown(keys, KeyOf(d))) && WellFormed(KeyUp(keys, KeyOf(d)))
  {
    assert KeyOf(d) in Released.Keys;
    if e != d {
      assert KeyOf(e) != KeyOf(d) by {
        assert DirectionOf(KeyOf(e)) == e && DirectionOf(KeyOf(d)) == d;
      }
    }
  }

  class InputHandler {
    var keysPressed: map<Key, bool>

    predicate Valid()
      reads this
    {
      WellFormed(keysPressed)
    }

    constructor ()
      ensures keysPressed == Released && Valid()
    {
      keysPressed := Released;
    }

    method OnKeyDown(key: Key)
      modifies this
      ensures keysPressed == KeyDown(old(keysPressed), key)
    {
      if key in keysPressed {
        keysPressed := keysPressed[key := true];
      }
    }

    method OnKeyUp(key: Key)
      modifies this
      ensures keysPressed == KeyUp(old(keysPressed), key)
    {
      if key in keysPressed {
        keysPressed := keysPressed[key := false];
      }
    }

    /** getActiveKeys: walks the keys in order and collects the held directions. */
    method GetActiveKeys() returns (active: seq<Direction>)
      ensures active == ActiveDirections(keysPressed)
    {
      active := [];
      var i := 0;
      while i < |ArrowKeys|
        invariant 0 <= i <= |ArrowKeys|
        invariant active == ActivePrefix(keysPressed, i)
      {
        var key := ArrowKeys[i];
        if KeyHeld(keysPressed, key) {
          active := active + [DirectionOf(key)];
        }
        i := i + 1;
      }
    }

    function IsKeyPressed(key: Key): bool
      reads this
    {
      KeyHeld(keysPressed, key)
    }

    function IsDirectionActive(d: Direction): bool
      reads this
    {
      DirectionHeld(keysPressed, d)
    }

    /** resetKeys: every tracked key released, none added. */
    method ResetKeys()
      requires Valid()
      modifies this
      ensures keysPressed == Released && Valid()
    {
      var i := 0;
      while i < |ArrowKeys|
        invariant 0 <= i <= |ArrowKeys|
        invariant keysPressed.Keys == Released.Keys
        invariant forall j :: 0 <= j < i ==> !keysPressed[ArrowKeys[j]]
      {
        keysPressed := keysPressed[ArrowKeys[i] := false];
        i := i + 1;
      }
      assert forall k :: k in Released.Keys ==> k in ArrowKeys;
    }
  }
}
