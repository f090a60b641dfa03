/** The keyboard state machine: each tracked key remembers whether it was
    down in the current and in the previous frame. The window-system sample
    of which keys are pressed is an input to `UpdateInput`. */
module Input {

  datatype KeyState = KeyState(currentState: bool, lastState: bool)

  /** A value-initialised `KeyState{}`: up now and in the last frame. */
  const Untracked := KeyState(false, false)

  /** The key table after one frame's update, given the set of keys the
      window system reports as pressed. */
  function Updated(keyStates: map<int, KeyState>, pressed: set<int>): (r: map<int, KeyState>)
    ensures r.Keys == keyStates.Keys
    ensures forall k :: k in keyStates ==>
      r[k].lastState == keyStates[k].currentState && r[k].currentState == (k in pressed)
  {
    map k | k in keyStates :: KeyState(k in pressed, keyStates[k].currentState)
  }

  /** The table after `keyStates[key]` was evaluated: a missing key is added
      as untracked. */
  function Tracked(keyStates: map<int, KeyState>, key: int): (r: map<int, KeyState>)
    ensures r.Keys == keyStates.Keys + {key}
    ensures key in keyStates ==> r == keyStates
    ensures key !in keyStates ==> r[key] == Untracked && forall k :: k in keyStates ==> r[k] == keyStates[k]
  {
    if key in keyStates then keyStates else keyStates[key := Untracked]
  }

  predicate JustPressed(s: KeyState)
  {
    s.currentState && !s.lastState
  }

  /** An empty set of keys is the only one with no member. */
  lemma HasMember(s: set<int>)
    ensures s == {} || exists k :: k in s
  {
    if !(exists k :: k in s) {
      assert s == {};
    }
  }

  class InputManager {
    var keyStates: map<int, KeyState>

    constructor ()
      ensures keyStates == map[]
    {
      keyStates := map[];
    }

    /** `UpdateInput`: every tracked key shifts its current state into its
        last state and takes the sampled state as its current one. */
    method UpdateInput(pressed: set<int>)
      modifies this
      ensures keyStates == Updated(old(keyStates), pressed)
    {
      var remaining := keyStates.Keys;
      ghost var done: set<int> := {};
      while remaining != {}
        invariant remaining !! done && remaining + done == old(keyStates).Keys
        invariant keyStates.Keys == old(keyStates).Keys
        invariant forall k :: k in done ==>
          keyStates[k] == KeyState(k in pressed, old(keyStates)[k].currentState)
        invariant forall k :: k in remaining ==> keyStates[k] == old(keyStates)[k]
        decreases remaining
      {
        HasMember(remaining);
        var key :| key in remaining;
        var s := keyStates[key];
        keyStates := keyStates[key := KeyState(key in pressed, s.currentState)];
        remaining := remaining - {key};
        done := done + {key};
      }
      assert forall k :: k in keyStates ==> keyStates[k] == Updated(old(keyStates), pressed)[k];
    }

    method GetKeyDown(key: int) returns (down: bool)
      modifies this
      ensures keyStates == Tracked(old(keyStates), key)
      ensures down == keyStates[key].currentState
    {
      keyStates := Tracked(keyStates, key);
      down := keyStates[key].currentState;
    }

    method GetKeyUp(key: int) returns (up: bool)
      modifies this
      ensures keyStates == Tracked(old(keyStates), key)
      ensures up == !keyStates[key].currentState
    {
      keyStates := Tracked(keyStates, key);
      up := !keyStates[key].currentState;
    }

    method GetKeyJustPressed(key: int) returns (pressed: bool)
      modifies this
      ensures keyStates == Tracked(old(keyStates), key)
      ensures pressed == JustPressed(keyStates[key])
    {
      keyStates := Tracked(keyStates, key);
      pressed := keyStates[key].currentState && !keyStates[key].lastState;
    }
  }

  /** Querying a key that is not tracked starts tracking it, and it reads as
      up and not just pressed. */
  lemma QueryUntrackedKey(keyStates: map<int, KeyState>, key: int)
    requires key !in keyStates
    ensures Tracked(keyStates, key)[key] == Untracked
    ensures !Tracked(keyStates, key)[key].currentState
    ensures !JustPressed(Tracked(keyStates, key)[key])
    ensures |Tracked(keyStates, key)| == |keyStates| + 1
  {
  }

  /** Querying does not change a tracked key, so repeated queries agree. */
  lemma QueryIsStable(keyStates: map<int, KeyState>, key: int, other: int)
    ensures Tracked(Tracked(keyStates, key), key) == Tracked(keyStates, key)
    ensures other in keyStates ==> Tracked(keyStates, key)[other] == keyStates[other]
  {
  }

  /** A key held down across two consecutive updates reads as just pressed
      after the first update only (when it was up before). */
  lemma HeldKeyJustPressedOnce(keyStates: map<int, KeyState>, key: int, first: set<int>, second: set<int>)
    requires key in keyStates && !keyStates[key].currentState
    requires key in first && key in second
    ensures JustPressed(Updated(keyStates, first)[key])
    ensures !JustPressed(Updated(Updated(keyStates, first), second)[key])
  {
  }

  /** Just pressed after an update exactly when the key was up before and is
      sampled as pressed now. */
  lemma JustPressedAfterUpdate(keyStates: map<int, KeyState>, pressed: set<int>, key: int)
    requires key in keyStates
    ensures JustPressed(Updated(keyStates, pressed)[key]) <==> key in pressed && !keyStates[key].currentState
  {
  }

  /** Keys the window system reports but nobody has queried stay untracked. */
  lemma UpdateTracksNoNewKeys(keyStates: map<int, KeyState>, pressed: set<int>, key: int)
    requires key in pressed && key !in keyStates
    ensures key !in Updated(keyStates, pressed)
  {
  }
}
