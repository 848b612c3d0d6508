/** The key tracker: a map from lower-cased key name to "is pressed". */
module Keyboard {

  /** `teclado`: keys never seen are absent, which reads as not pressed. */
  type KeyMap = map<string, bool>

  predicate Pressed(keys: KeyMap, k: string) {
    k in keys && keys[k]
  }

  predicate IsUpper(c: char) {
    'A' <= c <= 'Z'
  }

  /** String.prototype.toLowerCase on one character, for the ASCII letters. */
  function LowerChar(c: char): (r: char)
    ensures !IsUpper(r)
    ensures !IsUpper(c) ==> r == c
    ensures IsUpper(c) ==> r as int - c as int == 'a' as int - 'A' as int
  {
    if IsUpper(c) then (c as int - 'A' as int + 'a' as int) as char else c
  }

  /** `evento.key.toLowerCase()`: the name under which a key event is recorded. */
  function LowerKey(key: string): (r: string)
    ensures |r| == |key|
    ensures forall i :: 0 <= i < |r| ==> !IsUpper(r[i])
    ensures forall i :: 0 <= i < |r| && !IsUpper(key[i]) ==> r[i] == key[i]
    ensures forall i :: 0 <= i < |r| ==> r[i] == LowerChar(key[i])
  {
    seq(|key|, i requires 0 <= i < |key| => LowerChar(key[i]))
  }

  /** Lower-casing a recorded name again changes nothing. */
  lemma LowerKeyIdempotent(key: string)
    ensures LowerKey(LowerKey(key)) == LowerKey(key)
  {
  }

  /** The key map after a keydown (`down`) or keyup (`!down`) event for `key`:
      exactly the lower-cased entry is set, every other entry stays as it was. */
  function Record(keys: KeyMap, key: string, down: bool): (r: KeyMap)
    ensures Pressed(r, LowerKey(key)) == down
    ensures r.Keys == keys.Keys + {LowerKey(key)}
    ensures forall k :: k in keys && k != LowerKey(key) ==> r[k] == keys[k]
  {
    keys[LowerKey(key) := down]
  }

  /** Shift does not matter: "W" and "w" address the same entry, so releasing
      one clears what pressing the other set. */
  lemma ShiftedKeyReleases(keys: KeyMap)
    ensures !Pressed(Record(Record(keys, "W", true), "w", false), "w")
    ensures Pressed(Record(Record(keys, "w", true), "W", true), "w")
  {
    assert LowerKey("W") == "w";
    assert LowerKey("w") == "w";
  }
}
