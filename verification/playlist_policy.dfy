/**
 * The playlist navigation rules of the Jamendo player: which index
 * "next" and "previous" move to under each repeat mode and with shuffle,
 * and the repeat-mode cycle.
 */
module PlaylistPolicy {
  import opened Wrappers
  import opened JamendoState
  import Arithmetic

  // ---------------------------------------------------------------------
  // Repeat modes

  /** `modes.indexOf(repeatMode)` for `['off', 'all', 'one']`: -1 for any other value. */
  function ModeIndex(m: Repeat): int
  {
    match m
    case Off => 0
    case All => 1
    case One => 2
    case Other => -1
  }

  const Modes: seq<Repeat> := [Off, All, One]

  /** `toggleRepeat`: `modes[(indexOf + 1) % 3]`. */
  function NextRepeat(m: Repeat): (r: Repeat)
    ensures m == Off ==> r == All
    ensures m == All ==> r == One
    ensures m == One ==> r == Off
    ensures m == Other ==> r == Off
  {
    Modes[(ModeIndex(m) + 1) % |Modes|]
  }

  /** Three toggles come back to any of the three modes the controller writes. */
  lemma RepeatCycle(m: Repeat)
    requires m != Other
    ensures NextRepeat(NextRepeat(NextRepeat(m))) == m
  {
  }

  // ---------------------------------------------------------------------
  // Next

  /**
   * Lines 478-499 of `playNextInPlaylist`: the index to play next, or `None`
   * when the controller returns without playing. `draw` is
   * `Math.floor(Math.random() * length)`; it is used only when shuffling and
   * repeat is not `one`, and only after the end-of-list check.
   */
  function NextIndex(len: nat, index: int, repeat: Repeat, shuffled: bool, draw: nat): (r: Option<int>)
    requires len == 0 || draw < len
    ensures len == 0 ==> r.None?
    ensures len > 0 && repeat == One ==> r == Some(index)
    ensures (len > 0 && repeat != One && index + 1 >= len && repeat != All) ==> r.None?
    ensures (len > 0 && repeat != One && (index + 1 < len || repeat == All)) ==>
      r.Some? && (shuffled ==> r.value == draw)
    ensures (len > 0 && repeat != One && !shuffled && index + 1 < len) ==> r == Some(index + 1)
    ensures (len > 0 && repeat == All && !shuffled && index + 1 >= len) ==> r == Some(0)
  {
    if len == 0 then None
    else
      var following := index + 1;
      var chosen :=
        if repeat == One then Some(index)
        else if following >= len then (if repeat == All then Some(0) else None)
        else Some(following);
      match chosen
      case None => None
      case Some(i) => if shuffled && repeat != One then Some(draw) else Some(i)
  }

  /** From an index inside the playlist, "next" stays inside it. */
  lemma NextInRange(len: nat, index: int, repeat: Repeat, shuffled: bool, draw: nat)
    requires 0 <= index < len && draw < len
    ensures var r := NextIndex(len, index, repeat, shuffled, draw);
      r.Some? ==> 0 <= r.value < len
  {
  }

  // ---------------------------------------------------------------------
  // Previous

  /** Lines 405-413 of `previousTrack`: one back, wrapping to the end under `all` and stopping at 0 otherwise. */
  function PreviousIndex(len: nat, index: int, repeat: Repeat): (r: Option<int>)
    ensures len == 0 <==> r.None?
    ensures len > 0 && index >= 1 ==> r == Some(index - 1)
    ensures len > 0 && index < 1 ==> r == Some(if repeat == All then len - 1 else 0)
  {
    if len == 0 then None
    else
      var back := index - 1;
      if back < 0 then Some(if repeat == All then len - 1 else 0) else Some(back)
  }

  /** From an index inside the playlist, "previous" stays inside it. */
  lemma PreviousInRange(len: nat, index: int, repeat: Repeat)
    requires 0 <= index < len
    ensures PreviousIndex(len, index, repeat).Some?
    ensures 0 <= PreviousIndex(len, index, repeat).value < len
  {
  }

  /** Under `all` without shuffle, "previous" undoes "next", and "next" undoes "previous". */
  lemma PreviousUndoesNext(len: nat, index: int)
    requires 0 <= index < len
    ensures NextIndex(len, index, All, false, 0).Some?
    ensures PreviousIndex(len, NextIndex(len, index, All, false, 0).value, All) == Some(index)
    ensures PreviousIndex(len, index, All).Some?
    ensures NextIndex(len, PreviousIndex(len, index, All).value, All, false, 0) == Some(index)
  {
  }

  // ---------------------------------------------------------------------
  // Walking through a playlist

  /** The index after `n` presses of "next" without shuffle, `None` once playback has stopped. */
  function Walk(len: nat, index: int, repeat: Repeat, n: nat): Option<int>
    decreases n
  {
    if n == 0 then Some(index)
    else
      match NextIndex(len, index, repeat, false, 0)
      case None => None
      case Some(i) => Walk(len, i, repeat, n - 1)
  }

  /** With repeat `off` the playlist is played once through, in order, and then playback stops. */
  lemma {:induction false} WalkOff(len: nat, index: nat, n: nat)
    requires index < len
    ensures Walk(len, index, Off, n) == if index + n < len then Some(index + n) else None
    decreases n
  {
    if n > 0 {
      if index + 1 < len {
        WalkOff(len, index + 1, n - 1);
      }
    }
  }

  /** With repeat `all` the playlist is played round and round: `n` steps move `n` places, modulo its length. */
  lemma {:induction false} WalkAll(len: nat, index: nat, n: nat)
    requires index < len
    ensures Walk(len, index, All, n) == Some((index + n) % len)
    decreases n
  {
    if n > 0 {
      if index + 1 < len {
        assert NextIndex(len, index, All, false, 0) == Some(index + 1);
        WalkAll(len, index + 1, n - 1);
      } else {
        assert NextIndex(len, index, All, false, 0) == Some(0);
        WalkAll(len, 0, n - 1);
        WrapAround(len, n - 1);
      }
    }
  }

  lemma WrapAround(len: nat, k: nat)
    requires len > 0
    ensures (len + k) % len == k % len
  {
    var q, m := k / len, k % len;
    assert k == len * q + m;
    Arithmetic.ModUnique(len + k, len, q + 1, m);
  }

  /** With repeat `one` "next" never moves. */
  lemma {:induction false} WalkOne(len: nat, index: int, n: nat)
    requires len > 0
    ensures Walk(len, index, One, n) == Some(index)
    decreases n
  {
    if n > 0 {
      WalkOne(len, index, n - 1);
    }
  }
}
