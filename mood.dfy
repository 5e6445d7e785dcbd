/** The mood provider: the current mood and a history of at most 20 moods, newest first. The 1 to 10
    scale of happiness and energy is only documented, never enforced; timestamps come from an opaque
    clock passed in by the caller. */
module MoodState {
  import opened Common

  /** A reading of `new Date()`, treated as an opaque value. */
  type Clock = int

  datatype Mood = Mood(happiness: int, energy: int, timestamp: Option<Clock>)

  const HistoryCapacity := 20

  /** `[newMood, ...prev].slice(0, 20)`. */
  function PushHistory(history: seq<Mood>, m: Mood): (r: seq<Mood>)
    ensures |r| == Min(|history| + 1, HistoryCapacity)
    ensures r[0] == m
    ensures r[1..] == history[..Min(|history|, HistoryCapacity - 1)]
  {
    ([m] + history)[..Min(|history| + 1, HistoryCapacity)]
  }

  /** The newest-first history that `updates` (oldest first) leave behind after starting from `history`. */
  function Replay(history: seq<Mood>, updates: seq<Mood>): seq<Mood>
    decreases |updates|
  {
    if updates == [] then history else Replay(PushHistory(history, updates[0]), updates[1..])
  }

  function Reverse<T>(s: seq<T>): (r: seq<T>)
    ensures |r| == |s| && forall i :: 0 <= i < |s| ==> r[i] == s[|s| - 1 - i]
  {
    seq(|s|, i requires 0 <= i < |s| => s[|s| - 1 - i])
  }

  /** A run of updates leaves the newest 20 entries of: the updates, newest first, followed by the old history. */
  lemma {:induction false} ReplayKeepsNewest(history: seq<Mood>, updates: seq<Mood>)
    requires |history| <= HistoryCapacity
    ensures Replay(history, updates)
         == (Reverse(updates) + history)[..Min(|updates| + |history|, HistoryCapacity)]
    decreases |updates|
  {
    if updates == [] {
      assert Reverse(updates) + history == history;
    } else {
      var u := updates[0];
      var h1 := PushHistory(history, u);
      ReplayKeepsNewest(h1, updates[1..]);
      var n := Min(|updates| + |history|, HistoryCapacity);
      var lhs := (Reverse(updates[1..]) + h1)[..Min(|updates| - 1 + |h1|, HistoryCapacity)];
      var rhs := (Reverse(updates) + history)[..n];
      assert |lhs| == n;
      forall i | 0 <= i < n ensures lhs[i] == rhs[i] {
        var k := |updates| - 1;
        if i < k {
          assert lhs[i] == updates[1..][k - 1 - i];
        } else if i == k {
          assert lhs[i] == h1[0];
        } else {
          assert lhs[i] == h1[i - k];
          assert h1[i - k] == history[i - k - 1];
        }
      }
    }
  }

  /** The history never holds more than 20 entries. */
  lemma ReplayBounded(history: seq<Mood>, updates: seq<Mood>)
    requires |history| <= HistoryCapacity
    ensures |Replay(history, updates)| <= HistoryCapacity
  {
    ReplayKeepsNewest(history, updates);
  }

  /** `MoodProvider`'s `currentMood` and `moodHistory` state. Inside the provider the current mood is
      never null; the default context (null mood, empty history, no-op update) is `DefaultMood`. */
  class MoodProvider {
    var currentMood: Mood
    var moodHistory: seq<Mood>

    ghost predicate Valid()
      reads this
    {
      && |moodHistory| <= HistoryCapacity
      && (moodHistory != [] ==> moodHistory[0] == currentMood)
    }

    /** Initial state: happiness 7, energy 6, stamped now; empty history. */
    constructor (now: Clock)
      ensures currentMood == Mood(7, 6, Some(now))
      ensures moodHistory == []
      ensures Valid()
    {
      currentMood := Mood(7, 6, Some(now));
      moodHistory := [];
    }

    /** `updateMood(mood)`: take the new levels as they are, stamp them, and prepend to the history. */
    method UpdateMood(mood: Mood, now: Clock)
      requires Valid()
      modifies this
      ensures Valid()
      ensures currentMood == Mood(mood.happiness, mood.energy, Some(now))
      ensures moodHistory == PushHistory(old(moodHistory), currentMood)
    {
      var newMood := mood.(timestamp := Some(now));
      currentMood := newMood;
      moodHistory := PushHistory(moodHistory, newMood);
    }
  }

  /** The mood outside any provider. */
  const DefaultMood: Option<Mood> := None
}
