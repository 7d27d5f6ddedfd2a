/** The player bar (src/components/MusicPlayer/index.tsx): the queue index
    arithmetic of its next and previous buttons, the play/pause toggle, the
    effect that resumes playback on a track change, and its local state
    (volume, repeat, shuffle). The redux store's part of the state
    (`currentSongs`, `currentIndex`, `isPlaying`) is held by the same class;
    dispatching `playPause(b)`, `nextSong(i)` or `prevSong(i)` stores `b` or `i`. */
module MusicPlayer {
  import opened JsRuntime

  /** A song of the queue; the player only moves an index over them. */
  datatype Track = Track(key: string, title: string, uri: string)

  const InitialVolume: real := 0.3

  // ---------------------------------------------------------------------------
  // Index arithmetic (lines 31 and 36)

  /** `(currentIndex + 1) % currentSongs.length`: the cyclic successor of a
      valid index, and NaN on an empty queue. */
  function SequentialNext(current: int, count: nat): (r: Number)
    ensures r.NaN? <==> count == 0
    ensures count > 0 && 0 <= current < count ==>
      r.Int? && 0 <= r.v < count && r.v == (if current == count - 1 then 0 else current + 1)
  {
    if count > 0 && 0 <= current < count then
      RemOfSuccessor(current + 1, count);
      Rem(current + 1, count)
    else
      Rem(current + 1, count)
  }

  /** Dividing a number from 1 to `n` by `n` leaves it alone, except `n` itself. */
  lemma RemOfSuccessor(a: int, n: nat)
    requires 0 < a <= n
    ensures Rem(a, n) == Int(if a == n then 0 else a)
  {
    assert Abs(n) == n;
    if a == n {
      assert a % n == 0;
    } else {
      assert a % n == a;
    }
  }

  /** `Math.floor(rand * currentSongs.length)` with `rand` the value of
      `Math.random()`: an index of a non-empty queue, and 0 on an empty one. */
  function ShufflePick(rand: real, count: nat): (r: int)
    requires 0.0 <= rand < 1.0
    ensures count > 0 ==> 0 <= r < count
    ensures count == 0 ==> r == 0
  {
    var x := rand * count as real;
    assert 0.0 <= x;
    assert count > 0 ==> x < count as real;
    x.Floor
  }

  /** The index `handleNextSong` dispatches (line 31). */
  function NextIndex(shuffle: bool, current: int, count: nat, rand: real): (r: Number)
    requires 0.0 <= rand < 1.0
    ensures !shuffle ==> r == SequentialNext(current, count)
    ensures shuffle ==> r == Int(ShufflePick(rand, count))
    ensures count > 0 && 0 <= current < count ==> r.Int? && 0 <= r.v < count
  {
    if !shuffle then SequentialNext(current, count) else Int(ShufflePick(rand, count))
  }

  /** The index `handlePrevSong` dispatches (line 36): the cyclic predecessor of
      a valid index; on an empty queue it is -1. */
  function PrevIndex(current: int, count: nat): (r: int)
    ensures count > 0 && 0 <= current < count ==> 0 <= r < count
    ensures current == 0 ==> r == count - 1
    ensures current != 0 ==> r == current - 1
  {
    if current == 0 then count - 1 else current - 1
  }

  /** Every index of a non-empty queue is a possible shuffle pick. */
  lemma ShuffleReachesEveryIndex(count: nat, k: int)
    requires 0 <= k < count
    ensures exists rand: real :: 0.0 <= rand < 1.0 && ShufflePick(rand, count) == k
  {
    var rand := k as real / count as real;
    assert rand * count as real == k as real;
    assert ShufflePick(rand, count) == k;
  }

  /** Previous undoes next, and next undoes previous. */
  lemma PrevAfterNext(current: int, count: nat)
    requires 0 <= current < count
    ensures PrevIndex(SequentialNext(current, count).v, count) == current
    ensures SequentialNext(PrevIndex(current, count), count) == Int(current)
  {
  }

  /** A one-song queue: next (without shuffle) and previous both give 0. */
  lemma SingleSongQueue(current: int)
    requires current == 0
    ensures SequentialNext(current, 1) == Int(0) && PrevIndex(current, 1) == 0
  {
  }

  /** On an empty queue next is NaN without shuffle and 0 with it, and previous
      from index 0 is -1: none of them is an index of the queue. */
  lemma EmptyQueue(current: int, rand: real)
    requires 0.0 <= rand < 1.0
    ensures NextIndex(false, current, 0, rand) == NaN
    ensures NextIndex(true, current, 0, rand) == Int(0)
    ensures current == 0 ==> PrevIndex(current, 0) == -1
  {
  }

  /** The index after `steps` presses of next with shuffle off. */
  function Advance(current: int, count: nat, steps: nat): (r: int)
    requires 0 <= current < count
    ensures 0 <= r < count
    decreases steps
  {
    if steps == 0 then current else Advance(SequentialNext(current, count).v, count, steps - 1)
  }

  /** Pressing next `a` times and then `b` times is pressing it `a + b` times. */
  lemma {:induction false} AdvanceCompose(current: int, count: nat, a: nat, b: nat)
    requires 0 <= current < count
    ensures Advance(current, count, a + b) == Advance(Advance(current, count, a), count, b)
    decreases a
  {
    if a > 0 {
      AdvanceCompose(SequentialNext(current, count).v, count, a - 1, b);
    }
  }

  /** Before the end of the queue, next just counts up. */
  lemma {:induction false} AdvanceCountsUp(current: int, count: nat, steps: nat)
    requires 0 <= current && current + steps < count
    ensures Advance(current, count, steps) == current + steps
    decreases steps
  {
    if steps > 0 {
      AdvanceCountsUp(current + 1, count, steps - 1);
    }
  }

  /** With shuffle off, pressing next `currentSongs.length` times returns to the
      starting song. */
  lemma AdvanceFullCycle(current: int, count: nat)
    requires 0 <= current < count
    ensures Advance(current, count, count) == current
  {
    var toEnd := count - 1 - current;
    AdvanceCompose(current, count, toEnd, current + 1);
    AdvanceCountsUp(current, count, toEnd);
    assert Advance(count - 1, count, current + 1) == Advance(0, count, current);
    AdvanceCountsUp(0, count, current);
  }

  // ---------------------------------------------------------------------------
  // The component's state and handlers

  class Player {
    var currentSongs: seq<Track>
    var currentIndex: int
    var isPlaying: bool
    var volume: real
    var repeat: bool
    var shuffle: bool

    /** The index names a song of the queue, unless the queue is empty. */
    ghost predicate Valid()
      reads this
    {
      currentSongs == [] || 0 <= currentIndex < |currentSongs|
    }

    /** Mounting the player over the store's queue: the local state starts at
        volume 0.3 with repeat and shuffle off (lines 17-19), and the effect of
        lines 22-24 runs once, setting a non-empty queue playing. */
    constructor (songs: seq<Track>, index: int, playing: bool)
      requires songs == [] || 0 <= index < |songs|
      ensures Valid()
      ensures currentSongs == songs && currentIndex == index
      ensures volume == InitialVolume && !repeat && !shuffle
      ensures isPlaying == (playing || songs != [])
    {
      currentSongs, currentIndex, isPlaying := songs, index, playing;
      volume, repeat, shuffle := InitialVolume, false, false;
      new;
      if |currentSongs| > 0 {
        isPlaying := true;
      }
    }

    /** The effect of lines 22-24, run after a render: when `currentIndex` or
        the queue length differs from the previous render's, a non-empty queue
        is set playing; otherwise nothing happens. */
    method TrackChangeEffect(prevIndex: int, prevCount: nat)
      modifies this`isPlaying
      ensures isPlaying == (((currentIndex != prevIndex || |currentSongs| != prevCount)
                             && currentSongs != []) || old(isPlaying))
    {
      if (currentIndex != prevIndex || |currentSongs| != prevCount) && |currentSongs| > 0 {
        isPlaying := true;
      }
    }

    /** `handlePlayPause` (lines 26-28): the index is untouched, so the effect
        does not run and only the flag flips. */
    method HandlePlayPause()
      modifies this`isPlaying
      ensures isPlaying == !old(isPlaying)
    {
      isPlaying := !isPlaying;
    }

    /** `handleNextSong` (lines 30-33) followed by the effect: the next index is
        stored, and playback resumes exactly when the index actually changed. */
    method HandleNextSong(rand: real)
      requires Valid() && currentSongs != []
      requires 0.0 <= rand < 1.0
      modifies this`currentIndex, this`isPlaying
      ensures Valid()
      ensures Int(currentIndex) == NextIndex(shuffle, old(currentIndex), |currentSongs|, rand)
      ensures isPlaying == (currentIndex != old(currentIndex) || old(isPlaying))
    {
      var prevIndex := currentIndex;
      var next := NextIndex(shuffle, currentIndex, |currentSongs|, rand);
      currentIndex := next.v;
      TrackChangeEffect(prevIndex, |currentSongs|);
    }

    /** `handlePrevSong` (lines 35-38) followed by the effect. */
    method HandlePrevSong()
      requires Valid() && currentSongs != []
      modifies this`currentIndex, this`isPlaying
      ensures Valid()
      ensures currentIndex == PrevIndex(old(currentIndex), |currentSongs|)
      ensures isPlaying == (currentIndex != old(currentIndex) || old(isPlaying))
    {
      var prevIndex := currentIndex;
      currentIndex := PrevIndex(currentIndex, |currentSongs|);
      TrackChangeEffect(prevIndex, |currentSongs|);
    }

    /** The audio element's `ended` event (line 70): always the next-song
        handler, whatever `repeat` says. */
    method OnEnded(rand: real)
      requires Valid() && currentSongs != []
      requires 0.0 <= rand < 1.0
      modifies this`currentIndex, this`isPlaying
      ensures Valid()
      ensures Int(currentIndex) == NextIndex(shuffle, old(currentIndex), |currentSongs|, rand)
      ensures isPlaying == (currentIndex != old(currentIndex) || old(isPlaying))
    {
      HandleNextSong(rand);
    }

    /** The store hands the player a new queue and index (a track was picked
        elsewhere); the effect then resumes a non-empty queue if the index or
        the length changed. */
    method ReceiveQueue(songs: seq<Track>, index: int)
      requires songs == [] || 0 <= index < |songs|
      modifies this`currentSongs, this`currentIndex, this`isPlaying
      ensures Valid()
      ensures currentSongs == songs && currentIndex == index
      ensures isPlaying == (((index != old(currentIndex) || |songs| != |old(currentSongs)|)
                             && songs != []) || old(isPlaying))
    {
      var prevIndex, prevCount := currentIndex, |currentSongs|;
      currentSongs, currentIndex := songs, index;
      TrackChangeEffect(prevIndex, prevCount);
    }

    /** The volume slider (line 75): the value is stored unchanged. */
    method SetVolume(value: real)
      modifies this`volume
      ensures volume == value
    {
      volume := value;
    }

    /** The repeat setter handed to the controls (line 18). */
    method SetRepeat(value: bool)
      modifies this`repeat
      ensures repeat == value
    {
      repeat := value;
    }

    /** The shuffle setter handed to the controls (line 19). */
    method SetShuffle(value: bool)
      modifies this`shuffle
      ensures shuffle == value
    {
      shuffle := value;
    }
  }

  /** Three songs, shuffle off: next goes 0, 1, 2 and back to 0, and previous
      from 0 goes to 2; a paused one-song queue stays paused on next. */
  method Scenarios(a: Track, b: Track, c: Track)
  {
    var p := new Player([a, b, c], 0, false);
    assert p.isPlaying;
    p.HandleNextSong(0.0);
    assert p.currentIndex == 1;
    p.HandleNextSong(0.0);
    assert p.currentIndex == 2;
    p.HandleNextSong(0.0);
    assert p.currentIndex == 0;
    p.HandlePrevSong();
    assert p.currentIndex == 2;

    var q := new Player([a], 0, false);
    q.HandlePlayPause();
    assert !q.isPlaying;
    q.HandleNextSong(0.5);
    assert q.currentIndex == 0 && !q.isPlaying;
  }
}
