/** The playlist and play clock of `apps/MusicPlayer.tsx`: next and previous
    song by modular index arithmetic, a shuffle that redraws until the index
    changes, a one-second tick that advances the clock and moves on at the end
    of a song, and the `m:ss` clock format. */
module MusicPlayer {
  import Strings
  import opened Types

  /** `interface Song` (the cover picture is left out). */
  datatype Song = Song(id: string, title: string, artist: string, album: string, duration: string, durationSec: nat)

  /** `SONGS`. */
  const Songs: seq<Song> := [
    Song("1", "Deep Ocean Echoes", "Marine Lo-Fi", "Blue Depths", "3:24", 204),
    Song("2", "Coral Reef Drift", "Tidal Waves", "Currents", "4:12", 252),
    Song("3", "Midnight Trench", "Abyss Walker", "The Zone", "2:58", 178),
    Song("4", "Bioluminescence", "Glow Plankton", "Night Dive", "3:45", 225),
    Song("5", "Shark Patrol", "Predator", "Hunter", "3:10", 190)
  ]

  /** `songs.findIndex(s => s.id === id)`: the first position with that id,
      or -1. */
  function FindIndex(songs: seq<Song>, id: string): (r: int)
    ensures r == -1 <==> forall k :: 0 <= k < |songs| ==> songs[k].id != id
    ensures r != -1 ==> 0 <= r < |songs| && songs[r].id == id && forall j :: 0 <= j < r ==> songs[j].id != id
  {
    if songs == [] then -1
    else if songs[0].id == id then 0
    else
      var i := FindIndex(songs[1..], id);
      if i == -1 then -1 else i + 1
  }

  /** The songs have different ids. */
  lemma SongIdsDistinct()
    ensures forall i, j :: 0 <= i < j < |Songs| ==> Songs[i].id != Songs[j].id
  {
    assert forall i :: 0 <= i < |Songs| ==> Songs[i].id == ["12345"[i]];
  }

  /** In a list with different ids, each entry is found at its own position. */
  lemma FindIndexDistinct(songs: seq<Song>, k: nat)
    requires k < |songs|
    requires forall i, j :: 0 <= i < j < |songs| ==> songs[i].id != songs[j].id
    ensures FindIndex(songs, songs[k].id) == k
  {
    var r := FindIndex(songs, songs[k].id);
    assert r != -1;
    assert !(r < k) && !(k < r);
  }

  /** So each song is found at its own position. */
  lemma FindIndexOfSong(k: nat)
    requires k < |Songs|
    ensures FindIndex(Songs, Songs[k].id) == k
  {
    SongIdsDistinct();
    FindIndexDistinct(Songs, k);
  }

  /** The song at position `k` is found there by its id. */
  lemma FindIndexAt(s: Song, k: nat)
    ensures k < |Songs| && s == Songs[k] ==> FindIndex(Songs, s.id) == k
  {
    if k < |Songs| && s == Songs[k] {
      FindIndexOfSong(k);
    }
  }

  /** Different positions hold different songs. */
  lemma SongsDistinct(i: nat, j: nat)
    requires i < |Songs| && j < |Songs| && i != j
    ensures Songs[i] != Songs[j]
  {
    FindIndexOfSong(i);
    FindIndexOfSong(j);
  }

  /** The position after `i`, wrapping from the last song to the first. */
  function NextIndex(i: nat, n: nat): (r: nat)
    requires i < n
    ensures r < n
    ensures i + 1 < n ==> r == i + 1
    ensures i + 1 == n ==> r == 0
  {
    (i + 1) % n
  }

  /** The position before `i`: `(i - 1 + n) % n`, wrapping from the first song
      to the last. */
  function PrevIndex(i: nat, n: nat): (r: nat)
    requires i < n
    ensures r < n
    ensures i > 0 ==> r == i - 1
    ensures i == 0 ==> r == n - 1
  {
    (i - 1 + n) % n
  }

  /** Previous undoes next and next undoes previous. */
  lemma PrevNextInverse(i: nat, n: nat)
    requires i < n
    ensures PrevIndex(NextIndex(i, n), n) == i
    ensures NextIndex(PrevIndex(i, n), n) == i
  {
  }

  /** With more than one song, next and previous always change the song. */
  lemma StepsMove(i: nat, n: nat)
    requires i < n && n > 1
    ensures NextIndex(i, n) != i && PrevIndex(i, n) != i
  {
  }

  /** A supply of `Math.floor(Math.random() * n)` values for the shuffle:
      each below `n`, and at least one different from the current index. */
  predicate ShuffleDraws(cur: int, n: nat, draws: seq<nat>) {
    (forall k :: 0 <= k < |draws| ==> draws[k] < n) &&
    exists k :: 0 <= k < |draws| && draws[k] != cur
  }

  /** The shuffle of handleNext: draw an index, and draw again while it is the
      current one and there is more than one song. The result is the first
      draw that differs from `cur`. */
  method PickShuffled(cur: int, n: nat, draws: seq<nat>) returns (next: nat)
    requires n > 1 && ShuffleDraws(cur, n, draws)
    ensures next < n && next != cur
    ensures exists k :: 0 <= k < |draws| && draws[k] == next && forall j :: 0 <= j < k ==> draws[j] == cur
  {
    var k := 0;
    next := draws[0];
    while next == cur && n > 1
      invariant 0 <= k < |draws| && next == draws[k]
      invariant forall j :: 0 <= j < k ==> draws[j] == cur
      invariant exists m :: k <= m < |draws| && draws[m] != cur
      decreases |draws| - k
    {
      k := k + 1;
      next := draws[k];
    }
  }

  /** `padStart(2, '0')` of a number below 100. */
  function Pad2(s: nat): (r: string)
    requires s < 100
    ensures |r| == 2 && Strings.AllDigits(r) && Strings.DigitsValue(r) == s
  {
    Strings.NatToStringRoundTrip(s);
    if s < 10 then
      var d := Strings.NatToString(s);
      assert ("0" + d)[..1] == "0";
      "0" + d
    else Strings.NatToString(s)
  }

  /** formatTime: whole minutes, a colon, and the seconds zero-padded to two
      digits. */
  function FormatTime(seconds: nat): string {
    Strings.NatToString(seconds / 60) + ":" + Pad2(seconds % 60)
  }

  /** Reads an `m:ss` clock back: digits, a colon, and exactly two digits
      below 60. */
  function ParseTime(s: string): (r: Option<nat>)
  {
    if |s| >= 4 && s[|s| - 3] == ':' && Strings.AllDigits(s[..|s| - 3]) && Strings.AllDigits(s[|s| - 2..]) &&
       Strings.DigitsValue(s[|s| - 2..]) < 60
    then Some(Strings.DigitsValue(s[..|s| - 3]) * 60 + Strings.DigitsValue(s[|s| - 2..]))
    else None
  }

  /** formatTime is the `m:ss` rendering of its argument: its last two
      characters are the seconds, below 60, after a colon, and the digits
      before are the minutes; reading it back gives the number of seconds. */
  lemma FormatTimeRoundTrip(seconds: nat)
    ensures var r := FormatTime(seconds);
      |r| >= 4 && r[|r| - 3] == ':' &&
      Strings.AllDigits(r[..|r| - 3]) && Strings.DigitsValue(r[..|r| - 3]) == seconds / 60 &&
      Strings.AllDigits(r[|r| - 2..]) && Strings.DigitsValue(r[|r| - 2..]) == seconds % 60
    ensures ParseTime(FormatTime(seconds)) == Some(seconds)
  {
    var m := Strings.NatToString(seconds / 60);
    var p := Pad2(seconds % 60);
    var r := FormatTime(seconds);
    assert r == m + ":" + p;
    assert r[..|r| - 3] == m;
    assert r[|r| - 2..] == p;
    Strings.NatToStringRoundTrip(seconds / 60);
  }

  /** A clock below ten minutes with ten seconds or more is four characters:
      the minute digit, the colon and two second digits. */
  lemma FormatShortTime(m: nat, sec: nat)
    requires m < 10 && 10 <= sec < 60
    ensures FormatTime(m * 60 + sec) == [Strings.DigitChar(m), ':', Strings.DigitChar(sec / 10), Strings.DigitChar(sec % 10)]
  {
    assert (m * 60 + sec) / 60 == m && (m * 60 + sec) % 60 == sec;
    assert Strings.NatToString(sec) == [Strings.DigitChar(sec / 10), Strings.DigitChar(sec % 10)];
  }

  /** Every song's duration label is its length in seconds, formatted. */
  lemma DurationLabelsAgree()
    ensures forall k :: 0 <= k < |Songs| ==> FormatTime(Songs[k].durationSec) == Songs[k].duration
  {
    SongLabel(0, 3, 24);
    SongLabel(1, 4, 12);
    SongLabel(2, 2, 58);
    SongLabel(3, 3, 45);
    SongLabel(4, 3, 10);
  }

  /** Song `k`'s label is the clock of `m` minutes and `sec` seconds. */
  lemma SongLabel(k: nat, m: nat, sec: nat)
    requires k < |Songs| && m < 10 && 10 <= sec < 60
    requires Songs[k].durationSec == m * 60 + sec
    requires Songs[k].duration == [Strings.DigitChar(m), ':', Strings.DigitChar(sec / 10), Strings.DigitChar(sec % 10)]
    ensures FormatTime(Songs[k].durationSec) == Songs[k].duration
  {
    FormatShortTime(m, sec);
  }

  /** The player's state. */
  class Player {
    var currentSong: Song
    var isPlaying: bool
    var currentTime: int
    var volume: int
    var shuffle: bool
    var repeat: bool
    /** The value of `shuffle` that the running play interval saw when its
        effect last ran. That effect re-runs only when `isPlaying`,
        `currentSong` or `repeat` changes, so this can lag behind
        `shuffle`. */
    var tickShuffle: bool

    /** The position of `currentSong` in the list: proof bookkeeping that
        the source recomputes with findIndex. */
    ghost var pos: nat

    /** The current song is the one at `pos`, the clock is within the song,
        and the volume within the slider's range. */
    ghost predicate Valid()
      reads this
    {
      pos < |Songs| && currentSong == Songs[pos] && 0 <= currentTime <= currentSong.durationSec && 0 <= volume <= 100
    }

    /** The position of the current song, as handleNext and handlePrev find
        it. */
    function CurrentIndex(): (i: int)
      reads this
      ensures pos < |Songs| && currentSong == Songs[pos] ==> i == pos
    {
      var i := FindIndex(Songs, currentSong.id);
      FindIndexAt(currentSong, pos);
      i
    }

    constructor ()
      ensures currentSong == Songs[0] && !isPlaying && currentTime == 0 && volume == 80
      ensures !shuffle && !repeat && !tickShuffle
      ensures Valid()
    {
      currentSong, isPlaying, currentTime, volume := Songs[0], false, 0, 80;
      shuffle, repeat, tickShuffle := false, false, false;
      pos := 0;
    }

    /** The song handleNext moves to, with `shuffleOn` as the value of
        `shuffle` it sees: the next in the list, or the first of `draws` that
        is not the current song. */
    method Advance(shuffleOn: bool, draws: seq<nat>)
      requires Valid() && (shuffleOn ==> ShuffleDraws(CurrentIndex(), |Songs|, draws))
      modifies this`currentSong, this`pos, this`currentTime, this`isPlaying, this`tickShuffle
      ensures Valid() && currentTime == 0 && isPlaying && tickShuffle == shuffle
      ensures currentSong != old(currentSong)
      ensures !shuffleOn ==> currentSong == Songs[NextIndex(old(CurrentIndex()), |Songs|)]
      ensures shuffleOn ==>
        exists k :: 0 <= k < |draws| && Songs[draws[k]] == currentSong &&
          forall j :: 0 <= j < k ==> draws[j] == old(CurrentIndex())
    {
      var i := CurrentIndex();
      var next: nat;
      if shuffleOn {
        next := PickShuffled(i, |Songs|, draws);
      } else {
        StepsMove(i, |Songs|);
        next := NextIndex(i, |Songs|);
      }
      SongsDistinct(i, next);
      // The song always changes, so the play effect runs again.
      PlayFromStart(next);
    }

    /** What handleNext and handlePrev do once they have the new position
        `k`: that song, from its start, playing, with the play effect run
        again. */
    method PlayFromStart(k: nat)
      requires Valid() && k < |Songs|
      modifies this`currentSong, this`pos, this`currentTime, this`isPlaying, this`tickShuffle
      ensures Valid() && currentSong == Songs[k] && pos == k && currentTime == 0 && isPlaying && tickShuffle == shuffle
    {
      currentSong, pos := Songs[k], k;
      currentTime := 0;
      isPlaying := true;
      tickShuffle := shuffle;
    }

    /** The next button: handleNext with the current value of `shuffle`. */
    method Next(draws: seq<nat>)
      requires Valid() && (shuffle ==> ShuffleDraws(CurrentIndex(), |Songs|, draws))
      modifies this`currentSong, this`pos, this`currentTime, this`isPlaying, this`tickShuffle
      ensures Valid() && currentTime == 0 && isPlaying && tickShuffle == shuffle
      ensures currentSong != old(currentSong)
      ensures !shuffle ==> currentSong == Songs[NextIndex(old(CurrentIndex()), |Songs|)]
      ensures shuffle ==>
        exists k :: 0 <= k < |draws| && Songs[draws[k]] == currentSong &&
          forall j :: 0 <= j < k ==> draws[j] == old(CurrentIndex())
    {
      StepsMove(CurrentIndex(), |Songs|);
      FindIndexOfSong(NextIndex(CurrentIndex(), |Songs|));
      Advance(shuffle, draws);
    }

    /** handlePrev: the previous song, from its start, playing. */
    method Prev()
      requires Valid()
      modifies this`currentSong, this`pos, this`currentTime, this`isPlaying, this`tickShuffle
      ensures Valid() && currentTime == 0 && isPlaying && tickShuffle == shuffle
      ensures currentSong == Songs[PrevIndex(old(CurrentIndex()), |Songs|)]
      ensures currentSong != old(currentSong)
    {
      var i := CurrentIndex();
      var prev := PrevIndex(i, |Songs|);
      StepsMove(i, |Songs|);
      SongsDistinct(i, prev);
      PlayFromStart(prev);
    }

    /** A click on the `k`-th song of the library: that song, from its
        start, playing. The play effect runs again if the song or the playing
        flag changed. */
    method SelectSong(k: nat)
      requires Valid() && k < |Songs|
      modifies this`currentSong, this`pos, this`currentTime, this`isPlaying, this`tickShuffle
      ensures Valid() && currentSong == Songs[k] && currentTime == 0 && isPlaying
      ensures tickShuffle == if old(currentSong) != Songs[k] || !old(isPlaying) then shuffle else old(tickShuffle)
    {
      if currentSong != Songs[k] || !isPlaying {
        tickShuffle := shuffle;
      }
      currentSong, pos := Songs[k], k;
      isPlaying := true;
      currentTime := 0;
    }

    /** handleSeek: the position slider runs from 0 to the song's length. */
    method Seek(v: int)
      requires Valid() && 0 <= v <= currentSong.durationSec
      modifies this`currentTime
      ensures Valid() && currentTime == v
    {
      currentTime := v;
    }

    /** The play/pause button; the play effect runs again. */
    method TogglePlay()
      requires Valid()
      modifies this`isPlaying, this`tickShuffle
      ensures Valid() && isPlaying == !old(isPlaying) && tickShuffle == shuffle
    {
      isPlaying := !isPlaying;
      tickShuffle := shuffle;
    }

    /** The shuffle button: not a dependency of the play effect, so the
        running interval keeps the value it saw. */
    method ToggleShuffle()
      requires Valid()
      modifies this`shuffle
      ensures Valid() && shuffle == !old(shuffle)
    {
      shuffle := !shuffle;
    }

    /** The repeat button; the play effect runs again. */
    method ToggleRepeat()
      requires Valid()
      modifies this`repeat, this`tickShuffle
      ensures Valid() && repeat == !old(repeat) && tickShuffle == shuffle
    {
      repeat := !repeat;
      tickShuffle := shuffle;
    }

    /** The volume slider, from 0 to 100. */
    method SetVolume(v: int)
      requires Valid() && 0 <= v <= 100
      modifies this`volume
      ensures Valid() && volume == v
    {
      volume := v;
    }

    /** One second of the play interval as written: the clock goes up by one
        until the song's length; at the end it goes back to 0, and unless
        repeat is on the song advances through the handleNext the interval
        captured, with the `shuffle` value it saw. */
    method Tick(draws: seq<nat>)
      requires Valid() && isPlaying
      requires tickShuffle ==> ShuffleDraws(CurrentIndex(), |Songs|, draws)
      modifies this`currentSong, this`pos, this`currentTime, this`isPlaying, this`tickShuffle
      ensures Valid() && isPlaying
      ensures old(currentTime) < old(currentSong).durationSec ==>
        currentTime == old(currentTime) + 1 && currentSong == old(currentSong) && tickShuffle == old(tickShuffle)
      ensures old(currentTime) >= old(currentSong).durationSec && repeat ==>
        currentTime == 0 && currentSong == old(currentSong) && tickShuffle == old(tickShuffle)
      ensures old(currentTime) >= old(currentSong).durationSec && !repeat ==>
        currentTime == 0 && currentSong != old(currentSong) && tickShuffle == shuffle &&
        (!old(tickShuffle) ==> currentSong == Songs[NextIndex(old(CurrentIndex()), |Songs|)]) &&
        (old(tickShuffle) ==>
          exists k :: 0 <= k < |draws| && Songs[draws[k]] == currentSong &&
            forall j :: 0 <= j < k ==> draws[j] == old(CurrentIndex()))
    {
      if currentTime >= currentSong.durationSec {
        if repeat {
          currentTime := 0;
        } else {
          StepsMove(CurrentIndex(), |Songs|);
          FindIndexOfSong(NextIndex(CurrentIndex(), |Songs|));
          Advance(tickShuffle, draws);
        }
      } else {
        currentTime := currentTime + 1;
      }
    }

    /** The play interval with `shuffle` among the effect's dependencies, so
        the song that follows at the end honours the shuffle setting shown. */
    method TickFresh(draws: seq<nat>)
      requires Valid() && isPlaying
      requires shuffle ==> ShuffleDraws(CurrentIndex(), |Songs|, draws)
      modifies this`currentSong, this`pos, this`currentTime, this`isPlaying, this`tickShuffle
      ensures Valid() && isPlaying
      ensures old(currentTime) < old(currentSong).durationSec ==>
        currentTime == old(currentTime) + 1 && currentSong == old(currentSong)
      ensures old(currentTime) >= old(currentSong).durationSec && repeat ==>
        currentTime == 0 && currentSong == old(currentSong)
      ensures old(currentTime) >= old(currentSong).durationSec && !repeat ==>
        currentTime == 0 && currentSong != old(currentSong) && tickShuffle == shuffle &&
        (!shuffle ==> currentSong == Songs[NextIndex(old(CurrentIndex()), |Songs|)]) &&
        (shuffle ==>
          exists k :: 0 <= k < |draws| && Songs[draws[k]] == currentSong &&
            forall j :: 0 <= j < k ==> draws[j] == old(CurrentIndex()))
    {
      if currentTime >= currentSong.durationSec {
        if repeat {
          currentTime := 0;
        } else {
          StepsMove(CurrentIndex(), |Songs|);
          FindIndexOfSong(NextIndex(CurrentIndex(), |Songs|));
          Advance(shuffle, draws);
        }
      } else {
        currentTime := currentTime + 1;
      }
    }
  }

  /** As written: start playing, switch shuffle on, and let the first song
      run out. The song that follows is the next one in the list, not the
      shuffled pick from `[3]`. */
  method StaleShuffleAtSongEnd() returns (next: Song, shuffleShown: bool)
    ensures shuffleShown && next == Songs[1]
  {
    var p := new Player();
    p.TogglePlay();
    p.ToggleShuffle();
    p.Seek(Songs[0].durationSec);
    ghost var first := p.currentSong;
    assert first == Songs[0] && p.CurrentIndex() == 0;
    p.Tick([3]);
    next, shuffleShown := p.currentSong, p.shuffle;
  }

  /** With `shuffle` a dependency, the same steps pick song 3 from the
      draws `[0, 3]`: the first draw is the current song and is redrawn. */
  method FreshShuffleAtSongEnd() returns (next: Song)
    ensures next == Songs[3]
  {
    var p := new Player();
    p.TogglePlay();
    p.ToggleShuffle();
    p.Seek(Songs[0].durationSec);
    ghost var first := p.currentSong;
    assert first == Songs[0] && p.CurrentIndex() == 0;
    assert [0, 3][1] != p.CurrentIndex();
    p.TickFresh([0, 3]);
    assert p.currentSong != Songs[0];
    next := p.currentSong;
  }
}
