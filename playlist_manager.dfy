/** The playlist's index state machine: an ordered track list, the index of
    the current track (−1 for none), a shuffle order that is always a
    permutation of the track indices, and the repeat mode. Track ids,
    timestamps and the outcome of loading and starting a track are passed in
    by the caller; the Fisher–Yates draws are an unconstrained choice; an
    event log stands for the track-change and playlist-update callbacks. */
module PlaylistManager {
  import opened Common

  /** What the caller hands to addTrack; the empty string stands for a
      missing (falsy) field. */
  datatype TrackInfo = TrackInfo(name: string, url: string, file: Option<string>, artist: string, album: string)

  datatype Track = Track(id: real, name: string, url: Option<string>, file: Option<string>,
                         duration: int, artist: string, album: string, addedAt: int)

  /** The repeat field: `false` until setRepeatMode first succeeds, then
      'none', 'one' or 'all'. */
  datatype Repeat = Unset | NoRepeat | RepeatOne | RepeatAll

  datatype Event =
    | PlaylistUpdated(tracks: seq<Track>)
    | TrackChanged(track: Track, index: int)

  /** `a || b` on strings: b when a is empty. */
  function OrElse(a: string, b: string): string
  {
    if a == "" then b else a
  }

  /** The record addTrack stores for a caller's track. */
  function MakeTrack(info: TrackInfo, id: real, now: int): (t: Track)
    ensures t.id == id && t.duration == 0 && t.addedAt == now && t.file == info.file
    ensures t.name != ""
    ensures t.url.Some? <==> info.url != ""
    ensures info.name != "" ==> t.name == info.name
  {
    Track(id, OrElse(info.name, OrElse(info.url, "Unknown Track")),
          if info.url == "" then None else Some(info.url),
          info.file, 0,
          OrElse(info.artist, "Unknown Artist"), OrElse(info.album, "Unknown Album"), now)
  }

  /** setRepeatMode's check against ['none', 'one', 'all']. */
  function ParseRepeat(mode: string): (r: Option<Repeat>)
    ensures r.Some? <==> mode in {"none", "one", "all"}
    ensures r.Some? ==> r.value != Unset
  {
    if mode == "none" then Some(NoRepeat)
    else if mode == "one" then Some(RepeatOne)
    else if mode == "all" then Some(RepeatAll)
    else None
  }

  // ---------------------------------------------------------------------
  // Shuffle orders

  /** [...Array(n).keys()] */
  function Identity(n: nat): (s: seq<int>)
    ensures |s| == n && forall i :: 0 <= i < n ==> s[i] == i
  {
    seq(n, i => i)
  }

  /** order lists every track index 0..n−1 exactly once. */
  ghost predicate IsPermutation(order: seq<int>, n: nat)
  {
    |order| == n && multiset(order) == multiset(Identity(n))
  }

  /** A permutation has length n, holds only track indices, holds each of
      them, and holds none twice. */
  lemma PermutationFacts(order: seq<int>, n: nat)
    requires IsPermutation(order, n)
    ensures |order| == n
    ensures forall p :: 0 <= p < |order| ==> 0 <= order[p] < n
    ensures forall k :: 0 <= k < n ==> k in order
    ensures forall p, q :: 0 <= p < q < |order| ==> order[p] != order[q]
  {
    var id := Identity(n);
    forall p | 0 <= p < |order| ensures 0 <= order[p] < n {
      assert order[p] in multiset(order);
      assert order[p] in multiset(id);
    }
    forall k | 0 <= k < n ensures k in order {
      assert id[k] == k;
      assert k in multiset(id);
      assert k in multiset(order);
    }
    forall p, q | 0 <= p < q < |order| ensures order[p] != order[q] {
      if order[p] == order[q] {
        var x := order[p];
        MultisetCountAtLeastTwo(order, p, q);
        IdentityCountAtMostOne(n, x);
        assert false;
      }
    }
  }

  lemma MultisetCountAtLeastTwo(s: seq<int>, p: int, q: int)
    requires 0 <= p < q < |s| && s[p] == s[q]
    ensures multiset(s)[s[p]] >= 2
  {
    var x := s[p];
    assert s == s[..q] + [x] + s[q + 1..];
    assert x in s[..q];
    assert multiset(s) == multiset(s[..q]) + multiset{x} + multiset(s[q + 1..]);
    assert multiset(s[..q])[x] >= 1;
  }

  lemma {:induction false} IdentityCountAtMostOne(n: nat, x: int)
    ensures multiset(Identity(n))[x] <= 1
  {
    if n > 0 {
      IdentityCountAtMostOne(n - 1, x);
      assert Identity(n) == Identity(n - 1) + [n - 1];
      if x == n - 1 {
        assert x !in Identity(n - 1);
      }
    }
  }

  /** Array.prototype.indexOf: the first position holding x, −1 when none does. */
  function IndexOf(s: seq<int>, x: int): (r: int)
    ensures -1 <= r < |s|
    ensures r == -1 <==> x !in s
    ensures r >= 0 ==> s[r] == x && forall p :: 0 <= p < r ==> s[p] != x
  {
    if |s| == 0 then -1
    else if s[0] == x then 0
    else
      var r := IndexOf(s[1..], x);
      if r == -1 then -1 else r + 1
  }

  // ---------------------------------------------------------------------
  // Next and previous

  /** getNextTrackIndex on a list of n tracks. */
  function NextIndex(n: nat, current: int, shuffled: bool, order: seq<int>, repeat: Repeat): int
    requires |order| == n
  {
    if n == 0 then -1
    else if repeat == RepeatOne then current
    else
      var next :=
        if shuffled then order[(IndexOf(order, current) + 1) % n]
        else (current + 1) % n;
      if next == 0 && repeat != RepeatAll then -1 else next
  }

  /** getPreviousTrackIndex on a list of n tracks: no end-of-list check. */
  function PreviousIndex(n: nat, current: int, shuffled: bool, order: seq<int>, repeat: Repeat): int
    requires |order| == n
  {
    if n == 0 then -1
    else if repeat == RepeatOne then current
    else if shuffled then order[(IndexOf(order, current) - 1 + n) % n]
    else (current - 1 + n) % n
  }

  /** Both answers are −1 or a track index whenever the current index is. */
  lemma StepsInRange(n: nat, current: int, shuffled: bool, order: seq<int>, repeat: Repeat)
    requires IsPermutation(order, n) && -1 <= current < n
    ensures -1 <= NextIndex(n, current, shuffled, order, repeat) < n
    ensures -1 <= PreviousIndex(n, current, shuffled, order, repeat) < n
    ensures n > 0 && repeat != RepeatOne ==> PreviousIndex(n, current, shuffled, order, repeat) >= 0
  {
    PermutationFacts(order, n);
  }

  /** Playing in list order without repeat-all ends after the last track,
      and it also ends at once when no track is current yet. */
  lemma EndOfPlaylist(n: nat, current: int, order: seq<int>, repeat: Repeat)
    requires |order| == n && n > 0 && (current == n - 1 || current == -1)
    requires repeat != RepeatOne && repeat != RepeatAll
    ensures NextIndex(n, current, false, order, repeat) == -1
  {
  }

  /** Shuffled play over the identity order visits tracks exactly as
      unshuffled play does. */
  lemma IdentityOrderIsListOrder(n: nat, current: int, repeat: Repeat)
    requires -1 <= current < n
    ensures NextIndex(n, current, true, Identity(n), repeat) == NextIndex(n, current, false, Identity(n), repeat)
    ensures PreviousIndex(n, current, true, Identity(n), repeat) == PreviousIndex(n, current, false, Identity(n), repeat)
  {
    var id := Identity(n);
    if n > 0 && current >= 0 {
      assert id[current] == current;
      assert IndexOf(id, current) == current;
    } else if n > 0 {
      assert current !in id;
    }
  }

  /** Stepping one place forward, then one back, round a ring of n
      positions returns to the start, and so does the opposite order. */
  lemma RingSteps(p: int, n: int)
    requires 0 <= p < n
    ensures 0 <= (p + 1) % n < n && ((p + 1) % n - 1 + n) % n == p
    ensures 0 <= (p - 1 + n) % n < n && ((p - 1 + n) % n + 1) % n == p
  {
    SmallMod(p + 1, n);
    SmallMod((p + 1) % n - 1 + n, n);
    SmallMod(p - 1 + n, n);
    SmallMod((p - 1 + n) % n + 1, n);
  }

  /** With repeat-all, previous undoes next and next undoes previous in
      list order. */
  lemma ListOrderStepsUndo(n: nat, current: int, order: seq<int>)
    requires |order| == n && 0 <= current < n
    ensures var next := NextIndex(n, current, false, order, RepeatAll);
      0 <= next < n && PreviousIndex(n, next, false, order, RepeatAll) == current
    ensures var previous := PreviousIndex(n, current, false, order, RepeatAll);
      0 <= previous < n && NextIndex(n, previous, false, order, RepeatAll) == current
  {
    RingSteps(current, n);
  }

  /** With repeat-all, previous undoes next and next undoes previous in
      any shuffle order. */
  lemma ShuffleOrderStepsUndo(n: nat, current: int, order: seq<int>)
    requires IsPermutation(order, n) && 0 <= current < n
    ensures var next := NextIndex(n, current, true, order, RepeatAll);
      0 <= next < n && PreviousIndex(n, next, true, order, RepeatAll) == current
    ensures var previous := PreviousIndex(n, current, true, order, RepeatAll);
      0 <= previous < n && NextIndex(n, previous, true, order, RepeatAll) == current
  {
    PermutationFacts(order, n);
    assert current in order;
    var p := IndexOf(order, current);
    assert order[p] == current;
    RingSteps(p, n);
    var q, r := (p + 1) % n, (p - 1 + n) % n;
    assert NextIndex(n, current, true, order, RepeatAll) == order[q];
    DistinctIndexOf(order, q);
    assert PreviousIndex(n, order[q], true, order, RepeatAll) == order[(q - 1 + n) % n];
    assert PreviousIndex(n, current, true, order, RepeatAll) == order[r];
    DistinctIndexOf(order, r);
    assert NextIndex(n, order[r], true, order, RepeatAll) == order[(r + 1) % n];
  }

  lemma DistinctIndexOf(order: seq<int>, q: int)
    requires 0 <= q < |order|
    requires forall p, r :: 0 <= p < r < |order| ==> order[p] != order[r]
    ensures IndexOf(order, order[q]) == q
  {
  }

  // ---------------------------------------------------------------------
  // The manager

  /** removeTrack's adjustment of the current index after removing index i. */
  function AdjustAfterRemoval(current: int, i: int): int
  {
    if i < current then current - 1 else if i == current then -1 else current
  }

  /** Removing another track keeps the same track current; removing the
      current one leaves none current. */
  lemma RemovalKeepsCurrentTrack(tracks: seq<Track>, current: int, i: int)
    requires 0 <= i < |tracks| && -1 <= current < |tracks|
    ensures var rest := tracks[..i] + tracks[i + 1..];
      var c := AdjustAfterRemoval(current, i);
      && -1 <= c < |rest|
      && (current == i ==> c == -1)
      && (current >= 0 && current != i ==> rest[c] == tracks[current])
  {
  }

  /** findIndex by id: the first track carrying it, −1 when none does. */
  function FindTrack(tracks: seq<Track>, id: real): (r: int)
    ensures -1 <= r < |tracks|
    ensures r == -1 <==> forall k :: 0 <= k < |tracks| ==> tracks[k].id != id
    ensures r >= 0 ==> tracks[r].id == id && forall k :: 0 <= k < r ==> tracks[k].id != id
  {
    if |tracks| == 0 then -1
    else if tracks[0].id == id then 0
    else
      var r := FindTrack(tracks[1..], id);
      if r == -1 then -1 else r + 1
  }

  class Manager {
    var tracks: seq<Track>
    var currentIndex: int
    var isShuffled: bool
    var repeat: Repeat
    var shuffleOrder: seq<int>
    var events: seq<Event>

    /** The current index is −1 or a track index, and the shuffle order is a
        permutation of the track indices, the identity when not shuffled. */
    ghost predicate Valid()
      reads this
    {
      && -1 <= currentIndex < |tracks|
      && IsPermutation(shuffleOrder, |tracks|)
      && (!isShuffled ==> shuffleOrder == Identity(|tracks|))
    }

    constructor()
      ensures Valid()
      ensures tracks == [] && currentIndex == -1 && !isShuffled && repeat == Unset
      ensures shuffleOrder == [] && events == []
    {
      tracks := [];
      currentIndex := -1;
      isShuffled := false;
      repeat := Unset;
      shuffleOrder := [];
      events := [];
    }

    /** updateShuffleOrder: the identity, then a Fisher–Yates pass when
        shuffled; each draw j in 0..i is left open. */
    method UpdateShuffleOrder()
      modifies `shuffleOrder
      ensures IsPermutation(shuffleOrder, |tracks|)
      ensures !isShuffled ==> shuffleOrder == Identity(|tracks|)
    {
      var order := Identity(|tracks|);
      if isShuffled {
        var i := |order| - 1;
        while i > 0
          invariant |order| == |tracks| && i < |order|
          invariant IsPermutation(order, |tracks|)
          decreases i
        {
          var j :| 0 <= j <= i;
          order := order[i := order[j]][j := order[i]];
          i := i - 1;
        }
      }
      shuffleOrder := order;
    }

    /** addTrack: one record appended at the end, returned id. */
    method AddTrack(info: TrackInfo, id: real, now: int) returns (r: real)
      requires Valid()
      modifies `tracks, `shuffleOrder, `events
      ensures Valid()
      ensures tracks == old(tracks) + [MakeTrack(info, id, now)]
      ensures events == old(events) + [PlaylistUpdated(tracks)]
      ensures r == id
    {
      tracks := tracks + [MakeTrack(info, id, now)];
      UpdateShuffleOrder();
      events := events + [PlaylistUpdated(tracks)];
      r := id;
    }

    /** removeTrack: false and nothing changed for an unknown id; otherwise
        the first track with that id is removed and the current index follows
        the current track (−1 when it was the one removed). */
    method RemoveTrack(id: real) returns (removed: bool)
      requires Valid()
      modifies `tracks, `currentIndex, `shuffleOrder, `events
      ensures Valid()
      ensures removed <==> exists k :: 0 <= k < |old(tracks)| && old(tracks)[k].id == id
      ensures !removed ==> unchanged(this)
      ensures removed ==>
        var i := FindTrack(old(tracks), id);
        && tracks == old(tracks[..i] + tracks[i + 1..])
        && currentIndex == AdjustAfterRemoval(old(currentIndex), i)
        && events == old(events) + [PlaylistUpdated(tracks)]
    {
      var i := FindTrack(tracks, id);
      if i == -1 {
        return false;
      }
      RemovalKeepsCurrentTrack(tracks, currentIndex, i);
      tracks := tracks[..i] + tracks[i + 1..];
      if i < currentIndex {
        currentIndex := currentIndex - 1;
      } else if i == currentIndex {
        currentIndex := -1;
      }
      UpdateShuffleOrder();
      events := events + [PlaylistUpdated(tracks)];
      removed := true;
    }

    /** clearPlaylist: no tracks, none current, an empty order. */
    method ClearPlaylist()
      modifies `tracks, `currentIndex, `shuffleOrder, `events
      ensures Valid()
      ensures tracks == [] && currentIndex == -1 && shuffleOrder == []
      ensures events == old(events) + [PlaylistUpdated([])]
    {
      tracks := [];
      currentIndex := -1;
      shuffleOrder := [];
      events := events + [PlaylistUpdated(tracks)];
    }

    /** playTrack: false and nothing changed out of range; otherwise the
        index becomes current before loading, and the result is whether the
        track has a source and loading and starting it succeeded. */
    method PlayTrack(index: int, loaded: bool) returns (ok: bool)
      requires Valid()
      modifies `currentIndex, `events
      ensures Valid()
      ensures !(0 <= index < |tracks|) ==> !ok && unchanged(this)
      ensures 0 <= index < |tracks| ==>
        && currentIndex == index
        && ok == (loaded && (tracks[index].file.Some? || tracks[index].url.Some?))
        && events == old(events) + (if ok then [TrackChanged(tracks[index], index)] else [])
    {
      if index < 0 || index >= |tracks| {
        return false;
      }
      var track := tracks[index];
      currentIndex := index;
      if track.file.None? && track.url.None? {
        return false;
      }
      if !loaded {
        return false;
      }
      events := events + [TrackChanged(track, index)];
      ok := true;
    }

    function NextTrackIndex(): (r: int)
      reads this
      requires Valid()
      ensures -1 <= r < |tracks|
    {
      StepsInRange(|tracks|, currentIndex, isShuffled, shuffleOrder, repeat);
      NextIndex(|tracks|, currentIndex, isShuffled, shuffleOrder, repeat)
    }

    function PreviousTrackIndex(): (r: int)
      reads this
      requires Valid()
      ensures -1 <= r < |tracks|
      ensures |tracks| > 0 && repeat != RepeatOne ==> r >= 0
    {
      StepsInRange(|tracks|, currentIndex, isShuffled, shuffleOrder, repeat);
      PreviousIndex(|tracks|, currentIndex, isShuffled, shuffleOrder, repeat)
    }

    /** playNext: nothing at the end of the list, else playTrack. */
    method PlayNext(loaded: bool) returns (ok: bool)
      requires Valid()
      modifies `currentIndex, `events
      ensures Valid()
      ensures old(NextTrackIndex()) == -1 ==> !ok && unchanged(this)
      ensures old(NextTrackIndex()) >= 0 ==>
        && currentIndex == old(NextTrackIndex())
        && ok == (loaded && (tracks[currentIndex].file.Some? || tracks[currentIndex].url.Some?))
        && events == old(events) + (if ok then [TrackChanged(tracks[currentIndex], currentIndex)] else [])
    {
      var next := NextTrackIndex();
      if next == -1 {
        return false;
      }
      ok := PlayTrack(next, loaded);
    }

    /** playPrevious: nothing when there is no previous track, else playTrack. */
    method PlayPrevious(loaded: bool) returns (ok: bool)
      requires Valid()
      modifies `currentIndex, `events
      ensures Valid()
      ensures old(PreviousTrackIndex()) == -1 ==> !ok && unchanged(this)
      ensures old(PreviousTrackIndex()) >= 0 ==>
        && currentIndex == old(PreviousTrackIndex())
        && ok == (loaded && (tracks[currentIndex].file.Some? || tracks[currentIndex].url.Some?))
        && events == old(events) + (if ok then [TrackChanged(tracks[currentIndex], currentIndex)] else [])
    {
      var previous := PreviousTrackIndex();
      if previous == -1 {
        return false;
      }
      ok := PlayTrack(previous, loaded);
    }

    /** toggleShuffle: the flag flips, the order is redrawn, the new flag is returned. */
    method ToggleShuffle() returns (shuffled: bool)
      requires Valid()
      modifies `isShuffled, `shuffleOrder
      ensures Valid()
      ensures isShuffled == !old(isShuffled) && shuffled == isShuffled
    {
      isShuffled := !isShuffled;
      UpdateShuffleOrder();
      shuffled := isShuffled;
    }

    /** setRepeatMode: only 'none', 'one' and 'all' are taken; the mode in
        force is returned. */
    method SetRepeatMode(mode: string) returns (r: Repeat)
      modifies `repeat
      ensures repeat == (if ParseRepeat(mode).Some? then ParseRepeat(mode).value else old(repeat))
      ensures r == repeat
    {
      var parsed := ParseRepeat(mode);
      if parsed.Some? {
        repeat := parsed.value;
      }
      r := repeat;
    }

    /** getCurrentTrack */
    function CurrentTrack(): (t: Option<Track>)
      reads this
      requires Valid()
      ensures t.Some? <==> currentIndex >= 0
      ensures t.Some? ==> t.value in tracks
    {
      if currentIndex >= 0 then Some(tracks[currentIndex]) else None
    }
  }
}
