/**
  PlayableFragment: a feed page that owns one player view. Its commands check that the
  view exists, run the shared *Player helper against the shared store, keep the
  progress timer in step and report the new state.
*/
module Fragment {
  import opened PlaybackTypes
  import opened PlayableCore

  /** getKey(): the url followed by the fragment's tag; the framework's tag may be null,
      and string concatenation then appends the text "null". */
  function FragmentKey(url: string, tag: Option<string>): (key: string)
    ensures |key| >= |url| && key[..|url|] == url
    ensures tag.Some? ==> key[|url|..] == tag.value
    ensures tag.None? ==> key[|url|..] == "null"
  {
    url + (if tag.Some? then tag.value else "null")
  }

  /** How a call that reaches the player pool ends: with its value, or with the
      NullPointerException that getPlayer() throws while onView has not bound the page's
      view, since it asks that view for its context. */
  datatype Outcome<T> = Returned(value: T) | NullPointer

  /** Two fragments on one url with different tags use different cache entries and players. */
  lemma {:induction false} DistinctTagsDistinctKeys(url: string, a: Option<string>, b: Option<string>)
    requires FragmentKey(url, a) == FragmentKey(url, b)
    ensures a.Some? && b.Some? ==> a.value == b.value
  {
    var ka, kb := FragmentKey(url, a), FragmentKey(url, b);
    assert ka[|url|..] == kb[|url|..];
  }

  /** The converse fails: a fragment without a tag and one tagged "null" share a key, and
      so a record and a player. */
  lemma AbsentTagCollidesWithNullTag(url: string)
    ensures FragmentKey(url, None) == FragmentKey(url, Some("null"))
  {
  }

  class PlayableFragment {
    const store: PlaybackStore
    const url: string
    const tag: Option<string>
    const looping: bool
    const canStartPlaying: bool
    const enableTimer: bool

    /** Whether onView has bound the page's view (itemView is set). */
    var viewBound: bool

    /** Whether onView found a player view in it: isTrulyPlayable(). */
    var hasPlayerView: bool

    /** The states reported through onStateChanged, oldest first. */
    var emitted: seq<PlaybackState>

    /** Whether the one-second progress timer is scheduled. */
    ghost var timerActive: bool

    constructor (store: PlaybackStore, url: string, tag: Option<string>,
                 looping: bool, canStartPlaying: bool, enableTimer: bool)
      ensures this.store == store && this.url == url && this.tag == tag
      ensures this.looping == looping && this.canStartPlaying == canStartPlaying
      ensures this.enableTimer == enableTimer
      ensures !viewBound && !hasPlayerView && emitted == [] && !timerActive
    {
      this.store := store;
      this.url := url;
      this.tag := tag;
      this.looping := looping;
      this.canStartPlaying := canStartPlaying;
      this.enableTimer := enableTimer;
      viewBound := false;
      hasPlayerView := false;
      emitted := [];
      timerActive := false;
    }

    function Key(): (key: string)
    {
      FragmentKey(url, tag)
    }

    function AsItem(): (it: Item)
    {
      Item(Key(), looping, canStartPlaying)
    }

    /** onView: binds the page's view; the commands act only once a player view is found in
        it, so a page with a player view always has its view bound. */
    method OnView(foundPlayerView: bool)
      modifies this`viewBound, this`hasPlayerView
      ensures viewBound && hasPlayerView == foundPlayerView
      ensures hasPlayerView ==> viewBound
    {
      viewBound := true;
      hasPlayerView := foundPlayerView;
    }

    method Start()
      modifies this`emitted, this`timerActive, store
      ensures !hasPlayerView ==> unchanged(store) && emitted == old(emitted) && timerActive == old(timerActive)
      ensures hasPlayerView ==>
                var s := StartStep(AsItem(), old(store.cache), old(store.pool));
                && store.cache == s.cache && store.pool == s.pool
                && emitted == old(emitted) + s.emitted
      // startPlayerTimer() first cancels, then schedules only when the timer is enabled
      ensures hasPlayerView ==>
                timerActive == if ShouldPlay(AsItem(), GetPlaybackInfo(old(store.cache), Key()))
                               then enableTimer else old(timerActive)
    {
      if !hasPlayerView {
        return;
      }
      var shouldPlay := StartPlayer(store, AsItem());
      if shouldPlay {
        timerActive := enableTimer;
        var state := PlaybackStateOf(store.pool, Key());
        emitted := emitted + [if state == PlayerReady then Ready else Started];
      }
    }

    method Restart()
      modifies this`emitted, this`timerActive, store
      ensures !hasPlayerView ==> unchanged(store) && emitted == old(emitted) && timerActive == old(timerActive)
      ensures hasPlayerView ==>
                var s := RestartStep(Key(), old(store.cache), old(store.pool));
                && store.cache == s.cache && store.pool == s.pool
                && emitted == old(emitted) + s.emitted
      // resumePalyerTimer() schedules without consulting enableTimer()
      ensures hasPlayerView ==> timerActive
    {
      if !hasPlayerView {
        return;
      }
      RestartPlayer(store, Key());
      timerActive := true;
      emitted := emitted + [Restarted];
    }

    method Pause()
      modifies this`emitted, this`timerActive, store
      ensures !hasPlayerView ==> unchanged(store) && emitted == old(emitted) && timerActive == old(timerActive)
      ensures hasPlayerView ==>
                var s := PauseStep(Key(), old(store.cache), old(store.pool));
                && store.cache == s.cache && store.pool == s.pool
                && emitted == old(emitted) + s.emitted
      ensures hasPlayerView ==> timerActive == (old(timerActive) && Key() !in old(store.pool))
    {
      if !hasPlayerView {
        return;
      }
      var hadPlayer := PausePlayer(store, Key());
      if hadPlayer {
        timerActive := false;
      }
      emitted := emitted + [Paused];
    }

    method Stop()
      modifies this`emitted, this`timerActive, store
      ensures !hasPlayerView ==> unchanged(store) && emitted == old(emitted) && timerActive == old(timerActive)
      ensures hasPlayerView ==>
                var s := StopStep(Key(), old(store.cache), old(store.pool));
                && store.cache == s.cache && store.pool == s.pool
                && emitted == old(emitted) + s.emitted
      ensures hasPlayerView ==> timerActive == (old(timerActive) && Key() !in old(store.pool))
    {
      if !hasPlayerView {
        return;
      }
      var hadPlayer := StopPlayer(store, Key());
      if hadPlayer {
        timerActive := false;
      }
      emitted := emitted + [Stopped];
    }

    method Release()
      modifies this`emitted, this`timerActive, store
      ensures !hasPlayerView ==> unchanged(store) && emitted == old(emitted) && timerActive == old(timerActive)
      ensures hasPlayerView ==>
                var s := ReleaseStep(Key(), old(store.cache), old(store.pool));
                && store.cache == s.cache && store.pool == s.pool
                && emitted == old(emitted) + s.emitted
      // destroyPalyerTimer() runs whether or not there was a player
      ensures hasPlayerView ==> !timerActive
    {
      if !hasPlayerView {
        return;
      }
      ReleasePlayer(store, Key());
      timerActive := false;
      emitted := emitted + [Stopped];
    }

    /** seekTo has no view check: before onView, getPlayer() throws after the record was read
        and before anything was written. */
    method SeekTo(position: int) returns (thrown: bool)
      modifies store
      ensures thrown == !viewBound
      ensures thrown ==> store.cache == old(store.cache) && store.pool == old(store.pool)
      ensures !thrown ==>
                var s := SeekToStep(Key(), position, old(store.cache), old(store.pool));
                store.cache == s.cache && store.pool == s.pool
    {
      if !viewBound {
        return true;
      }
      PlayableCore.SeekTo(store, Key(), position);
      return false;
    }

    /** setVolume: before onView the volume is persisted and then getPlayer() throws, so no
        player hears of it. */
    method SetVolume(volume: int) returns (thrown: bool)
      modifies store
      ensures thrown == !viewBound
      ensures var s := SetVolumeStep(Key(), volume, old(store.cache), old(store.pool));
              store.cache == s.cache && store.pool == (if thrown then old(store.pool) else s.pool)
    {
      if !viewBound {
        var info := GetPlaybackInfo(store.cache, Key());
        info := info.(volumeInfo := info.volumeInfo.(volume := volume));
        store.cache := store.cache[Key() := info];
        return true;
      }
      PlayableCore.SetVolume(store, Key(), volume);
      return false;
    }

    /** setMuted: before onView the flag is persisted and then getPlayer() throws, so no
        player hears of it. */
    method SetMuted(muted: bool) returns (thrown: bool)
      modifies store
      ensures thrown == !viewBound
      ensures var s := SetMutedStep(Key(), muted, old(store.cache), old(store.pool));
              store.cache == s.cache && store.pool == (if thrown then old(store.pool) else s.pool)
    {
      if !viewBound {
        var info := GetPlaybackInfo(store.cache, Key());
        info := info.(volumeInfo := info.volumeInfo.(muted := muted));
        store.cache := store.cache[Key() := info];
        return true;
      }
      PlayableCore.SetMuted(store, Key(), muted);
      return false;
    }

    /** getVolume(): the player's setting when the key has a player, else the persisted one;
        before onView, getPlayer() throws. */
    method VolumeNow() returns (r: Outcome<int>)
      ensures r.NullPointer? <==> !viewBound
      ensures viewBound ==> r == Returned(GetVolume(store.cache, store.pool, Key()))
      ensures viewBound && Key() in store.pool ==> r.value == store.pool[Key()].volume
      ensures viewBound && Key() !in store.pool ==> r.value == GetPlaybackInfo(store.cache, Key()).volumeInfo.volume
    {
      var info := GetPlaybackInfo(store.cache, Key());
      if !viewBound {
        return NullPointer;
      }
      var player := GetPlayer(store.pool, Key());
      r := Returned(if player.Some? then player.value.volume else info.volumeInfo.volume);
    }

    /** isMuted(): the player's setting when the key has a player, else the persisted one;
        before onView, getPlayer() throws. */
    method IsMutedNow() returns (r: Outcome<bool>)
      ensures r.NullPointer? <==> !viewBound
      ensures viewBound ==> r == Returned(IsMuted(store.cache, store.pool, Key()))
      ensures viewBound && Key() in store.pool ==> r.value == store.pool[Key()].muted
      ensures viewBound && Key() !in store.pool ==> r.value == GetPlaybackInfo(store.cache, Key()).volumeInfo.muted
    {
      var info := GetPlaybackInfo(store.cache, Key());
      if !viewBound {
        return NullPointer;
      }
      var player := GetPlayer(store.pool, Key());
      r := Returned(if player.Some? then player.value.muted else info.volumeInfo.muted);
    }

    /** The player callback; it has no view check. Each handler asks isEnded(), which reads
        the player through the view: before onView it throws there. onPlaybackEnded has by
        then reported STOPPED and rewound its record object, which sticks only when that
        object is the cache's own. */
    method OnPlayerStateChanged(event: PlayerState) returns (thrown: bool)
      modifies this`emitted, store
      ensures thrown == !viewBound
      ensures !thrown ==>
                var s := PlayerStateChangedStep(Key(), event, store.sharedRecords, old(store.cache), old(store.pool));
                store.cache == s.cache && store.pool == s.pool && emitted == old(emitted) + s.emitted
      ensures thrown ==> store.pool == old(store.pool)
      ensures thrown && event != PlayerEnded ==> store.cache == old(store.cache) && emitted == old(emitted)
      ensures thrown && event == PlayerEnded ==>
                && emitted == old(emitted) + [Stopped]
                && store.cache == if store.sharedRecords && Key() in old(store.cache)
                                  then old(store.cache)[Key() := old(store.cache)[Key()].(position := 0)]
                                  else old(store.cache)
    {
      if !viewBound {
        if event == PlayerEnded {
          emitted := emitted + [Stopped];
          if store.sharedRecords && Key() in store.cache {
            store.cache := store.cache[Key() := store.cache[Key()].(position := 0)];
          }
        }
        return true;
      }
      thrown := false;
      match event
      case PlayerIdle =>
        store.cache := MarkEnded(Key(), store.sharedRecords, store.cache, store.pool);
        emitted := emitted + [Stopped];
      case PlayerBuffering =>
        store.cache := MarkEnded(Key(), store.sharedRecords, store.cache, store.pool);
        emitted := emitted + [Buffering];
      case PlayerReady =>
        store.cache := MarkEnded(Key(), store.sharedRecords, store.cache, store.pool);
        emitted := emitted + [Ready];
      case PlayerEnded =>
        emitted := emitted + [Stopped];
        var info := GetPlaybackInfo(store.cache, Key());
        info := info.(position := 0);
        info := info.(ended := IsEnded(store.pool, Key()));
        store.cache := store.cache[Key() := info];
    }

    /** A player error is only reported: nothing is stopped or released. */
    method OnPlayerError()
      modifies this`emitted
      ensures emitted == old(emitted) + [Error]
    {
      emitted := emitted + [Error];
    }
  }
}
