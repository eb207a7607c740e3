/**
  PlayableItemViewHolder: a list row that owns one player view, fixed when the row is
  created. Its commands are those of PlayableFragment; the differences are the key's
  default tag, the view that cannot change, and a progress timer driven by delayed
  messages that are posted only when the timer is enabled.
*/
module ItemViewHolder {
  import opened PlaybackTypes
  import opened PlayableCore

  /** getTag()'s default. */
  const DEFAULT_TAG: string := ""

  /** getKey(): the url followed by the row's tag. */
  function ViewHolderKey(url: string, tag: string): (key: string)
    ensures |key| == |url| + |tag| && key[..|url|] == url && key[|url|..] == tag
  {
    url + tag
  }

  /** With the default tag, a row's key is its url. */
  lemma DefaultKeyIsUrl(url: string)
    ensures ViewHolderKey(url, DEFAULT_TAG) == url
  {
  }

  class PlayableItemViewHolder {
    const store: PlaybackStore
    const url: string
    const tag: string
    const looping: bool
    const canStartPlaying: bool
    const enableTimer: bool

    /** Whether the row's layout holds a player view: isTrulyPlayable(). */
    const hasPlayerView: bool

    /** The states reported through onStateChanged, oldest first. */
    var emitted: seq<PlaybackState>

    /** Whether a progress message is pending on the row's handler. */
    ghost var timerActive: bool

    constructor (store: PlaybackStore, url: string, tag: string, hasPlayerView: bool,
                 looping: bool, canStartPlaying: bool, enableTimer: bool)
      ensures this.store == store && this.url == url && this.tag == tag
      ensures this.hasPlayerView == hasPlayerView
      ensures this.looping == looping && this.canStartPlaying == canStartPlaying
      ensures this.enableTimer == enableTimer
      ensures emitted == [] && !timerActive
    {
      this.store := store;
      this.url := url;
      this.tag := tag;
      this.hasPlayerView := hasPlayerView;
      this.looping := looping;
      this.canStartPlaying := canStartPlaying;
      this.enableTimer := enableTimer;
      emitted := [];
      timerActive := false;
    }

    function Key(): (key: string)
    {
      ViewHolderKey(url, tag)
    }

    function AsItem(): (it: Item)
    {
      Item(Key(), looping, canStartPlaying)
    }

    method Start()
      modifies this`emitted, this`timerActive, store
      ensures !hasPlayerView ==> unchanged(store) && emitted == old(emitted) && timerActive == old(timerActive)
      ensures hasPlayerView ==>
                var s := StartStep(AsItem(), old(store.cache), old(store.pool));
                && store.cache == s.cache && store.pool == s.pool
                && emitted == old(emitted) + s.emitted
      // schedulePlayerTimer() posts a message only when the timer is enabled
      ensures hasPlayerView ==>
                timerActive == if ShouldPlay(AsItem(), GetPlaybackInfo(old(store.cache), Key()))
                               then old(timerActive) || enableTimer else old(timerActive)
    {
      if !hasPlayerView {
        return;
      }
      var shouldPlay := StartPlayer(store, AsItem());
      if shouldPlay {
        timerActive := timerActive || enableTimer;
        var state := PlaybackStateOf(store.pool, Key());
        emitted := emitted + [if state == PlayerReady then Ready else Started];
      }
    }

    method Restart()
      modifies this`emitted, this`timerActive, store
      ensures !hasPlayerView ==> unchanged(store) && emitted == old(emitted) && timerActive == old(timerActive)
      ensures hasPlayerView ==>
                var s := RestartStep(Key(), old(store.cache), old(store.pool));
                && store.cache == s.cache && store.pool == s.pool
                && emitted == old(emitted) + s.emitted
      ensures hasPlayerView ==> timerActive == (old(timerActive) || enableTimer)
    {
      if !hasPlayerView {
        return;
      }
      RestartPlayer(store, Key());
      timerActive := timerActive || enableTimer;
      emitted := emitted + [Restarted];
    }

    method Pause()
      modifies this`emitted, this`timerActive, store
      ensures !hasPlayerView ==> unchanged(store) && emitted == old(emitted) && timerActive == old(timerActive)
      ensures hasPlayerView ==>
                var s := PauseStep(Key(), old(store.cache), old(store.pool));
                && store.cache == s.cache && store.pool == s.pool
                && emitted == old(emitted) + s.emitted
      ensures hasPlayerView ==> timerActive == (old(timerActive) && Key() !in old(store.pool))
    {
      if !hasPlayerView {
        return;
      }
      var hadPlayer := PausePlayer(store, Key());
      if hadPlayer {
        timerActive := false;
      }
      emitted := emitted + [Paused];
    }

    method Stop()
      modifies this`emitted, this`timerActive, store
      ensures !hasPlayerView ==> unchanged(store) && emitted == old(emitted) && timerActive == old(timerActive)
      ensures hasPlayerView ==>
                var s := StopStep(Key(), old(store.cache), old(store.pool));
                && store.cache == s.cache && store.pool == s.pool
                && emitted == old(emitted) + s.emitted
      ensures hasPlayerView ==> timerActive == (old(timerActive) && Key() !in old(store.pool))
    {
      if !hasPlayerView {
        return;
      }
      var hadPlayer := StopPlayer(store, Key());
      if hadPlayer {
        timerActive := false;
      }
      emitted := emitted + [Stopped];
    }

    method Release()
      modifies this`emitted, this`timerActive, store
      ensures !hasPlayerView ==> unchanged(store) && emitted == old(emitted) && timerActive == old(timerActive)
      ensures hasPlayerView ==>
                var s := ReleaseStep(Key(), old(store.cache), old(store.pool));
                && store.cache == s.cache && store.pool == s.pool
                && emitted == old(emitted) + s.emitted
      ensures hasPlayerView ==> !timerActive
    {
      if !hasPlayerView {
        return;
      }
      ReleasePlayer(store, Key());
      timerActive := false;
      emitted := emitted + [Stopped];
    }

    /** seekTo has no view check. */
    method SeekTo(position: int)
      modifies store
      ensures var s := SeekToStep(Key(), position, old(store.cache), old(store.pool));
              store.cache == s.cache && store.pool == s.pool
    {
      PlayableCore.SeekTo(store, Key(), position);
    }

    method SetVolume(volume: int)
      modifies store
      ensures var s := SetVolumeStep(Key(), volume, old(store.cache), old(store.pool));
              store.cache == s.cache && store.pool == s.pool
    {
      PlayableCore.SetVolume(store, Key(), volume);
    }

    method SetMuted(muted: bool)
      modifies store
      ensures var s := SetMutedStep(Key(), muted, old(store.cache), old(store.pool));
              store.cache == s.cache && store.pool == s.pool
    {
      PlayableCore.SetMuted(store, Key(), muted);
    }

    /** isMuted(): the player's setting when the row's key has a player, else the persisted one. */
    method IsMutedNow() returns (muted: bool)
      ensures muted == IsMuted(store.cache, store.pool, Key())
      ensures Key() in store.pool ==> muted == store.pool[Key()].muted
      ensures Key() !in store.pool ==> muted == GetPlaybackInfo(store.cache, Key()).volumeInfo.muted
    {
      var info := GetPlaybackInfo(store.cache, Key());
      var player := GetPlayer(store.pool, Key());
      muted := if player.Some? then player.value.muted else info.volumeInfo.muted;
    }

    /** getVolume(): the player's setting when the key has a player, else the persisted one. */
    method VolumeNow() returns (volume: int)
      ensures volume == GetVolume(store.cache, store.pool, Key())
      ensures Key() in store.pool ==> volume == store.pool[Key()].volume
      ensures Key() !in store.pool ==> volume == GetPlaybackInfo(store.cache, Key()).volumeInfo.volume
    {
      var info := GetPlaybackInfo(store.cache, Key());
      var player := GetPlayer(store.pool, Key());
      volume := if player.Some? then player.value.volume else info.volumeInfo.volume;
    }

    /** The player callback; it has no view check. */
    method OnPlayerStateChanged(event: PlayerState)
      modifies this`emitted, store
      ensures var s := PlayerStateChangedStep(Key(), event, store.sharedRecords, old(store.cache), old(store.pool));
              store.cache == s.cache && store.pool == s.pool && emitted == old(emitted) + s.emitted
    {
      match event
      case PlayerIdle =>
        store.cache := MarkEnded(Key(), store.sharedRecords, store.cache, store.pool);
        emitted := emitted + [Stopped];
      case PlayerBuffering =>
        store.cache := MarkEnded(Key(), store.sharedRecords, store.cache, store.pool);
        emitted := emitted + [Buffering];
      case PlayerReady =>
        store.cache := MarkEnded(Key(), store.sharedRecords, store.cache, store.pool);
        emitted := emitted + [Ready];
      case PlayerEnded =>
        emitted := emitted + [Stopped];
        var info := GetPlaybackInfo(store.cache, Key());
        info := info.(position := 0);
        info := info.(ended := IsEnded(store.pool, Key()));
        store.cache := store.cache[Key() := info];
    }

    /** A player error is only reported: nothing is stopped or released. */
    method OnPlayerError()
      modifies this`emitted
      ensures emitted == old(emitted) + [Error]
    {
      emitted := emitted + [Error];
    }
  }
}
