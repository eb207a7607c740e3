/**
  The per-item playback state machine that PlayableFragment and PlayableItemViewHolder
  both implement (their command code is the same text in the two classes).

  Each command is given twice: as a pure step from the shared cache and pool to the new
  cache, pool and reported states, and, for the *Player helpers, as the imperative
  read-modify-write on the shared PlaybackStore that the two classes call.
*/
module PlayableCore {
  import opened PlaybackTypes

  /** What a command needs from its item: the key (url + tag) and the overridable hooks
      isLooping() and canStartPlaying(). */
  datatype Item = Item(key: string, looping: bool, canStartPlaying: bool)

  /** The cache and pool after a command, with the states it reported upward, in order. */
  datatype Step = Step(cache: Cache, pool: Pool, emitted: seq<PlaybackState>)

  /** Whether start() plays this time: looping media always does, media that has not
      ended does, and ended media only when the item allows it. */
  predicate ShouldPlay(it: Item, info: PlaybackInfo)
  {
    it.looping || !info.ended || it.canStartPlaying
  }

  /** The player once startPlayer/restartPlayer has prepared it: attached to the view,
      the persisted audio settings applied, the item installed as delegate and listener. */
  function SetUp(p: Player, v: VolumeInfo): (r: Player)
  {
    p.(attached := true, volume := v.volume, muted := v.muted, hasDelegate := true, hasListener := true)
  }

  // ---------------------------------------------------------------------------------
  // Commands as steps
  // ---------------------------------------------------------------------------------

  /** start() past its view check. */
  function StartStep(it: Item, cache: Cache, pool: Pool): (r: Step)
    // the (possibly default) record is written back: afterwards the key has an entry
    ensures it.key in r.cache && r.cache[it.key] == GetPlaybackInfo(cache, it.key)
    ensures r.cache - {it.key} == cache - {it.key} && r.pool - {it.key} == pool - {it.key}
    // the player is acquired and prepared whether or not it plays
    ensures it.key in r.pool && r.pool[it.key] == SetUp(r.pool[it.key], GetPlaybackInfo(cache, it.key).volumeInfo)
    ensures r.pool[it.key].state == PlaybackStateOf(pool, it.key)
    ensures ShouldPlay(it, GetPlaybackInfo(cache, it.key)) ==>
              && r.pool[it.key].playing
              && r.pool[it.key].position == GetPlaybackInfo(cache, it.key).position
              && r.emitted == [if PlaybackStateOf(pool, it.key) == PlayerReady then Ready else Started]
    ensures !ShouldPlay(it, GetPlaybackInfo(cache, it.key)) ==>
              && r.emitted == []
              && r.pool[it.key].playing == IsPlaying(pool, it.key)
              && r.pool[it.key].position == GetPlaybackPosition(pool, it.key)
  {
    var info := GetPlaybackInfo(cache, it.key);
    var prepared := SetUp(GetOrInitPlayer(pool, it.key), info.volumeInfo);
    if ShouldPlay(it, info) then
      var player := prepared.(position := info.position, playing := true);
      Step(cache[it.key := info], pool[it.key := player],
           [if player.state == PlayerReady then Ready else Started])
    else
      Step(cache[it.key := info], pool[it.key := prepared], [])
  }

  /** restart() past its view check. */
  function RestartStep(key: string, cache: Cache, pool: Pool): (r: Step)
    ensures key in r.cache && r.cache[key] == GetPlaybackInfo(cache, key).(position := 0)
    ensures r.cache - {key} == cache - {key} && r.pool - {key} == pool - {key}
    ensures key in r.pool && r.pool[key] == SetUp(r.pool[key], GetPlaybackInfo(cache, key).volumeInfo)
    // always plays, from the start, ended or not
    ensures r.pool[key].playing && r.pool[key].position == 0
    ensures r.pool[key].state == PlaybackStateOf(pool, key)
    ensures r.emitted == [Restarted]
  {
    var info := GetPlaybackInfo(cache, key).(position := 0);
    var player := SetUp(GetOrInitPlayer(pool, key), info.volumeInfo).(position := 0, playing := true);
    Step(cache[key := info], pool[key := player], [Restarted])
  }

  /** pause() past its view check. */
  function PauseStep(key: string, cache: Cache, pool: Pool): (r: Step)
    ensures r.emitted == [Paused]
    ensures key !in pool ==> r.cache == cache && r.pool == pool
    // the player's position is snapshotted into the persisted record
    ensures key in pool ==>
              && key in r.cache && r.cache[key] == GetPlaybackInfo(cache, key).(position := pool[key].position)
              && r.pool == pool[key := pool[key].(playing := false, hasListener := false)]
    ensures r.cache - {key} == cache - {key}
  {
    match GetPlayer(pool, key)
    case None => Step(cache, pool, [Paused])
    case Some(player) =>
      var info := GetPlaybackInfo(cache, key).(position := player.position);
      Step(cache[key := info], pool[key := player.(playing := false, hasListener := false)], [Paused])
  }

  /** stop() past its view check. */
  function StopStep(key: string, cache: Cache, pool: Pool): (r: Step)
    ensures r.emitted == [Stopped]
    ensures key !in pool ==> r.cache == cache && r.pool == pool
    // the persisted position goes back to 0; the player is detached, stopped with reset
    // (back at position 0, reporting IDLE) and loses its delegate and listener
    ensures key in pool ==>
              && key in r.cache && r.cache[key] == GetPlaybackInfo(cache, key).(position := 0)
              && r.pool == pool[key := pool[key].(playing := false, attached := false, position := 0,
                                                  state := PlayerIdle, hasDelegate := false, hasListener := false)]
    ensures r.cache - {key} == cache - {key}
  {
    match GetPlayer(pool, key)
    case None => Step(cache, pool, [Stopped])
    case Some(player) =>
      var info := GetPlaybackInfo(cache, key).(position := 0);
      var stopped := player.(playing := false, attached := false, position := 0, state := PlayerIdle,
                             hasDelegate := false, hasListener := false);
      Step(cache[key := info], pool[key := stopped], [Stopped])
  }

  /** release() past its view check. */
  function ReleaseStep(key: string, cache: Cache, pool: Pool): (r: Step)
    // the key's record is forgotten: a later read gives the default record
    ensures key !in r.cache && GetPlaybackInfo(r.cache, key) == DEFAULT_PLAYBACK_INFO
    ensures GetPlayer(r.pool, key) == None
    ensures forall k :: k != key ==> GetPlaybackInfo(r.cache, k) == GetPlaybackInfo(cache, k)
    ensures forall k :: k != key ==> GetPlayer(r.pool, k) == GetPlayer(pool, k)
    ensures r.emitted == [Stopped]
  {
    Step(cache - {key}, pool - {key}, [Stopped])
  }

  /** seekTo(position): persisted only when there is a player. */
  function SeekToStep(key: string, position: int, cache: Cache, pool: Pool): (r: Step)
    ensures r.emitted == []
    ensures key !in pool ==> r.cache == cache && r.pool == pool
    ensures key in pool ==>
              && key in r.cache && r.cache[key] == GetPlaybackInfo(cache, key).(position := position)
              && GetPlaybackPosition(r.pool, key) == position
              && r.pool == pool[key := pool[key].(position := position)]
    ensures r.cache - {key} == cache - {key}
  {
    match GetPlayer(pool, key)
    case None => Step(cache, pool, [])
    case Some(player) =>
      Step(cache[key := GetPlaybackInfo(cache, key).(position := position)],
           pool[key := player.(position := position)], [])
  }

  /** setVolume(volume): always persisted, forwarded to a player that exists. */
  function SetVolumeStep(key: string, volume: int, cache: Cache, pool: Pool): (r: Step)
    ensures r.emitted == []
    ensures key in r.cache && r.cache[key].volumeInfo.volume == volume
    ensures r.cache[key] == GetPlaybackInfo(cache, key).(volumeInfo := r.cache[key].volumeInfo)
    ensures r.cache[key].volumeInfo.muted == GetPlaybackInfo(cache, key).volumeInfo.muted
    ensures key !in pool ==> r.pool == pool
    ensures key in pool ==> r.pool == pool[key := pool[key].(volume := volume)]
    ensures r.cache - {key} == cache - {key}
    // getVolume() reads back what was set, with or without a player
    ensures GetVolume(r.cache, r.pool, key) == volume
  {
    var info := GetPlaybackInfo(cache, key);
    var updated := info.(volumeInfo := info.volumeInfo.(volume := volume));
    match GetPlayer(pool, key)
    case None => Step(cache[key := updated], pool, [])
    case Some(player) => Step(cache[key := updated], pool[key := player.(volume := volume)], [])
  }

  /** setMuted(muted): always persisted, forwarded to a player that exists. */
  function SetMutedStep(key: string, muted: bool, cache: Cache, pool: Pool): (r: Step)
    ensures r.emitted == []
    ensures key in r.cache && r.cache[key].volumeInfo.muted == muted
    ensures r.cache[key] == GetPlaybackInfo(cache, key).(volumeInfo := r.cache[key].volumeInfo)
    ensures r.cache[key].volumeInfo.volume == GetPlaybackInfo(cache, key).volumeInfo.volume
    ensures key !in pool ==> r.pool == pool
    ensures key in pool ==> r.pool == pool[key := pool[key].(muted := muted)]
    ensures r.cache - {key} == cache - {key}
    // isMuted() reads back what was set, with or without a player
    ensures IsMuted(r.cache, r.pool, key) == muted
  {
    var info := GetPlaybackInfo(cache, key);
    var updated := info.(volumeInfo := info.volumeInfo.(muted := muted));
    match GetPlayer(pool, key)
    case None => Step(cache[key := updated], pool, [])
    case Some(player) => Step(cache[key := updated], pool[key := player.(muted := muted)], [])
  }

  /** The ended flag that onPlaybackIdle, onPlaybackBuffering and onPlaybackReady set on the
      record object the cache hands out, without putting it back. The write sticks only when
      the cache hands out its stored object (`sharedRecords`) and the key has an entry; a
      missing key reads as a fresh default object, which is then dropped. */
  function MarkEnded(key: string, sharedRecords: bool, cache: Cache, pool: Pool): (r: Cache)
    ensures r.Keys == cache.Keys
    ensures forall k :: k in cache && k != key ==> r[k] == cache[k]
    // only the ended flag of the key's record can change
    ensures key in cache ==> r[key] == cache[key].(ended := r[key].ended)
    ensures sharedRecords && key in cache ==> r[key].ended == IsEnded(pool, key)
    // a copy or a fresh default object takes the write with it
    ensures !(sharedRecords && key in cache) ==> r == cache
  {
    if sharedRecords && key in cache then cache[key := cache[key].(ended := IsEnded(pool, key))] else cache
  }

  /** onPlayerStateChanged(event). ENDED always writes the cache; the other events write
      it only through a shared record object. */
  function PlayerStateChangedStep(key: string, event: PlayerState, sharedRecords: bool,
                                  cache: Cache, pool: Pool): (r: Step)
    ensures r.pool == pool
    ensures r.emitted == [if event == PlayerBuffering then Buffering
                          else if event == PlayerReady then Ready
                          else Stopped]
    ensures r.cache - {key} == cache - {key}
    // IDLE, BUFFERING and READY change at most the ended flag of an existing record
    ensures event != PlayerEnded ==>
              && (key in r.cache <==> key in cache)
              && (key in cache ==> r.cache[key] == cache[key].(ended := r.cache[key].ended))
              && (sharedRecords && key in cache ==> r.cache[key].ended == IsEnded(pool, key))
              && (!sharedRecords ==> r.cache == cache)
    // ENDED rewinds the persisted position and records whether the player ended
    ensures event == PlayerEnded ==>
              && key in r.cache
              && r.cache[key].position == 0
              && r.cache[key].ended == IsEnded(pool, key)
              && r.cache[key].volumeInfo == GetPlaybackInfo(cache, key).volumeInfo
  {
    match event
    case PlayerIdle => Step(MarkEnded(key, sharedRecords, cache, pool), pool, [Stopped])
    case PlayerBuffering => Step(MarkEnded(key, sharedRecords, cache, pool), pool, [Buffering])
    case PlayerReady => Step(MarkEnded(key, sharedRecords, cache, pool), pool, [Ready])
    case PlayerEnded =>
      var info := GetPlaybackInfo(cache, key).(position := 0, ended := IsEnded(pool, key));
      Step(cache[key := info], pool, [Stopped])
  }

  // ---------------------------------------------------------------------------------
  // The shared cache and pool, and the *Player helpers that update them in place
  // ---------------------------------------------------------------------------------

  /** The playback-info cache and the player pool that every item shares. `sharedRecords`
      says whether the cache's get hands out its stored record object (so that changing the
      object changes the entry) rather than a copy. */
  class PlaybackStore {
    var cache: Cache
    var pool: Pool
    const sharedRecords: bool

    constructor (sharedRecords: bool)
      ensures cache == map[] && pool == map[] && this.sharedRecords == sharedRecords
    {
      cache := map[];
      pool := map[];
      this.sharedRecords := sharedRecords;
    }
  }

  /** startPlayer(): returns whether the player was told to play. */
  method StartPlayer(store: PlaybackStore, it: Item) returns (shouldPlay: bool)
    modifies store
    ensures shouldPlay == ShouldPlay(it, GetPlaybackInfo(old(store.cache), it.key))
    ensures store.cache == StartStep(it, old(store.cache), old(store.pool)).cache
    ensures store.pool == StartStep(it, old(store.cache), old(store.pool)).pool
  {
    var info := GetPlaybackInfo(store.cache, it.key);
    var volumeInfo := info.volumeInfo;
    store.cache := store.cache[it.key := info];
    shouldPlay := ShouldPlay(it, info);
    var player := GetOrInitPlayer(store.pool, it.key);
    player := player.(attached := true);
    player := player.(volume := volumeInfo.volume);
    player := player.(muted := volumeInfo.muted);
    player := player.(hasDelegate := true);
    player := player.(hasListener := true);
    if shouldPlay {
      player := player.(position := info.position);  // seek
      player := player.(playing := true);            // prepare(false), play
    }
    store.pool := store.pool[it.key := player];
  }

  /** restartPlayer(). */
  method RestartPlayer(store: PlaybackStore, key: string)
    modifies store
    ensures store.cache == RestartStep(key, old(store.cache), old(store.pool)).cache
    ensures store.pool == RestartStep(key, old(store.cache), old(store.pool)).pool
  {
    var info := GetPlaybackInfo(store.cache, key);
    info := info.(position := 0);
    var volumeInfo := info.volumeInfo;
    store.cache := store.cache[key := info];
    var player := GetOrInitPlayer(store.pool, key);
    player := player.(attached := true);
    player := player.(volume := volumeInfo.volume);
    player := player.(muted := volumeInfo.muted);
    player := player.(hasDelegate := true);
    player := player.(hasListener := false);  // removeEventListener
    player := player.(hasListener := true);   // addEventListener
    player := player.(position := info.position);
    player := player.(playing := true);
    store.pool := store.pool[key := player];
  }

  /** pausePlayer(): returns whether there was a player to pause. */
  method PausePlayer(store: PlaybackStore, key: string) returns (hadPlayer: bool)
    modifies store
    ensures hadPlayer == (key in old(store.pool))
    ensures store.cache == PauseStep(key, old(store.cache), old(store.pool)).cache
    ensures store.pool == PauseStep(key, old(store.cache), old(store.pool)).pool
  {
    var player := GetPlayer(store.pool, key);
    var info := GetPlaybackInfo(store.cache, key);
    hadPlayer := player.Some?;
    if player.Some? {
      var p := player.value;
      p := p.(playing := false);
      p := p.(hasListener := false);
      store.pool := store.pool[key := p];
      info := info.(position := p.position);
      store.cache := store.cache[key := info];
    }
  }

  /** stopPlayer(): returns whether there was a player to stop. */
  method StopPlayer(store: PlaybackStore, key: string) returns (hadPlayer: bool)
    modifies store
    ensures hadPlayer == (key in old(store.pool))
    ensures store.cache == StopStep(key, old(store.cache), old(store.pool)).cache
    ensures store.pool == StopStep(key, old(store.cache), old(store.pool)).pool
  {
    var info := GetPlaybackInfo(store.cache, key);
    var player := GetPlayer(store.pool, key);
    hadPlayer := player.Some?;
    if player.Some? {
      var p := player.value;
      p := p.(playing := false);      // pause
      p := p.(attached := false);     // detach
      p := p.(playing := false);      // stop(true): a stop with reset
      p := p.(position := 0);
      p := p.(state := PlayerIdle);
      p := p.(hasDelegate := false);
      p := p.(hasListener := false);
      store.pool := store.pool[key := p];
      info := info.(position := 0);
      store.cache := store.cache[key := info];
    }
  }

  /** releasePlayer(): the player is unregistered and the record removed; the released
      player's own teardown happens outside the pool. */
  method ReleasePlayer(store: PlaybackStore, key: string)
    modifies store
    ensures store.cache == ReleaseStep(key, old(store.cache), old(store.pool)).cache
    ensures store.pool == ReleaseStep(key, old(store.cache), old(store.pool)).pool
  {
    store.pool := store.pool - {key};    // unregisterPlayer
    store.cache := store.cache - {key};  // removePlaybackInfo
  }

  /** seekTo(position) on the shared store. */
  method SeekTo(store: PlaybackStore, key: string, position: int)
    modifies store
    ensures store.cache == SeekToStep(key, position, old(store.cache), old(store.pool)).cache
    ensures store.pool == SeekToStep(key, position, old(store.cache), old(store.pool)).pool
  {
    var info := GetPlaybackInfo(store.cache, key);
    var player := GetPlayer(store.pool, key);
    if player.Some? {
      store.pool := store.pool[key := player.value.(position := position)];
      info := info.(position := position);
      store.cache := store.cache[key := info];
    }
  }

  /** setVolume(volume) on the shared store. */
  method SetVolume(store: PlaybackStore, key: string, volume: int)
    modifies store
    ensures store.cache == SetVolumeStep(key, volume, old(store.cache), old(store.pool)).cache
    ensures store.pool == SetVolumeStep(key, volume, old(store.cache), old(store.pool)).pool
  {
    var info := GetPlaybackInfo(store.cache, key);
    info := info.(volumeInfo := info.volumeInfo.(volume := volume));
    store.cache := store.cache[key := info];
    var player := GetPlayer(store.pool, key);
    if player.Some? {
      store.pool := store.pool[key := player.value.(volume := volume)];
    }
  }

  /** setMuted(muted) on the shared store. */
  method SetMuted(store: PlaybackStore, key: string, muted: bool)
    modifies store
    ensures store.cache == SetMutedStep(key, muted, old(store.cache), old(store.pool)).cache
    ensures store.pool == SetMutedStep(key, muted, old(store.cache), old(store.pool)).pool
  {
    var info := GetPlaybackInfo(store.cache, key);
    info := info.(volumeInfo := info.volumeInfo.(muted := muted));
    store.cache := store.cache[key := info];
    var player := GetPlayer(store.pool, key);
    if player.Some? {
      store.pool := store.pool[key := player.value.(muted := muted)];
    }
  }

  // ---------------------------------------------------------------------------------
  // Properties relating several commands
  // ---------------------------------------------------------------------------------

  /** A second stop changes nothing more, and the persisted position stays 0. */
  lemma StopTwiceLeavesPositionZero(key: string, cache: Cache, pool: Pool)
    requires key in pool
    ensures var once := StopStep(key, cache, pool);
            var twice := StopStep(key, once.cache, once.pool);
            && GetPlaybackInfo(twice.cache, key).position == 0
            && twice.cache == once.cache && twice.pool == once.pool
  {
  }

  /** A second pause writes nothing new: the cache and pool stay as the first left them. */
  lemma PauseIsIdempotent(key: string, cache: Cache, pool: Pool)
    ensures var once := PauseStep(key, cache, pool);
            var twice := PauseStep(key, once.cache, once.pool);
            twice.cache == once.cache && twice.pool == once.pool
  {
  }

  /** Release is destructive: whatever position was sought before it, the next start
      plays a new player from position 0. */
  lemma ReleaseThenStartPlaysFromZero(it: Item, position: int, cache: Cache, pool: Pool)
    ensures var sought := SeekToStep(it.key, position, cache, pool);
            var released := ReleaseStep(it.key, sought.cache, sought.pool);
            var started := StartStep(it, released.cache, released.pool);
            && started.cache[it.key] == DEFAULT_PLAYBACK_INFO
            && started.pool[it.key].playing
            && started.pool[it.key].position == 0
            && started.emitted == [Started]
  {
  }

  /** Pause is not destructive: the next start resumes where the player was paused. */
  lemma PauseThenStartResumes(it: Item, cache: Cache, pool: Pool)
    requires it.key in pool
    requires ShouldPlay(it, GetPlaybackInfo(cache, it.key))
    ensures var paused := PauseStep(it.key, cache, pool);
            var started := StartStep(it, paused.cache, paused.pool);
            && started.pool[it.key].playing
            && started.pool[it.key].position == pool[it.key].position
            && GetPlaybackInfo(started.cache, it.key).position == pool[it.key].position
  {
  }

  /** After the ENDED event, a non-looping item that does not allow starting is not
      replayed by start(), while a looping one always is, from 0. */
  lemma EndedBlocksAutoReplay(it: Item, sharedRecords: bool, cache: Cache, pool: Pool)
    requires it.key in pool && pool[it.key].state == PlayerEnded
    ensures var ended := PlayerStateChangedStep(it.key, PlayerEnded, sharedRecords, cache, pool);
            && ended.cache[it.key].ended && ended.cache[it.key].position == 0
            && ended.emitted == [Stopped]
    ensures var ended := PlayerStateChangedStep(it.key, PlayerEnded, sharedRecords, cache, pool);
            var started := StartStep(it, ended.cache, ended.pool);
            !it.looping && !it.canStartPlaying ==>
              && started.emitted == []
              && started.pool[it.key].playing == pool[it.key].playing
    ensures var ended := PlayerStateChangedStep(it.key, PlayerEnded, sharedRecords, cache, pool);
            var started := StartStep(it, ended.cache, ended.pool);
            it.looping ==>
              && started.emitted == [Started]
              && started.pool[it.key].playing
              && started.pool[it.key].position == 0
  {
  }

  /** stop(true) resets the player, so a pause that follows a stop saves position 0 again
      rather than where the player was before the stop. */
  lemma StopThenPauseSavesZero(key: string, cache: Cache, pool: Pool)
    requires key in pool
    ensures var stopped := StopStep(key, cache, pool);
            var paused := PauseStep(key, stopped.cache, stopped.pool);
            && GetPlaybackInfo(paused.cache, key).position == 0
            && GetPlaybackPosition(paused.pool, key) == 0
  {
  }

  /** After ENDED and a restart, the player reporting READY clears the persisted ended flag
      only through a shared record object: then a later start() plays an item that neither
      loops nor may start; with copied records the item stays blocked. */
  lemma ReadyAfterRestartUnblocksOnlyWithSharedRecords(it: Item, sharedRecords: bool, cache: Cache, pool: Pool)
    requires it.key in pool && pool[it.key].state == PlayerEnded
    requires !it.looping && !it.canStartPlaying
    ensures var ended := PlayerStateChangedStep(it.key, PlayerEnded, sharedRecords, cache, pool);
            var restarted := RestartStep(it.key, ended.cache, ended.pool);
            var reported := restarted.pool[it.key := restarted.pool[it.key].(state := PlayerReady)];
            var ready := PlayerStateChangedStep(it.key, PlayerReady, sharedRecords, restarted.cache, reported);
            var started := StartStep(it, ready.cache, ready.pool);
            && (sharedRecords ==> started.emitted == [Ready])
            && (!sharedRecords ==> started.emitted == [])
  {
  }
}
