/**
  The records shared by the playable items: the persisted playback record, the states
  reported upward, and the pooled player as the items see it.
*/
module PlaybackTypes {

  datatype Option<T> = None | Some(value: T)

  /** Audio settings kept with a playback record; `volume` is a percentage standing in for
      the float in [0.0, 1.0] that the player API takes. */
  datatype VolumeInfo = VolumeInfo(volume: int, muted: bool)

  /** The durable soft state of one key: position in milliseconds, whether the media ended,
      and the audio settings. */
  datatype PlaybackInfo = PlaybackInfo(position: int, ended: bool, volumeInfo: VolumeInfo)

  const DEFAULT_VOLUME_INFO: VolumeInfo := VolumeInfo(100, false)

  /** What `new PlaybackInfo()` holds: the record a missing cache entry reads as. */
  const DEFAULT_PLAYBACK_INFO: PlaybackInfo := PlaybackInfo(0, false, DEFAULT_VOLUME_INFO)

  /** The states an item reports through onStateChanged. */
  datatype PlaybackState = Idle | Started | Restarted | Paused | Stopped | Buffering | Ready | Error

  /** The states the pooled player reports about itself. */
  datatype PlayerState = PlayerIdle | PlayerBuffering | PlayerReady | PlayerEnded

  /** A pooled player: attached to the item's view or not, playing or not, its position,
      its own reported state, whether an item is installed as its attachment delegate and
      as its event listener, and its volume controller's settings. */
  datatype Player = Player(
    attached: bool,
    playing: bool,
    position: int,
    state: PlayerState,
    hasDelegate: bool,
    hasListener: bool,
    volume: int,
    muted: bool)

  /** The player the pool creates for a key it does not hold yet. */
  const NEW_PLAYER: Player :=
    Player(false, false, 0, PlayerIdle, false, false, DEFAULT_VOLUME_INFO.volume, DEFAULT_VOLUME_INFO.muted)

  /** The playback-info cache, keyed by item key. */
  type Cache = map<string, PlaybackInfo>

  /** The player pool, keyed by item key: two items with one key share one player. */
  type Pool = map<string, Player>

  /** The cache's get-with-default, as getPlaybackInfo() calls it. */
  function GetPlaybackInfo(cache: Cache, key: string): (info: PlaybackInfo)
  {
    if key in cache then cache[key] else DEFAULT_PLAYBACK_INFO
  }

  /** The pool's getPlayer: the key's player, or none. */
  function GetPlayer(pool: Pool, key: string): (player: Option<Player>)
  {
    if key in pool then Some(pool[key]) else None
  }

  /** The pool's getOrInitPlayer, before the new player is registered. */
  function GetOrInitPlayer(pool: Pool, key: string): (player: Player)
  {
    if key in pool then pool[key] else NEW_PLAYER
  }

  /** getPlaybackState(): the player's state, IDLE without a player. */
  function PlaybackStateOf(pool: Pool, key: string): (state: PlayerState)
  {
    if key in pool then pool[key].state else PlayerIdle
  }

  /** isPlaying(): a player exists and plays. */
  predicate IsPlaying(pool: Pool, key: string): (playing: bool)
  {
    key in pool && pool[key].playing
  }

  /** isEnded(): a player exists and reports ENDED. */
  predicate IsEnded(pool: Pool, key: string): (ended: bool)
  {
    key in pool && pool[key].state == PlayerEnded
  }

  /** getPlaybackPosition(): the player's position, 0 without a player. */
  function GetPlaybackPosition(pool: Pool, key: string): (position: int)
  {
    if key in pool then pool[key].position else 0
  }

  /** isMuted(): the player's setting when there is a player, else the persisted one. */
  predicate IsMuted(cache: Cache, pool: Pool, key: string): (muted: bool)
  {
    if key in pool then pool[key].muted else GetPlaybackInfo(cache, key).volumeInfo.muted
  }

  /** getVolume(): the player's setting when there is a player, else the persisted one. */
  function GetVolume(cache: Cache, pool: Pool, key: string): (volume: int)
  {
    if key in pool then pool[key].volume else GetPlaybackInfo(cache, key).volumeInfo.volume
  }
}
