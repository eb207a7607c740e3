# Playable feed: a Dafny model

This project models the playback core of the Media module of a short-video app. It has
three parts:

- **The vertical pager** (`PlayableViewPager`). On every scroll signal it decides which of its
  pages play.
  - In ONE_AT_A_TIME mode, the first truly playable page that wants to play claims the one
    active slot. It is started only when it is not playing yet, autoplay is on and play is
    allowed. Every other page is paused when it plays.
  - In MULTIPLE_SIMULTANEOUSLY mode, each page is decided on its own.
  - Whether a scroll signal may start playback depends on the scroll state, the configured
    triggering states and whether the pager is scrolling.
- **The per-item playback state machine.** `PlayableFragment` (a feed page) and
  `PlayableItemViewHolder` (a list row) carry the same text for it.
  - The commands are start, restart, pause, stop, release, seek, volume and mute, plus the
    player's event callbacks.
  - They read, change and write back the item's playback record in a cache shared by all
    items. They acquire and drive a pooled player. Both the cache and the pool are keyed
    by url + tag.
- **The progress label** (`TimeUtils.getPlayerTimeStr`). It turns a number of seconds into
  "MM:SS" or "HH:MM:SS".

How the model is laid out:

- `playback_types.dfy` holds the records: the playback record, the player as the items see
  it, the cache (a `map` read with a default) and the pool (a `map` of player values).
- `playable_core.dfy` holds the commands twice:
  - as pure steps from (cache, pool) to the new cache, pool and reported states;
  - as the imperative `*Player` helpers, which update a shared `PlaybackStore` object in
    place.

  Each helper is proved equal to its step. The lemmas that relate several commands are
  stated on the steps.
- `playable_fragment.dfy` and `playable_item_view_holder.dfy` hold the two item classes. Each
  command checks the player view, calls the helper, keeps a ghost timer flag in step and
  appends the reported state to a log.
- `playable_view_pager.dfy` holds the scheduler. A pass is specified as the list of
  decisions it makes, one per truly playable page, in container order. The pager class's
  loops are proved to compute that list, and lemmas state what it does in each mode.
- `time_utils.dfy` holds the label as written and as evidently intended. Both are checked
  against a reader that parses a label back into seconds.

## Model

The contracts below are written with a small vocabulary of accessors. Each one stands for a
method or expression of `Media/src/main/java/com/hongyue/app/media/widget/PlayableFragment.java`,
whose twins in `PlayableItemViewHolder.java` read the same:

- `PlaybackTypes.GetPlaybackInfo`: `getPlaybackInfo()`, lines 349-351.
- `PlaybackTypes.GetPlayer`: `getPlayer()`, lines 309-311.
- `PlaybackTypes.GetOrInitPlayer`: `getOrInitPlayer()`, lines 316-318.
- `PlaybackTypes.PlaybackStateOf`: `getPlaybackState()`, lines 363-366.
- `PlaybackTypes.IsPlaying`: `isPlaying()`, lines 497-500.
- `PlaybackTypes.IsEnded`: `isEnded()`, lines 521-524.
- `PlaybackTypes.GetPlaybackPosition`: `getPlaybackPosition()`, lines 276-279.
- `PlaybackTypes.GetVolume`: `getVolume()`, lines 445-450.
- `PlaybackTypes.IsMuted`: `isMuted()`, lines 486-491.
- `PlayableCore.ShouldPlay`: the `shouldPlay` test, line 151.

| member | source | states |
|---|---|---|
| PlayableCore.StartStep | Media/src/main/java/com/hongyue/app/media/widget/PlayableFragment.java:143-172 | The possibly default record is written back, so the key then has a cache entry. The player is acquired, attached and given the persisted volume and mute whether or not it plays. Only when looping, not ended or allowed to start does it seek to the persisted position, play and report READY or STARTED; otherwise nothing is reported and play state and position are kept. No other key changes. |
| PlayableCore.RestartStep | Media/src/main/java/com/hongyue/app/media/widget/PlayableFragment.java:177-200 | The persisted position becomes 0. The player is prepared and always plays from 0, ended or not. RESTARTED is reported. No other key changes. |
| PlayableCore.PauseStep | Media/src/main/java/com/hongyue/app/media/widget/PlayableFragment.java:205-217 | With a player, the player's position is snapshotted into the record and the player stops playing and loses its listener. Without one, cache and pool are unchanged. PAUSED is reported either way. |
| PlayableCore.StopStep | Media/src/main/java/com/hongyue/app/media/widget/PlayableFragment.java:222-237 | With a player, the persisted position becomes 0. The player is paused, detached and stopped with reset, so it is back at position 0 and reports IDLE. It also loses its delegate and listener. Without a player, nothing changes. STOPPED is reported either way. |
| PlayableCore.ReleaseStep | Media/src/main/java/com/hongyue/app/media/widget/PlayableFragment.java:242-255 | The key has no player and no record afterwards, so a later read gives the default record. Every other key's record and player are unchanged. STOPPED is reported. |
| PlayableCore.SeekToStep | Media/src/main/java/com/hongyue/app/media/widget/PlayableFragment.java:261-270 | The position is set on the player and persisted only when a player exists. Otherwise cache and pool are untouched. |
| PlayableCore.SetVolumeStep | Media/src/main/java/com/hongyue/app/media/widget/PlayableFragment.java:421-434 | The volume is always persisted, leaving mute and the rest of the record as they were. It is forwarded to the player only when one exists. getVolume reads back the volume that was set. |
| PlayableCore.SetMutedStep | Media/src/main/java/com/hongyue/app/media/widget/PlayableFragment.java:463-476 | The mute flag is always persisted, leaving volume and the rest of the record as they were. It is forwarded to the player only when one exists. isMuted reads back the flag that was set. |
| PlayableCore.PlayerStateChangedStep | Media/src/main/java/com/hongyue/app/media/widget/PlayableFragment.java:605-664 | BUFFERING reports BUFFERING and READY reports READY; IDLE and ENDED report STOPPED. IDLE, BUFFERING and READY change at most the ended flag of an existing record, and they set it to whether the player ended only when the cache hands out its stored record object. ENDED always writes the cache: it sets the position to 0, records whether the player ended and keeps the audio settings. The pool and other keys never change. |
| PlayableCore.MarkEnded | Media/src/main/java/com/hongyue/app/media/widget/PlayableFragment.java:630-652 | The cache keeps the same keys, and every other key's record is unchanged. At most the ended flag of the key's own record changes. It becomes whether the player ended only when the cache hands out its stored object and the key has an entry. Otherwise the write goes to a copy or to a fresh default object, and the cache is unchanged. |
| PlayableCore.StartPlayer | Media/src/main/java/com/hongyue/app/media/widget/PlayableFragment.java:143-172 | The in-place update of the shared store leaves exactly the cache and pool of StartStep. It returns whether the player was told to play, which is the shouldPlay rule on the record read before the call. |
| PlayableCore.RestartPlayer | Media/src/main/java/com/hongyue/app/media/widget/PlayableFragment.java:177-200 | The in-place update leaves exactly the cache and pool of RestartStep. |
| PlayableCore.PausePlayer | Media/src/main/java/com/hongyue/app/media/widget/PlayableFragment.java:205-217 | The in-place update leaves exactly the cache and pool of PauseStep. It returns whether a player existed. |
| PlayableCore.StopPlayer | Media/src/main/java/com/hongyue/app/media/widget/PlayableFragment.java:222-237 | The in-place update leaves exactly the cache and pool of StopStep. It returns whether a player existed. |
| PlayableCore.ReleasePlayer | Media/src/main/java/com/hongyue/app/media/widget/PlayableFragment.java:242-255 | Unregistering the player and removing the record leave exactly the cache and pool of ReleaseStep. |
| PlayableCore.SeekTo | Media/src/main/java/com/hongyue/app/media/widget/PlayableFragment.java:261-270 | The in-place update leaves exactly the cache and pool of SeekToStep. |
| PlayableCore.SetVolume | Media/src/main/java/com/hongyue/app/media/widget/PlayableFragment.java:421-434 | The in-place update leaves exactly the cache and pool of SetVolumeStep. |
| PlayableCore.SetMuted | Media/src/main/java/com/hongyue/app/media/widget/PlayableFragment.java:463-476 | The in-place update leaves exactly the cache and pool of SetMutedStep. |
| PlayableCore.StopTwiceLeavesPositionZero | Media/src/main/java/com/hongyue/app/media/widget/PlayableFragment.java:222-237 | A second stop changes nothing further, and the persisted position stays 0. |
| PlayableCore.StopThenPauseSavesZero | Media/src/main/java/com/hongyue/app/media/widget/PlayableFragment.java:222-237 | Because stop resets the player, a pause after a stop saves position 0, not the position from before the stop. |
| PlayableCore.PauseIsIdempotent | Media/src/main/java/com/hongyue/app/media/widget/PlayableFragment.java:205-217 | A second pause leaves cache and pool as the first pause left them. |
| PlayableCore.ReleaseThenStartPlaysFromZero | Media/src/main/java/com/hongyue/app/media/widget/PlayableFragment.java:242-255 | After seek and release, the next start finds the default record and plays a new player from position 0, reporting STARTED. |
| PlayableCore.PauseThenStartResumes | Media/src/main/java/com/hongyue/app/media/widget/PlayableFragment.java:143-217 | After a pause, the next start that plays resumes at the position the player had when paused, and that position is persisted. |
| PlayableCore.EndedBlocksAutoReplay | Media/src/main/java/com/hongyue/app/media/widget/PlayableFragment.java:657-664 | After ENDED, the record is marked ended with position 0. A non-looping item that may not start is then not replayed by start(). A looping one always replays, from 0. |
| PlayableCore.ReadyAfterRestartUnblocksOnlyWithSharedRecords | Media/src/main/java/com/hongyue/app/media/widget/PlayableFragment.java:630-664 | After ENDED and a restart, the player's READY event clears the persisted ended flag only when the cache hands out its stored records. A later start() then plays an item that neither loops nor may start. With copied records, that item stays blocked. |
| Fragment.FragmentKey | Media/src/main/java/com/hongyue/app/media/widget/PlayableFragment.java:382-384 | The key is the url followed by the tag, or by the text "null" when the framework gives no tag. |
| Fragment.DistinctTagsDistinctKeys | Media/src/main/java/com/hongyue/app/media/widget/PlayableFragment.java:382-384 | Two fragments on one url that both have tags, with different tags, have different keys, so they never share a record or a player. |
| Fragment.AbsentTagCollidesWithNullTag | Media/src/main/java/com/hongyue/app/media/widget/PlayableFragment.java:382-384 | A fragment with no tag and one tagged "null" share the key url + "null", and so a record and a player. |
| Fragment.PlayableFragment.constructor | Media/src/main/java/com/hongyue/app/media/widget/PlayableFragment.java:59-61 | A new fragment has no view bound and no player view until onView runs. Nothing is reported yet and no timer runs. |
| Fragment.PlayableFragment.OnView | Media/src/main/java/com/hongyue/app/media/widget/PlayableFragment.java:70-75 | Binding the view makes the pool reachable. Whether a player view was found decides whether the page is truly playable. |
| Fragment.PlayableFragment.Start | Media/src/main/java/com/hongyue/app/media/widget/PlayableFragment.java:78-86 | Without a player view, nothing changes and nothing is reported. Otherwise cache, pool and report are those of StartStep. The timer is restarted when the item plays and then runs exactly when enableTimer() holds. |
| Fragment.PlayableFragment.Restart | Media/src/main/java/com/hongyue/app/media/widget/PlayableFragment.java:92-99 | Without a player view, nothing changes. Otherwise the result is that of RestartStep, and the timer runs afterwards whether or not enableTimer() holds. |
| Fragment.PlayableFragment.Pause | Media/src/main/java/com/hongyue/app/media/widget/PlayableFragment.java:105-112 | Without a player view, nothing changes. Otherwise the result is that of PauseStep, and the timer is cancelled only when a player existed. |
| Fragment.PlayableFragment.Stop | Media/src/main/java/com/hongyue/app/media/widget/PlayableFragment.java:118-125 | Without a player view, nothing changes. Otherwise the result is that of StopStep, and the timer is cancelled only when a player existed. |
| Fragment.PlayableFragment.Release | Media/src/main/java/com/hongyue/app/media/widget/PlayableFragment.java:131-138 | Without a player view, nothing changes. Otherwise the result is that of ReleaseStep, and the timer is gone afterwards. |
| Fragment.PlayableFragment.SeekTo | Media/src/main/java/com/hongyue/app/media/widget/PlayableFragment.java:261-270 | There is no view check. Before onView it throws a NullPointerException in getPlayer() and changes nothing. Otherwise the result is that of SeekToStep. |
| Fragment.PlayableFragment.SetVolume | Media/src/main/java/com/hongyue/app/media/widget/PlayableFragment.java:421-434 | The cache is always as SetVolumeStep leaves it. Before onView the call then throws in getPlayer(), and no player changes. Otherwise the pool is also as SetVolumeStep leaves it. |
| Fragment.PlayableFragment.SetMuted | Media/src/main/java/com/hongyue/app/media/widget/PlayableFragment.java:463-476 | The cache is always as SetMutedStep leaves it. Before onView the call then throws in getPlayer(), and no player changes. Otherwise the pool is also as SetMutedStep leaves it. |
| Fragment.PlayableFragment.VolumeNow | Media/src/main/java/com/hongyue/app/media/widget/PlayableFragment.java:445-450 | Throws a NullPointerException exactly when no view is bound. Otherwise it returns the player's volume when the key has a player, else the persisted one. |
| Fragment.PlayableFragment.IsMutedNow | Media/src/main/java/com/hongyue/app/media/widget/PlayableFragment.java:486-491 | Throws a NullPointerException exactly when no view is bound. Otherwise it returns the player's mute flag when the key has a player, else the persisted one. |
| Fragment.PlayableFragment.OnPlayerStateChanged | Media/src/main/java/com/hongyue/app/media/widget/PlayableFragment.java:605-664 | With a view bound, the reports and cache are those of PlayerStateChangedStep for the store's kind of record sharing. Before onView, isEnded() throws. For IDLE, BUFFERING and READY nothing has changed by then. For ENDED, STOPPED has been reported and the record rewound, and the rewind sticks only through a shared record. The pool never changes. |
| Fragment.PlayableFragment.OnPlayerError | Media/src/main/java/com/hongyue/app/media/widget/PlayableFragment.java:686-692 | A player error only reports ERROR; nothing is stopped or released. |
| ItemViewHolder.ViewHolderKey | Media/src/main/java/com/hongyue/app/media/widget/PlayableItemViewHolder.java:406-408 | The key is the url followed by the row's tag. |
| ItemViewHolder.DefaultKeyIsUrl | Media/src/main/java/com/hongyue/app/media/widget/PlayableItemViewHolder.java:397-399 | With the default tag "", a row's key is its url. |
| ItemViewHolder.PlayableItemViewHolder.constructor | Media/src/main/java/com/hongyue/app/media/widget/PlayableItemViewHolder.java:70-78 | The row's player view is fixed when the row is built. Nothing is reported yet and no timer message is pending. |
| ItemViewHolder.PlayableItemViewHolder.Start | Media/src/main/java/com/hongyue/app/media/widget/PlayableItemViewHolder.java:84-92 | Without a player view, nothing changes. Otherwise the result is that of StartStep. A timer message is posted when the item plays, and only if enableTimer() holds. |
| ItemViewHolder.PlayableItemViewHolder.Restart | Media/src/main/java/com/hongyue/app/media/widget/PlayableItemViewHolder.java:98-105 | Without a player view, nothing changes. Otherwise the result is that of RestartStep, and a timer message is posted only if enableTimer() holds. |
| ItemViewHolder.PlayableItemViewHolder.Pause | Media/src/main/java/com/hongyue/app/media/widget/PlayableItemViewHolder.java:111-118 | Without a player view, nothing changes. Otherwise the result is that of PauseStep, and pending timer messages are dropped only when a player existed. |
| ItemViewHolder.PlayableItemViewHolder.Stop | Media/src/main/java/com/hongyue/app/media/widget/PlayableItemViewHolder.java:124-131 | Without a player view, nothing changes. Otherwise the result is that of StopStep, and pending timer messages are dropped only when a player existed. |
| ItemViewHolder.PlayableItemViewHolder.Release | Media/src/main/java/com/hongyue/app/media/widget/PlayableItemViewHolder.java:137-144 | Without a player view, nothing changes. Otherwise the result is that of ReleaseStep, and no timer message is pending afterwards. |
| ItemViewHolder.PlayableItemViewHolder.SeekTo | Media/src/main/java/com/hongyue/app/media/widget/PlayableItemViewHolder.java:267-276 | The result is that of SeekToStep, without a view check. |
| ItemViewHolder.PlayableItemViewHolder.SetVolume | Media/src/main/java/com/hongyue/app/media/widget/PlayableItemViewHolder.java:445-458 | The result is that of SetVolumeStep on the row's key. |
| ItemViewHolder.PlayableItemViewHolder.SetMuted | Media/src/main/java/com/hongyue/app/media/widget/PlayableItemViewHolder.java:487-500 | The result is that of SetMutedStep on the row's key. |
| ItemViewHolder.PlayableItemViewHolder.VolumeNow | Media/src/main/java/com/hongyue/app/media/widget/PlayableItemViewHolder.java:469-474 | Returns the player's volume when the key has a player, else the persisted one. |
| ItemViewHolder.PlayableItemViewHolder.IsMutedNow | Media/src/main/java/com/hongyue/app/media/widget/PlayableItemViewHolder.java:510-515 | Returns the player's mute flag when the key has a player, else the persisted one. |
| ItemViewHolder.PlayableItemViewHolder.OnPlayerStateChanged | Media/src/main/java/com/hongyue/app/media/widget/PlayableItemViewHolder.java:629-688 | The reports and cache are those of PlayerStateChangedStep for the store's kind of record sharing, without a view check. |
| ItemViewHolder.PlayableItemViewHolder.OnPlayerError | Media/src/main/java/com/hongyue/app/media/widget/PlayableItemViewHolder.java:710-716 | A player error only reports ERROR. |
| ViewPager.TriggeringStateFor | Media/src/main/java/com/hongyue/app/media/widget/PlayableViewPager.java:277-290 | Settling maps to SETTLING and dragging to DRAGGING; every other scroll state maps to IDLING (each as an if-and-only-if). |
| ViewPager.CanPlay | Media/src/main/java/com/hongyue/app/media/widget/PlayableViewPager.java:294-302 | A pass may start pages if and only if the mapped state is a triggering state, and dragging counts only while the pager is not scrolling. |
| ViewPager.DefaultTriggering | Media/src/main/java/com/hongyue/app/media/widget/PlayableViewPager.java:30-33 | With the default states, settling never allows play, idling always does, and dragging does exactly when not scrolling. |
| ViewPager.Playables | Media/src/main/java/com/hongyue/app/media/widget/PlayableViewPager.java:194-202 | The extracted list holds exactly the truly playable pages, each once, in container order. |
| ViewPager.Process | Media/src/main/java/com/hongyue/app/media/widget/PlayableViewPager.java:204-222 | Processing the first n extracted pages gives n decisions. The k-th is the hasActiveItem rule applied at position k. |
| ViewPager.FirstClaimIsFirstWanting | Media/src/main/java/com/hongyue/app/media/widget/PlayableViewPager.java:209-216 | At position k the slot is still free and the page wants to play if and only if the page is the earliest truly playable page that wants to play. |
| ViewPager.FirstWantingIsUnique | Media/src/main/java/com/hongyue/app/media/widget/PlayableViewPager.java:209-216 | There is at most one earliest wanting page. |
| ViewPager.PositionOf | Media/src/main/java/com/hongyue/app/media/widget/PlayableViewPager.java:194-202 | Every truly playable page is in the extracted list. |
| ViewPager.PassCoversPlayables | Media/src/main/java/com/hongyue/app/media/widget/PlayableViewPager.java:195-221 | In either mode a pass makes one decision per truly playable page and none for other pages, in container order. Each page's reported playability is whether it wants to play. |
| ViewPager.OneAtATimeStartsOnlyFirstWanting | Media/src/main/java/com/hongyue/app/media/widget/PlayableViewPager.java:185-223 | In ONE_AT_A_TIME mode a pass starts at most one page. A page it starts is the earliest truly playable page that wants to play, was not playing, and autoplay and play were allowed. |
| ViewPager.OneAtATimeStartsFirstWanting | Media/src/main/java/com/hongyue/app/media/widget/PlayableViewPager.java:209-216 | In ONE_AT_A_TIME mode the earliest wanting page is started exactly when it is not playing and autoplay and play are allowed. It is never paused. |
| ViewPager.OneAtATimeSuppressedClaimStartsNothing | Media/src/main/java/com/hongyue/app/media/widget/PlayableViewPager.java:209-216 | When the earliest wanting page's own start is suppressed, it still holds the slot, so the pass starts no page at all. |
| ViewPager.OneAtATimePausesTheRest | Media/src/main/java/com/hongyue/app/media/widget/PlayableViewPager.java:209-219 | In ONE_AT_A_TIME mode every other truly playable page is never started, is paused if it plays, and is otherwise left alone. |
| ViewPager.MultipleDecidesEachAlone | Media/src/main/java/com/hongyue/app/media/widget/PlayableViewPager.java:188-219 | In MULTIPLE_SIMULTANEOUSLY mode each page is decided on its own. A wanting page is started when it is not playing and autoplay and play are allowed. A page that does not want to play is paused when it plays. |
| ViewPager.PlayableViewPager.constructor | Media/src/main/java/com/hongyue/app/media/widget/PlayableViewPager.java:58-68 | A new pager is ONE_AT_A_TIME with autoplay on, the default triggering states, and not scrolling. |
| ViewPager.PlayableViewPager.CollectPlayables | Media/src/main/java/com/hongyue/app/media/widget/PlayableViewPager.java:194-202 | The extraction loop computes exactly Playables: the truly playable pages in order. These are also the pages that stopItemPlayback, pauseItemPlayback and releaseAllItems command. |
| ViewPager.PlayableViewPager.HandleItemPlayback | Media/src/main/java/com/hongyue/app/media/widget/PlayableViewPager.java:185-223 | The two loops with the hasActiveItem accumulator compute exactly the decisions of Pass for the current mode, autoplay flag and allowPlay. |
| ViewPager.PlayableViewPager.SetAutoplayMode | Media/src/main/java/com/hongyue/app/media/widget/PlayableViewPager.java:132-141 | A missing mode is refused and the mode is kept. Otherwise the mode is stored, and when autoplay is on a pass runs with play allowed. |
| ViewPager.PlayableViewPager.SetPlaybackTriggeringStates | Media/src/main/java/com/hongyue/app/media/widget/PlayableViewPager.java:149-155 | A missing argument is refused and the set is kept. An empty one resets the set to exactly {DRAGGING, IDLING}. Otherwise the set becomes exactly the given states. |
| ViewPager.PlayableViewPager.SetAutoplayEnabled | Media/src/main/java/com/hongyue/app/media/widget/PlayableViewPager.java:164-173 | The flag is stored. Enabling runs a pass with play allowed. Disabling stops every truly playable page unconditionally and starts none. |
| ViewPager.PlayableViewPager.OnPageScrollStateChanged | Media/src/main/java/com/hongyue/app/media/widget/PlayableViewPager.java:322-327 | Runs a pass in which play is allowed exactly when canPlay holds. |
| ViewPager.PlayableViewPager.OnPageScrolled | Media/src/main/java/com/hongyue/app/media/widget/PlayableViewPager.java:305-315 | Records whether the pager is scrolling, then runs a pass whose canPlay sees the new flag. |
| TimeUtils.DecimalString | Media/src/main/java/com/hongyue/app/media/util/misc/TimeUtils.java:12-16 | A count's decimal text is all digits and has no leading zero. It is one character exactly for values below ten. |
| TimeUtils.DecimalStringRoundTrip | Media/src/main/java/com/hongyue/app/media/util/misc/TimeUtils.java:12-16 | Reading the decimal text back gives the count. |
| TimeUtils.Pad | Media/src/main/java/com/hongyue/app/media/util/misc/TimeUtils.java:19-29 | A rendered field has at least two digits, exactly two below 100, and reads back as its value. |
| TimeUtils.Fields | Media/src/main/java/com/hongyue/app/media/util/misc/TimeUtils.java:7-9 | time = hour*3600 + minute*60 + seconds, with minute and seconds below 60. |
| TimeUtils.GetPlayerTimeStr | Media/src/main/java/com/hongyue/app/media/util/misc/TimeUtils.java:6-32 | The label has at least five characters, each a digit or ':'. |
| TimeUtils.ParseTwoFields | Media/src/main/java/com/hongyue/app/media/util/misc/TimeUtils.java:19-29 | "MM:SS" reads back as MM*60 + SS. |
| TimeUtils.ParseThreeFields | Media/src/main/java/com/hongyue/app/media/util/misc/TimeUtils.java:11-29 | "HH:MM:SS" reads back as (HH*60 + MM)*60 + SS. |
| TimeUtils.ShortLabel | Media/src/main/java/com/hongyue/app/media/util/misc/TimeUtils.java:6-32 | Without the hour prefix the label is five characters with ':' at index 2. It reads back as the time modulo one hour, and as the time itself below one hour. |
| TimeUtils.LongLabel | Media/src/main/java/com/hongyue/app/media/util/misc/TimeUtils.java:11-18 | With the hour prefix the label reads back as the time. |
| TimeUtils.HourDropped | Media/src/main/java/com/hongyue/app/media/util/misc/TimeUtils.java:11-18 | 3661 seconds and 61 seconds both render as "01:01": the hour is lost. |
| TimeUtils.GetPlayerTimeStrIntended | Media/src/main/java/com/hongyue/app/media/util/misc/TimeUtils.java:6-32 | The corrected label also has at least five characters, each a digit or ':'. |
| TimeUtils.IntendedRoundTrip | Media/src/main/java/com/hongyue/app/media/util/misc/TimeUtils.java:6-32 | Every corrected label reads back as the time it was made from. |
| TimeUtils.IntendedIsInjective | Media/src/main/java/com/hongyue/app/media/util/misc/TimeUtils.java:6-32 | Different times get different corrected labels. |
| TimeUtils.IntendedAgreesOutsideTheGap | Media/src/main/java/com/hongyue/app/media/util/misc/TimeUtils.java:11-18 | The corrected and as-written labels agree exactly when the hour count is 0 or at least 3600. |

## Left out

- Timers, handlers and messages (`Timer`, `TimerTask`, the handler classes, the countdown callback): these exist for cross-thread scheduling. Each item keeps only a ghost flag saying whether a progress timer or message is pending.
- The media player library, the player provider, media sources and URIs are not part of this model. The player is a record in a map keyed by item key, and "acquire", "prepare", "seek", "play", "pause", "detach" and "stop" are the record updates they stand for.
- The player's own state (idle, buffering, ready, ended) is changed only by the player itself. The one exception is stop with reset, after which it reports idle. The other commands leave it alone, and events read it.
- The visible-area geometry and the float trigger offset behind `wantsToPlay()`: each page's wish to play is an input of a pass, as are `isTrulyPlayable()` and `isPlaying()`.
- Each page's `isPlaying()` is read from the snapshot given to the pass. The source reads it while the pass runs, which differs only if two pages share a key and so a player.
- `onPageScrolled`'s computation of whether the pager is scrolling, from float deltas: the flag is an input of `OnPageScrolled`.
- ViewPager.PlayableViewPager.SetPlaybackTriggeringStates: a missing argument is modelled as refused before anything changes. That assumes `Preconditions.nonNull` throws on null, which is not shown because `Preconditions` is not part of this model. If it only tests, the set is cleared and then reading the argument's length throws, leaving the set empty; the model does not cover that outcome.
- ViewPager.PlayableViewPager.SetAutoplayMode: a missing mode is modelled as refused with the mode kept. That assumes `Preconditions.checkNonNull` throws on null rather than returning it.
- Volumes are integer percentages, not floats in [0.0, 1.0].
- The default audio settings of a new record (volume 100%, unmuted) are assumed: `VolumeInfo` and `PlaybackInfoCache` are not part of this model.
- Whether the cache's get hands out its stored record object or a copy depends on `PlaybackInfoCache`, which is not part of this model. The store's `sharedRecords` flag stands for that choice, and the contracts state both outcomes. Any other aliasing of a record object handed out by `getPlaybackInfo()` is not modelled.
- Pager lifecycle wrappers (`startPlayback`, `onResume`, `onAttachedToWindow`, and so on), `onPageSelected`, the page lookup by index, `Log`, `onLoadingChanged` and `onTracksChanged`: these are one-line delegations or do nothing. A pass takes the pages as a sequence.
- `stopItemPlayback`, `pauseItemPlayback` and `releaseAllItems` issue one command to each page that `CollectPlayables` returns. Carrying out those commands is the item classes' part; no command sequence for the whole pager is modelled.
- The fragment's tag comes from the UI framework. It is a parameter, possibly absent.
- `getDuration`, `getPlaybackPosition` on the item, `getConfig`, `isAttached` and `onPlayabilityStateChanged`'s overridable body are read-only or hooks for subclasses, and are not modelled.
- `onAttach` and `onDetach` are not modelled. They are callbacks from the player library, which is not part of this model, and they attach or detach the player to the item's player view.
- TimeUtils.GetPlayerTimeStr: a negative time is not modelled, because Java's truncating division gives a label with minus signs. Java's 32-bit int is not modelled either; times are unbounded naturals.
- Positions and volumes are unbounded integers, not Java `long`s and floats.

## Findings

| source | as written | input that shows it | evidently intended | confidence | as-written member | corrected member |
|---|---|---|---|---|---|---|
| Media/src/main/java/com/hongyue/app/media/util/misc/TimeUtils.java:11-18 | The hour field is rendered only when the hour count is at least 3600, that is from 150 days on. | 3661 seconds (1 h 1 min 1 s) gives "01:01", the same label as 61 seconds. | Render the hour field whenever the hour count is positive, so every label reads back as its time. | not executed | TimeUtils.HourDropped | TimeUtils.IntendedRoundTrip |
