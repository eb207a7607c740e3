/**
  PlayableViewPager: the vertical pager that decides, on every scroll signal, which of
  its pages play. A pass walks the pages in container order; in ONE_AT_A_TIME mode the
  first page that wants to play claims the single active slot. A pass is modelled as the
  list of commands it issues to the pages, each page seen through what the pass asks of
  it: whether it is truly playable, whether it wants to play, whether it plays.
*/
module ViewPager {
  import opened PlaybackTypes

  datatype AutoplayMode = OneAtATime | MultipleSimultaneously

  /** The scroll states during which a pass may start playback. */
  datatype TriggeringState = Dragging | Settling | Idling

  const DEFAULT_TRIGGERING_STATES: set<TriggeringState> := {Dragging, Idling}

  /** The pager's scroll states. */
  const SCROLL_STATE_IDLE: int := 0
  const SCROLL_STATE_DRAGGING: int := 1
  const SCROLL_STATE_SETTLING: int := 2

  /** A setter's outcome: done, or refused because its argument was null. */
  datatype Result<T> = Ok(value: T) | NullArgument

  // ---------------------------------------------------------------------------------
  // Scroll policy
  // ---------------------------------------------------------------------------------

  /** getPlaybackStateForScrollState: settling and dragging map to themselves, anything
      else counts as idling. */
  function TriggeringStateFor(scrollState: int): (t: TriggeringState)
    ensures t == Settling <==> scrollState == SCROLL_STATE_SETTLING
    ensures t == Dragging <==> scrollState == SCROLL_STATE_DRAGGING
    ensures t == Idling <==> scrollState != SCROLL_STATE_SETTLING && scrollState != SCROLL_STATE_DRAGGING
  {
    match scrollState
    case 2 => Settling
    case 1 => Dragging
    case _ => Idling
  }

  /** canPlay(): the mapped state is a triggering one, and dragging counts only while the
      pager is not scrolling. */
  function CanPlay(triggeringStates: set<TriggeringState>, isScrolling: bool, scrollState: int): (r: bool)
    ensures r <==> && TriggeringStateFor(scrollState) in triggeringStates
                   && (scrollState != SCROLL_STATE_DRAGGING || !isScrolling)
  {
    var state := TriggeringStateFor(scrollState);
    var containsState := state in triggeringStates;
    var isDragging := state == Dragging && !isScrolling;
    var isSettling := state == Settling;
    var isIdling := state == Idling;
    containsState && (isDragging || isSettling || isIdling)
  }

  /** With the default triggering states, settling never starts playback, idling always
      may, and dragging may only while not scrolling. */
  lemma DefaultTriggering(isScrolling: bool)
    ensures !CanPlay(DEFAULT_TRIGGERING_STATES, isScrolling, SCROLL_STATE_SETTLING)
    ensures CanPlay(DEFAULT_TRIGGERING_STATES, isScrolling, SCROLL_STATE_IDLE)
    ensures CanPlay(DEFAULT_TRIGGERING_STATES, isScrolling, SCROLL_STATE_DRAGGING) == !isScrolling
  {
  }

  // ---------------------------------------------------------------------------------
  // Scheduling passes
  // ---------------------------------------------------------------------------------

  /** A page as a pass sees it; a slot with no playable page is not truly playable. */
  datatype Child = Child(trulyPlayable: bool, wantsToPlay: bool, isPlaying: bool)

  /** What a pass does to one page before reporting its playability. */
  datatype Action = StartIt | PauseIt | LeaveIt

  /** A pass's handling of the page at index `child`: the action, then the playability
      reported through onPlayabilityStateChanged. */
  datatype Decision = Decision(child: nat, action: Action, isPlayable: bool)

  /** The mode, the autoplay flag and the pass's allowPlay argument. */
  datatype Policy = Policy(multi: bool, autoplay: bool, allowPlay: bool)

  /** The indices of the truly playable pages, in container order. */
  function Playables(cs: seq<Child>): (ps: seq<nat>)
    ensures forall k :: 0 <= k < |ps| ==> ps[k] < |cs| && cs[ps[k]].trulyPlayable
    ensures forall i :: 0 <= i < |cs| && cs[i].trulyPlayable ==> i in ps
    ensures forall a, b :: 0 <= a < b < |ps| ==> ps[a] < ps[b]
  {
    if cs == [] then []
    else
      var n := |cs| - 1;
      Playables(cs[..n]) + (if cs[n].trulyPlayable then [n] else [])
  }

  predicate InRange(cs: seq<Child>, ps: seq<nat>)
  {
    forall k :: 0 <= k < |ps| ==> ps[k] < |cs|
  }

  /** Whether a page before position k of the extracted list wants to play: the value of
      hasActiveItem when the pass reaches position k. */
  predicate ClaimedBefore(cs: seq<Child>, ps: seq<nat>, k: nat)
    requires InRange(cs, ps) && k <= |ps|
  {
    exists j :: 0 <= j < k && cs[ps[j]].wantsToPlay
  }

  lemma ClaimedBeforeStep(cs: seq<Child>, ps: seq<nat>, k: nat)
    requires InRange(cs, ps) && k < |ps|
    ensures ClaimedBefore(cs, ps, k + 1) == (ClaimedBefore(cs, ps, k) || cs[ps[k]].wantsToPlay)
  {
    if ClaimedBefore(cs, ps, k + 1) && !cs[ps[k]].wantsToPlay {
      var j :| 0 <= j < k + 1 && cs[ps[j]].wantsToPlay;
      assert j < k;
    }
  }

  /** Whether the page at position k takes an active slot. */
  predicate Claims(cs: seq<Child>, ps: seq<nat>, k: nat, pol: Policy)
    requires InRange(cs, ps) && k < |ps|
  {
    cs[ps[k]].wantsToPlay && (pol.multi || !ClaimedBefore(cs, ps, k))
  }

  /** What the pass does with the page at position k of the extracted list. */
  function Decide(cs: seq<Child>, ps: seq<nat>, k: nat, pol: Policy): (d: Decision)
    requires InRange(cs, ps) && k < |ps|
  {
    var c := cs[ps[k]];
    var action :=
      if Claims(cs, ps, k, pol) then
        (if !c.isPlaying && pol.autoplay && pol.allowPlay then StartIt else LeaveIt)
      else if c.isPlaying then PauseIt
      else LeaveIt;
    Decision(ps[k], action, c.wantsToPlay)
  }

  /** The decisions for the first n positions of the extracted list. */
  function Process(cs: seq<Child>, ps: seq<nat>, n: nat, pol: Policy): (ds: seq<Decision>)
    requires InRange(cs, ps) && n <= |ps|
    ensures |ds| == n
    ensures forall k :: 0 <= k < n ==> ds[k] == Decide(cs, ps, k, pol)
  {
    if n == 0 then [] else Process(cs, ps, n - 1, pol) + [Decide(cs, ps, n - 1, pol)]
  }

  /** handleItemPlayback(allowPlay): the decisions of one whole pass. */
  function Pass(cs: seq<Child>, mode: AutoplayMode, autoplay: bool, allowPlay: bool): (ds: seq<Decision>)
  {
    var ps := Playables(cs);
    Process(cs, ps, |ps|, Policy(mode == MultipleSimultaneously, autoplay, allowPlay))
  }

  /** Page i is truly playable, wants to play, and no truly playable page before it does. */
  predicate IsFirstWanting(cs: seq<Child>, i: int)
  {
    && 0 <= i < |cs| && cs[i].trulyPlayable && cs[i].wantsToPlay
    && forall j :: 0 <= j < i && cs[j].trulyPlayable ==> !cs[j].wantsToPlay
  }

  // ---------------------------------------------------------------------------------
  // What a pass does
  // ---------------------------------------------------------------------------------

  /** The hasActiveItem walk picks out the earliest truly playable page that wants to play. */
  lemma FirstClaimIsFirstWanting(cs: seq<Child>, k: nat)
    requires k < |Playables(cs)|
    ensures var ps := Playables(cs);
            IsFirstWanting(cs, ps[k]) <==> cs[ps[k]].wantsToPlay && !ClaimedBefore(cs, ps, k)
  {
  }

  lemma FirstWantingIsUnique(cs: seq<Child>, i: int, j: int)
    requires IsFirstWanting(cs, i) && IsFirstWanting(cs, j)
    ensures i == j
  {
  }

  /** A truly playable page has a position in the extracted list. */
  lemma PositionOf(cs: seq<Child>, i: int) returns (k: nat)
    requires 0 <= i < |cs| && cs[i].trulyPlayable
    ensures k < |Playables(cs)| && Playables(cs)[k] == i
  {
    var ps := Playables(cs);
    assert i in ps;
    k :| 0 <= k < |ps| && ps[k] == i;
  }

  /** In either mode, a pass holds one decision per truly playable page, in container order,
      and reports as each page's playability whether it wants to play. */
  lemma PassCoversPlayables(cs: seq<Child>, mode: AutoplayMode, autoplay: bool, allowPlay: bool)
    ensures var ds := Pass(cs, mode, autoplay, allowPlay);
            && |ds| == |Playables(cs)|
            && (forall k :: 0 <= k < |ds| ==> ds[k].child == Playables(cs)[k])
            && (forall k :: 0 <= k < |ds| ==> ds[k].isPlayable == cs[ds[k].child].wantsToPlay)
    ensures forall i :: 0 <= i < |cs| && cs[i].trulyPlayable ==>
              exists k :: 0 <= k < |Pass(cs, mode, autoplay, allowPlay)| && Pass(cs, mode, autoplay, allowPlay)[k].child == i
    ensures forall a, b :: 0 <= a < b < |Pass(cs, mode, autoplay, allowPlay)| ==>
              Pass(cs, mode, autoplay, allowPlay)[a].child < Pass(cs, mode, autoplay, allowPlay)[b].child
  {
    var ds := Pass(cs, mode, autoplay, allowPlay);
    forall i | 0 <= i < |cs| && cs[i].trulyPlayable
      ensures exists k :: 0 <= k < |ds| && ds[k].child == i
    {
      var k := PositionOf(cs, i);
      assert ds[k].child == i;
    }
  }

  /** ONE_AT_A_TIME: a pass starts only the earliest truly playable page that wants to play,
      and only when it is not playing yet and autoplay and play are allowed; so it starts at
      most one page. */
  lemma OneAtATimeStartsOnlyFirstWanting(cs: seq<Child>, autoplay: bool, allowPlay: bool)
    ensures var ds := Pass(cs, OneAtATime, autoplay, allowPlay);
            forall k :: 0 <= k < |ds| && ds[k].action == StartIt ==>
              IsFirstWanting(cs, ds[k].child) && !cs[ds[k].child].isPlaying && autoplay && allowPlay
    ensures var ds := Pass(cs, OneAtATime, autoplay, allowPlay);
            forall a, b :: 0 <= a < |ds| && 0 <= b < |ds| && ds[a].action == StartIt && ds[b].action == StartIt ==> a == b
  {
    var ps := Playables(cs);
    var ds := Pass(cs, OneAtATime, autoplay, allowPlay);
    forall k | 0 <= k < |ds| && ds[k].action == StartIt
      ensures IsFirstWanting(cs, ds[k].child) && !cs[ds[k].child].isPlaying && autoplay && allowPlay
    {
      FirstClaimIsFirstWanting(cs, k);
    }
    forall a, b | 0 <= a < |ds| && 0 <= b < |ds| && ds[a].action == StartIt && ds[b].action == StartIt
      ensures a == b
    {
      FirstClaimIsFirstWanting(cs, a);
      FirstClaimIsFirstWanting(cs, b);
      FirstWantingIsUnique(cs, ps[a], ps[b]);
    }
  }

  /** ONE_AT_A_TIME: the earliest page that wants to play is started when it is not playing
      yet and autoplay and play are allowed, and is never paused. */
  lemma OneAtATimeStartsFirstWanting(cs: seq<Child>, i: int, autoplay: bool, allowPlay: bool)
      returns (k: nat)
    requires IsFirstWanting(cs, i)
    ensures var ds := Pass(cs, OneAtATime, autoplay, allowPlay);
            && k < |ds| && ds[k].child == i
            && ds[k].action == (if !cs[i].isPlaying && autoplay && allowPlay then StartIt else LeaveIt)
  {
    k := PositionOf(cs, i);
    FirstClaimIsFirstWanting(cs, k);
  }

  /** ONE_AT_A_TIME: the earliest page that wants to play holds the slot even when its own
      start is suppressed, because it plays already, autoplay is off or play is not allowed;
      the pass then starts no page at all. */
  lemma OneAtATimeSuppressedClaimStartsNothing(cs: seq<Child>, i: int, autoplay: bool, allowPlay: bool)
    requires IsFirstWanting(cs, i) && (cs[i].isPlaying || !autoplay || !allowPlay)
    ensures forall k :: 0 <= k < |Pass(cs, OneAtATime, autoplay, allowPlay)| ==>
              Pass(cs, OneAtATime, autoplay, allowPlay)[k].action != StartIt
  {
    var ds := Pass(cs, OneAtATime, autoplay, allowPlay);
    OneAtATimeStartsOnlyFirstWanting(cs, autoplay, allowPlay);
    forall k | 0 <= k < |ds|
      ensures ds[k].action != StartIt
    {
      if ds[k].action == StartIt {
        FirstWantingIsUnique(cs, ds[k].child, i);
      }
    }
  }

  /** ONE_AT_A_TIME: every truly playable page other than the earliest one that wants to
      play is never started, and is paused exactly when it plays. */
  lemma OneAtATimePausesTheRest(cs: seq<Child>, i: int, autoplay: bool, allowPlay: bool)
      returns (k: nat)
    requires 0 <= i < |cs| && cs[i].trulyPlayable && !IsFirstWanting(cs, i)
    ensures var ds := Pass(cs, OneAtATime, autoplay, allowPlay);
            && k < |ds| && ds[k].child == i
            && ds[k].action == (if cs[i].isPlaying then PauseIt else LeaveIt)
  {
    k := PositionOf(cs, i);
    FirstClaimIsFirstWanting(cs, k);
  }

  /** MULTIPLE_SIMULTANEOUSLY: every truly playable page that wants to play is started when
      it is not playing and autoplay and play are allowed; every one that does not want to
      play is paused when it plays. */
  lemma MultipleDecidesEachAlone(cs: seq<Child>, i: int, autoplay: bool, allowPlay: bool)
      returns (k: nat)
    requires 0 <= i < |cs| && cs[i].trulyPlayable
    ensures var ds := Pass(cs, MultipleSimultaneously, autoplay, allowPlay);
            && k < |ds| && ds[k].child == i
            && ds[k].action == (if cs[i].wantsToPlay then
                                  (if !cs[i].isPlaying && autoplay && allowPlay then StartIt else LeaveIt)
                                else if cs[i].isPlaying then PauseIt
                                else LeaveIt)
  {
    k := PositionOf(cs, i);
  }

  // ---------------------------------------------------------------------------------
  // The pager
  // ---------------------------------------------------------------------------------

  class PlayableViewPager {
    var autoplayMode: AutoplayMode
    var autoplayEnabled: bool
    var triggeringStates: set<TriggeringState>

    /** Whether the pager is in scroll motion, as the last onPageScrolled computed it. */
    var isScrolling: bool

    /** init(). */
    constructor ()
      ensures autoplayMode == OneAtATime && autoplayEnabled
      ensures triggeringStates == DEFAULT_TRIGGERING_STATES && !isScrolling
    {
      autoplayMode := OneAtATime;
      autoplayEnabled := true;
      triggeringStates := DEFAULT_TRIGGERING_STATES;
      isScrolling := false;
    }

    /** The truly playable pages, in order: the first half of handleItemPlayback, and the
        pages stopItemPlayback, pauseItemPlayback and releaseAllItems act on. */
    method CollectPlayables(children: seq<Child>) returns (playableItems: seq<nat>)
      ensures playableItems == Playables(children)
    {
      playableItems := [];
      var i := 0;
      while i < |children|
        invariant 0 <= i <= |children|
        invariant playableItems == Playables(children[..i])
      {
        assert children[..i + 1][..i] == children[..i];
        if children[i].trulyPlayable {
          playableItems := playableItems + [i];
        }
        i := i + 1;
      }
      assert children[..|children|] == children;
    }

    /** handleItemPlayback(allowPlay): extracts the truly playable pages, then walks them
        with the hasActiveItem flag. */
    method HandleItemPlayback(children: seq<Child>, allowPlay: bool) returns (decisions: seq<Decision>)
      ensures decisions == Pass(children, autoplayMode, autoplayEnabled, allowPlay)
    {
      var playableItems := CollectPlayables(children);
      var canHaveMultipleActiveItems := autoplayMode == MultipleSimultaneously;
      ghost var pol := Policy(canHaveMultipleActiveItems, autoplayEnabled, allowPlay);
      var hasActiveItem := false;
      decisions := [];
      var k := 0;
      while k < |playableItems|
        invariant 0 <= k <= |playableItems|
        invariant hasActiveItem == ClaimedBefore(children, playableItems, k)
        invariant decisions == Process(children, playableItems, k, pol)
      {
        var p := playableItems[k];
        var isInPlayableArea := children[p].wantsToPlay;
        ClaimedBeforeStep(children, playableItems, k);
        var action := LeaveIt;
        if isInPlayableArea && (!hasActiveItem || canHaveMultipleActiveItems) {
          if !children[p].isPlaying && autoplayEnabled && allowPlay {
            action := StartIt;
          }
          hasActiveItem := true;
        } else if children[p].isPlaying {
          action := PauseIt;
        }
        assert Decision(p, action, isInPlayableArea) == Decide(children, playableItems, k, pol);
        decisions := decisions + [Decision(p, action, isInPlayableArea)];
        k := k + 1;
      }
    }

    method SetAutoplayMode(mode: Option<AutoplayMode>, children: seq<Child>) returns (r: Result<seq<Decision>>)
      modifies this`autoplayMode
      ensures mode.None? ==> r == NullArgument && autoplayMode == old(autoplayMode)
      ensures mode.Some? ==> autoplayMode == mode.value
      ensures mode.Some? ==> r == Ok(if autoplayEnabled then Pass(children, mode.value, true, true) else [])
    {
      if mode.None? {
        return NullArgument;
      }
      autoplayMode := mode.value;
      var decisions: seq<Decision> := [];
      if autoplayEnabled {
        decisions := HandleItemPlayback(children, true);
      }
      return Ok(decisions);
    }

    /** setPlaybackTriggeringStates(states...): the set is cleared and refilled with the
        given states, or with the defaults when none are given. */
    method SetPlaybackTriggeringStates(states: Option<seq<TriggeringState>>) returns (r: Result<set<TriggeringState>>)
      modifies this`triggeringStates
      ensures states.None? ==> r == NullArgument && triggeringStates == old(triggeringStates)
      ensures states.Some? && |states.value| == 0 ==> triggeringStates == DEFAULT_TRIGGERING_STATES
      ensures states.Some? && |states.value| > 0 ==>
                forall t :: t in triggeringStates <==> t in states.value
      ensures states.Some? ==> r == Ok(triggeringStates)
    {
      if states.None? {
        return NullArgument;
      }
      var given := states.value;
      triggeringStates := {};
      if |given| == 0 {
        triggeringStates := DEFAULT_TRIGGERING_STATES;
      } else {
        var i := 0;
        while i < |given|
          invariant 0 <= i <= |given|
          invariant forall t :: t in triggeringStates <==> t in given[..i]
        {
          assert given[..i + 1] == given[..i] + [given[i]];
          triggeringStates := triggeringStates + {given[i]};
          i := i + 1;
        }
        assert given[..|given|] == given;
      }
      return Ok(triggeringStates);
    }

    /** setAutoplayEnabled(enabled): enabling runs a pass that may start pages; disabling
        stops every truly playable page. */
    method SetAutoplayEnabled(enabled: bool, children: seq<Child>) returns (decisions: seq<Decision>, stopped: seq<nat>)
      modifies this`autoplayEnabled
      ensures autoplayEnabled == enabled
      ensures enabled ==> decisions == Pass(children, autoplayMode, true, true) && stopped == []
      ensures !enabled ==> decisions == [] && stopped == Playables(children)
    {
      autoplayEnabled := enabled;
      decisions, stopped := [], [];
      if enabled {
        decisions := HandleItemPlayback(children, true);
      } else {
        stopped := CollectPlayables(children);
      }
    }

    /** onPageScrollStateChanged: a pass that may start pages only when canPlay() holds. */
    method OnPageScrollStateChanged(children: seq<Child>, scrollState: int) returns (decisions: seq<Decision>)
      ensures decisions == Pass(children, autoplayMode, autoplayEnabled, CanPlay(triggeringStates, isScrolling, scrollState))
    {
      decisions := HandleItemPlayback(children, CanPlay(triggeringStates, isScrolling, scrollState));
    }

    /** onPageScrolled: records whether the pager is in scroll motion, then runs a pass. */
    method OnPageScrolled(children: seq<Child>, scrollState: int, scrolling: bool) returns (decisions: seq<Decision>)
      modifies this`isScrolling
      ensures isScrolling == scrolling
      ensures decisions == Pass(children, autoplayMode, autoplayEnabled, CanPlay(triggeringStates, scrolling, scrollState))
    {
      isScrolling := scrolling;
      decisions := HandleItemPlayback(children, CanPlay(triggeringStates, isScrolling, scrollState));
    }
  }
}
