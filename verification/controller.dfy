/**
 * The playback controller `PlayerContent` of components/PlayerContent.tsx.
 *
 * One instance lives per resolved song URL. Its React state (`volume`,
 * `isPlaying`, `timer`, `currentPlayingSongId`) becomes fields of a class,
 * and every handler and engine callback becomes a method. The `use-sound`
 * hook and the howler engine behind it are foreign code. They appear here
 * only as the log of calls the controller makes on them (`calls`) and as
 * methods standing for the callbacks they deliver: load, play, pause and
 * end. The repeating 1-second interval is the flag `intervalActive` together
 * with the method `Tick` for one firing of it.
 */
module Controller {
  import opened Wrappers
  import Queue
  import TimeFormat

  /** A call the controller makes on the sound engine. */
  datatype EngineCall =
    | Play
    | Pause
    | Seek(position: nat, soundId: Option<int>)
    | Unload

  /** The rule of `toggleMute`: a zero (falsy) volume becomes 1, any other volume becomes 0. */
  function MuteToggled(volume: real): (r: real)
    ensures r == 0.0 <==> volume != 0.0
    ensures r == 0.0 || r == 1.0
  {
    if volume == 0.0 then 1.0 else 0.0
  }

  /** Unmuting never restores the level before muting: two toggles from any audible volume give exactly 1. */
  lemma UnmuteRestoresFull(volume: real)
    requires volume != 0.0
    ensures MuteToggled(MuteToggled(volume)) == 1.0
  {
  }

  /** Two toggles from silence give silence again. */
  lemma ToggleTwiceFromSilence()
    ensures MuteToggled(MuteToggled(0.0)) == 0.0
  {
  }

  /** The engine call `handlePlay` makes: play exactly when nothing is playing, pause otherwise. */
  function PlayPauseCall(isPlaying: bool): (c: EngineCall)
    ensures c == Play <==> !isPlaying
    ensures c == Pause <==> isPlaying
  {
    if !isPlaying then Play else Pause
  }

  /**
   * The store behind `usePlayer()`: the queue of song ids and the active id.
   * Only `setId`, the one operation the controller uses, is modelled.
   */
  class PlayerStore {
    var ids: seq<string>
    var activeId: Option<string>

    constructor (ids: seq<string>, activeId: Option<string>)
      ensures this.ids == ids && this.activeId == activeId
    {
      this.ids := ids;
      this.activeId := activeId;
    }

    /** `player.setId(id)`: selects id, whether or not it is in the queue. */
    method SetId(id: string)
      modifies this`activeId
      ensures activeId == Some(id)
    {
      activeId := Some(id);
    }
  }

  class PlayerContent {
    /** The store shared with `Player` and the rest of the page. */
    const player: PlayerStore
    /** The URL this instance was created for; `Player` keys the instance on it. */
    const songUrl: string

    var volume: real
    var isPlaying: bool
    /** Whole seconds shown as elapsed (`timer`, read through `VALUE_TIMER`). */
    var timer: nat
    /** The sound id the engine reported in its last `onplay`. */
    var currentPlayingSongId: Option<int>
    /** Whether `useSound` has produced its `sound` object yet. */
    var soundLoaded: bool
    /** The track length in whole seconds (`MAX_VALUE_TIMER`), 0 until the sound is loaded. */
    var duration: nat
    /** Whether the 1-second interval of the timer effect is scheduled. */
    var intervalActive: bool
    /** Whether the component is still mounted. */
    var mounted: bool
    /** Every call made on the sound engine so far, oldest first. */
    var calls: seq<EngineCall>

    /**
     * The volume stays within the slider's range, and the timer effect keeps
     * an interval scheduled exactly while the mounted component is playing.
     */
    ghost predicate Valid()
      reads this
    {
      0.0 <= volume <= 1.0 && intervalActive == (mounted && isPlaying)
    }

    /** A fresh instance: the initial `useState` values, no sound yet, nothing called. */
    constructor (player: PlayerStore, songUrl: string)
      ensures Valid() && mounted
      ensures this.player == player && this.songUrl == songUrl
      ensures volume == 1.0 && !isPlaying && timer == 0 && currentPlayingSongId == None
      ensures !soundLoaded && duration == 0 && !intervalActive && calls == []
    {
      this.player := player;
      this.songUrl := songUrl;
      volume := 1.0;
      isPlaying := false;
      timer := 0;
      currentPlayingSongId := None;
      soundLoaded := false;
      duration := 0;
      intervalActive := false;
      mounted := true;
      calls := [];
    }

    /**
     * The engine has loaded the URL: `sound` and `duration` become available,
     * and the effect on `sound` starts playback at once.
     */
    method SoundLoaded(durationSeconds: nat)
      requires Valid() && mounted && !soundLoaded
      modifies this`soundLoaded, this`duration, this`calls
      ensures Valid()
      ensures soundLoaded && duration == durationSeconds
      ensures calls == old(calls) + [Play]
    {
      soundLoaded := true;
      duration := durationSeconds;
      calls := calls + [Play];
    }

    /** The play/pause button. */
    method HandlePlay()
      requires Valid() && mounted
      modifies this`calls
      ensures Valid()
      ensures calls == old(calls) + [PlayPauseCall(isPlaying)]
    {
      if !isPlaying {
        calls := calls + [Play];
      } else {
        calls := calls + [Pause];
      }
    }

    /** The speaker icon. */
    method ToggleMute()
      requires Valid() && mounted
      modifies this`volume
      ensures Valid()
      ensures volume == MuteToggled(old(volume))
      ensures old(volume) != 0.0 ==> volume == 0.0
      ensures old(volume) == 0.0 ==> volume == 1.0
    {
      if volume == 0.0 {
        volume := 1.0;
      } else {
        volume := 0.0;
      }
    }

    /** The volume slider, whose values lie between 0 and 1. */
    method SetVolume(value: real)
      requires Valid() && mounted
      requires 0.0 <= value <= 1.0
      modifies this`volume
      ensures Valid() && volume == value
    {
      volume := value;
    }

    /**
     * The time slider: asks the sound, when there is one, to seek, and shows
     * the requested position at once without waiting for the engine.
     */
    method Seek(value: nat)
      requires Valid() && mounted
      modifies this`timer, this`calls
      ensures Valid()
      ensures timer == value
      ensures calls == old(calls) + (if soundLoaded then [EngineCall.Seek(value, currentPlayingSongId)] else [])
    {
      if soundLoaded {
        calls := calls + [EngineCall.Seek(value, currentPlayingSongId)];
      }
      timer := value;
    }

    /** The engine's `onplay(id)`; the timer effect then schedules the interval. */
    method OnPlay(id: int)
      requires Valid() && mounted
      modifies this`isPlaying, this`currentPlayingSongId, this`intervalActive
      ensures Valid()
      ensures isPlaying && currentPlayingSongId == Some(id) && intervalActive
    {
      isPlaying := true;
      currentPlayingSongId := Some(id);
      intervalActive := true;
    }

    /** The engine's `onpause`; the timer effect then clears the interval. */
    method OnPause()
      requires Valid() && mounted
      modifies this`isPlaying, this`intervalActive
      ensures Valid()
      ensures !isPlaying && !intervalActive
    {
      isPlaying := false;
      intervalActive := false;
    }

    /** The forward button (`onPlayNext`). */
    method PlayNext()
      requires mounted
      modifies player`activeId
      ensures player.activeId == Queue.Next(player.ids, old(player.activeId))
    {
      if |player.ids| == 0 {
        return;
      }
      player.SetId(Queue.NextTarget(player.ids, player.activeId));
    }

    /** The back button (`onPlayPrevious`). */
    method PlayPrevious()
      requires mounted
      modifies player`activeId
      ensures player.activeId == Queue.Previous(player.ids, old(player.activeId))
    {
      if |player.ids| == 0 {
        return;
      }
      player.SetId(Queue.PreviousTarget(player.ids, player.activeId));
    }

    /** The engine's `onend`: playback stops and the queue advances as by the forward button. */
    method OnEnd()
      requires Valid() && mounted
      modifies this`isPlaying, this`intervalActive, player`activeId
      ensures Valid()
      ensures !isPlaying && !intervalActive
      ensures player.activeId == Queue.Next(player.ids, old(player.activeId))
    {
      isPlaying := false;
      intervalActive := false;
      PlayNext();
    }

    /** One firing of the 1-second interval; there is none while the interval is cleared. */
    method Tick()
      requires Valid()
      modifies this`timer
      ensures Valid()
      ensures timer == old(timer) + (if mounted && isPlaying then 1 else 0)
    {
      if intervalActive {
        timer := timer + 1;
      }
    }

    /**
     * Unmounting: the cleanup of the timer effect clears the interval and the
     * cleanup of the sound effect unloads the sound, if there is one.
     */
    method Unmount()
      requires Valid() && mounted
      modifies this`mounted, this`intervalActive, this`calls
      ensures Valid() && !mounted && !intervalActive
      ensures calls == old(calls) + (if soundLoaded then [Unload] else [])
    {
      mounted := false;
      intervalActive := false;
      if soundLoaded {
        calls := calls + [Unload];
      }
    }

    /** The elapsed label, `getSongMinute(VALUE_TIMER)`. */
    method ElapsedLabel() returns (text: string)
      ensures text == TimeFormat.Clock(timer)
      ensures TimeFormat.ParseClock(text) == Some(timer)
    {
      text := TimeFormat.GetSongMinute(timer, false, timer, duration);
      TimeFormat.ElapsedLabelIsClock(timer, duration);
      TimeFormat.ClockRoundTrip(timer);
    }

    /** The duration label, `getSongMinute(MAX_VALUE_TIMER, true)`. */
    method DurationLabel() returns (text: string)
      ensures text == TimeFormat.Clock(duration)
      ensures TimeFormat.ParseClock(text) == Some(duration)
    {
      text := TimeFormat.GetSongMinute(duration, true, timer, duration);
      TimeFormat.DurationLabelIsClock(timer, duration);
      TimeFormat.ClockRoundTrip(duration);
    }
  }
}
