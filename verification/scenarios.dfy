/**
 * End-to-end stories of the player, checked statically: each method drives the
 * store, the slot and the controller through one story and asserts what
 * the user would see at each step.
 */
module Scenarios {
  import opened Wrappers
  import Queue
  import TimeFormat
  import Controller
  import Player

  /** The end of the first of three tracks selects the second and mounts a fresh controller for its URL. */
  method EndAdvancesToFreshController()
  {
    var store := new Controller.PlayerStore(["s1", "s2", "s3"], Some("s1"));
    var slot := new Player.PlayerSlot(store);
    slot.Update(Some(Player.Song("s1", "One", "A")), Some("u1"));
    var first := slot.content;
    assert first != null && first.songUrl == "u1";
    first.SoundLoaded(180);
    first.OnPlay(7);
    first.Tick();
    first.Tick();
    assert first.timer == 2;
    first.OnEnd();
    assert store.activeId == Some("s2");
    assert first.calls == [Controller.Play];
    slot.Update(Some(Player.Song("s2", "Two", "B")), Some("u2"));
    var second := slot.content;
    assert second != null && second != first && second.songUrl == "u2";
    assert second.timer == 0 && !second.isPlaying && second.volume == 1.0;
    assert second.duration == 0 && second.currentPlayingSongId == None;
    assert first.calls == [Controller.Play, Controller.Unload];
  }

  /** Forward from the last track wraps to the first; back from the first wraps to the last. */
  method ForwardFromLastWraps()
  {
    var store := new Controller.PlayerStore(["s1", "s2", "s3"], Some("s3"));
    var content := new Controller.PlayerContent(store, "u3");
    content.PlayNext();
    assert store.activeId == Some("s1");
    content.PlayPrevious();
    assert store.activeId == Some("s3");
  }

  /** Seeking shows the new position at once; the duration label reads the loaded length. */
  method SeekShowsPositionAtOnce()
  {
    var store := new Controller.PlayerStore(["s1"], Some("s1"));
    var content := new Controller.PlayerContent(store, "u1");
    content.SoundLoaded(180);
    content.OnPlay(3);
    content.Seek(45);
    assert content.timer == 45 && content.duration == 180;
    assert content.calls == [Controller.Play, Controller.Seek(45, Some(3))];
    var elapsed := content.ElapsedLabel();
    var total := content.DurationLabel();
    assert TimeFormat.ParseClock(elapsed) == Some(45);
    assert TimeFormat.ParseClock(total) == Some(180);
  }

  /** Mute then unmute from a lowered volume ends at full volume, not at the lowered level. */
  method UnmuteGoesToFullVolume()
  {
    var store := new Controller.PlayerStore([], None);
    var content := new Controller.PlayerContent(store, "u");
    content.SetVolume(0.6);
    content.ToggleMute();
    assert content.volume == 0.0;
    content.ToggleMute();
    assert content.volume == 1.0;
  }

  /**
   * With a single track the end of playback selects the same id again; the
   * URL and so the key stay the same, the controller is kept, and nothing
   * starts playing again.
   */
  method SingleTrackStopsAtEnd()
  {
    var store := new Controller.PlayerStore(["s1"], Some("s1"));
    var slot := new Player.PlayerSlot(store);
    var song := Player.Song("s1", "One", "A");
    slot.Update(Some(song), Some("u1"));
    var content := slot.content;
    assert content != null;
    content.SoundLoaded(60);
    content.OnPlay(1);
    content.OnEnd();
    assert store.activeId == Some("s1");
    slot.Update(Some(song), Some("u1"));
    assert slot.content == content && !content.isPlaying;
    assert content.calls == [Controller.Play];
  }
}
