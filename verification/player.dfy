/**
 * The `Player` component of components/Player.tsx: it resolves the active
 * id of the store to song metadata and a URL, renders a `PlayerContent`
 * only when all three are present, and keys that instance on the URL, so
 * that a new URL unmounts the old controller and mounts a fresh one.
 */
module Player {
  import opened Wrappers
  import Controller

  /** Song metadata as delivered by the resolver; the controller only passes it to the display. */
  datatype Song = Song(id: string, title: string, author: string)

  /** The props a rendered `PlayerContent` receives. */
  datatype Props = Props(song: Song, songUrl: string)

  /**
   * The guard of `Player`: nothing is rendered unless the song, its URL and
   * the active id are all truthy (present, and non-empty for the strings).
   */
  function Render(activeId: Option<string>, song: Option<Song>, songUrl: Option<string>): (r: Option<Props>)
    ensures r.Some? <==> song.Some? && songUrl.Some? && songUrl.value != "" && activeId.Some? && activeId.value != ""
    ensures r.Some? ==> r.value.song == song.value && r.value.songUrl == songUrl.value
  {
    if song.None? || songUrl.None? || songUrl.value == "" || activeId.None? || activeId.value == "" then None
    else Some(Props(song.value, songUrl.value))
  }

  /** Nothing is rendered while no id is active. */
  lemma NothingWithoutActiveId(song: Option<Song>, songUrl: Option<string>)
    ensures Render(None, song, songUrl) == None
  {
  }

  /** Nothing is rendered while the metadata is unresolved, even with an active id. */
  lemma NothingWithoutSong(activeId: Option<string>, songUrl: Option<string>)
    ensures Render(activeId, None, songUrl) == None
  {
  }

  /** Nothing is rendered while the URL is unresolved, even with the metadata at hand. */
  lemma NothingWithoutUrl(activeId: Option<string>, song: Option<Song>)
    ensures Render(activeId, song, None) == None
  {
  }

  /**
   * The place in the page where `Player` mounts its `PlayerContent`; React
   * keeps the mounted instance while the key `songUrl` is unchanged and
   * replaces it otherwise.
   */
  class PlayerSlot {
    const player: Controller.PlayerStore
    var content: Controller.PlayerContent?

    ghost predicate Valid()
      reads this, content
    {
      content != null ==> content.player == player && content.mounted && content.Valid()
    }

    constructor (player: Controller.PlayerStore)
      ensures Valid() && this.player == player && content == null
    {
      this.player := player;
      content := null;
    }

    /**
     * One render of `Player` with the resolver's answers for the active id.
     * No props: the mounted instance, if any, is unmounted. Props with the
     * mounted instance's URL: that instance stays, untouched. Props with
     * another URL: the old instance is unmounted and a new one, in its
     * initial state, takes its place.
     */
    method Update(song: Option<Song>, songUrl: Option<string>)
      requires Valid()
      modifies this`content, content
      ensures Valid()
      ensures var view := Render(player.activeId, song, songUrl);
        && (view.None? ==> content == null)
        && (view.Some? ==> content != null && content.songUrl == view.value.songUrl)
        && (view.Some? && old(content) != null && old(content).songUrl == view.value.songUrl ==>
              content == old(content) && unchanged(content))
      ensures content != null && content != old(content) ==>
        fresh(content) && content.volume == 1.0 && !content.isPlaying && content.timer == 0
        && !content.soundLoaded && content.duration == 0 && content.currentPlayingSongId == None
        && content.calls == []
      ensures var prev := old(content);
        prev != null && content != prev ==>
          !prev.mounted && !prev.intervalActive
          && prev.calls == old(prev.calls) + (if old(prev.soundLoaded) then [Controller.Unload] else [])
    {
      var view := Render(player.activeId, song, songUrl);
      if view.Some? && content != null && content.songUrl == view.value.songUrl {
        return;
      }
      if content != null {
        content.Unmount();
      }
      if view.None? {
        content := null;
      } else {
        content := new Controller.PlayerContent(player, view.value.songUrl);
      }
    }
  }
}
