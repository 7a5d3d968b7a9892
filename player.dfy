/** The running script: the session variables it updates in place, the prompt
    loop, start-up (read the record, set the mixer, resume) and the `finally`
    block (write the record, then stop or shut down). Each method is proved to
    do what the pure specification in Commands and SessionRecord says. */
module Player {
  import opened Wrappers
  import opened Text
  import opened Titles
  import opened SessionRecord
  import opened Commands

  /** The script's module-level session variables. `previousVolume` is `None`
      until the first mute assigns it. */
  class Session {
    var currentSong: string
    var currentVolume: int
    var muteVolume: bool
    var previousVolume: Option<int>
    var currentPlaylist: string

    /** The session as a value. */
    function State(): SessionState
      reads this
    {
      SessionState(currentSong, currentVolume, muteVolume, previousVolume, currentPlaylist)
    }

    /** While muted, the volume to restore has been saved. */
    predicate Valid()
      reads this
    {
      Consistent(State())
    }

    /** The values the script's globals start with. */
    constructor ()
      ensures Valid() && State() == Initial
    {
      currentSong := "";
      currentVolume := DefaultVolume;
      muteVolume := false;
      previousVolume := None;
      currentPlaylist := DefaultPlaylist;
    }

    /** readSongPlayerConfig: ask the daemon for the song it is playing, read
        the record, reconcile the two. */
    method ReadConfig(record: Option<string>, mpcCurrent: string) returns (loaded: Snapshot)
      requires Valid()
      modifies this
      ensures Valid()
      ensures loaded == Load(record, LastSong(mpcCurrent))
      ensures State() == old(State()).(song := loaded.song, volume := loaded.volume, playlist := loaded.playlist)
    {
      loaded := Load(record, LastSong(mpcCurrent));
      Adopt(loaded);
    }

    /** Takes over the three fields of a record. */
    method Adopt(r: Snapshot)
      requires Valid()
      modifies this
      ensures Valid()
      ensures State() == old(State()).(song := r.song, volume := r.volume, playlist := r.playlist)
    {
      currentSong, currentVolume, currentPlaylist := r.song, r.volume, r.playlist;
    }

    /** init: read the record, set the mixer to its volume, resume its song. */
    method Init(record: Option<string>, mpcCurrent: string) returns (actions: seq<Action>)
      requires Valid()
      modifies this
      ensures Valid()
      ensures var r := Load(record, LastSong(mpcCurrent));
              && State() == old(State()).(song := r.song, volume := r.volume, playlist := r.playlist)
              && actions == StartActions(r)
    {
      var loaded := ReadConfig(record, mpcCurrent);
      actions := StartActions(loaded);
    }

    /** initPlaylist: clear the queue, insert each .m4a file of the listing in
        turn, save the queue under the name and make it the active playlist. */
    method InitPlaylist(name: string, listing: seq<string>) returns (actions: seq<Action>)
      requires Valid()
      modifies this
      ensures Valid()
      ensures State() == old(State()).(playlist := name)
      ensures actions == InitPlaylistActions(name, listing)
    {
      var inserts := [];
      for i := 0 to |listing|
        invariant inserts == InsertAll(M4aFiles(listing[..i]))
        invariant State() == old(State())
      {
        InsertsStep(listing, i);
        if EndsWith(listing[i], ".m4a") {
          inserts := inserts + [Insert(MusicUri(listing[i]))];
        }
      }
      assert listing[..|listing|] == listing;
      actions := [Clear] + inserts + [Save(name)];
      currentPlaylist := name;
    }

    /** removePlaylist: refused for the default playlist; otherwise stop, remove
        the playlist, clear the queue and rebuild the default playlist. */
    method RemovePlaylist(name: string, listing: seq<string>) returns (actions: seq<Action>)
      requires Valid()
      modifies this
      ensures Valid()
      ensures name == DefaultPlaylist ==> State() == old(State()) && actions == []
      ensures name != DefaultPlaylist ==>
                State() == old(State()).(playlist := DefaultPlaylist) && actions == RemoveActions(name, listing)
    {
      if name == DefaultPlaylist {
        actions := [];
      } else {
        actions := [Stop, Rm(name), ClearWait];
        var rebuilt := InitPlaylist(DefaultPlaylist, listing);
        actions := actions + rebuilt;
      }
    }

    /** The body of the prompt loop for one line. */
    method Dispatch(line: string, listing: seq<string>) returns (actions: seq<Action>, exit: Option<ExitKind>)
      requires Valid()
      modifies this
      ensures Valid()
      ensures var o := Step(old(State()), line, listing);
              State() == o.state && actions == o.actions && exit == o.exit
    {
      actions, exit := [], None;
      match Classify(line)
      case PlaySong(arg) =>
        actions := [Play(arg)];
      case Pause =>
        actions := [Stop];
      case VolumeUp =>
        currentVolume := currentVolume + 5;
        if currentVolume > 100 {
          currentVolume := 100;
        }
        actions := [SetVolume(currentVolume)];
      case VolumeDown =>
        currentVolume := currentVolume - 5;
        if currentVolume < 0 {
          currentVolume := 0;
        }
        actions := [SetVolume(currentVolume)];
      case AddSong(arg) =>
        if arg.Some? {
          actions := [Add(MusicUri(arg.value))];
        }
      case CurrentPlaylist =>
      case DeleteSong(arg) =>
        if arg.Some? {
          actions := [Del(arg.value)];
        } else {
          actions := [Del("0")];
        }
      case ClearPlaylist =>
        if currentPlaylist != DefaultPlaylist {
          actions := [Stop, Clear];
        }
      case FindAndPlay(arg) =>
        if arg.Some? {
          actions := [SearchPlay(arg.value)];
        }
      case InitializePlaylist(arg) =>
        var name := if arg.Some? then arg.value else DefaultPlaylist;
        actions := InitPlaylist(name, listing);
        currentPlaylist := name;
      case LoadPlaylist(arg) =>
        if arg.Some? {
          actions := InitPlaylist(arg.value, listing);
          currentPlaylist := arg.value;
        }
      case Mute =>
        muteVolume := !muteVolume;
        if muteVolume {
          previousVolume := Some(currentVolume);
          currentVolume := 0;
        } else {
          currentVolume := previousVolume.value;
        }
        actions := [SetVolume(currentVolume)];
      case NextSong =>
        actions := [Next];
      case ShutOff =>
        exit := Some(PowerOff);
      case PreviousSong =>
        actions := [Prev];
      case ShowPlaylists =>
        actions := [ListPlaylists];
      case RemoveNamedPlaylist(arg) =>
        if arg.Some? {
          actions := RemovePlaylist(arg.value, listing);
        } else {
          actions := RemovePlaylist(currentPlaylist, listing);
        }
      case ShowSongs(arg) =>
        actions := [ListSongs(arg)];
      case SavePlaylist(arg) =>
        if arg.Some? {
          actions := [Save(arg.value)];
        } else {
          actions := [Save(currentPlaylist)];
        }
      case ExitLeavePlaying =>
        exit := Some(KeepPlaying);
      case ExitStopMusic =>
        exit := Some(StopPlayback);
      case Unrecognized =>
    }

    /** The prompt loop: one line at a time until a line ends the session; when
        the input runs out, `input()` raises and the session ends as after an
        error. */
    method Run(lines: seq<string>, listing: seq<string>) returns (actions: seq<Action>, exit: ExitKind)
      requires Valid()
      modifies this
      ensures Valid()
      ensures var r := Interpret(old(State()), lines, listing);
              State() == r.state && actions == r.actions && exit == r.exit
    {
      actions, exit := [], StopPlayback;
      var i, done := 0, false;
      while !done && i < |lines|
        invariant 0 <= i <= |lines|
        invariant Valid()
        invariant !done ==> var r := Interpret(State(), lines[i..], listing);
                            Interpret(old(State()), lines, listing) == RunResult(r.state, actions + r.actions, r.exit)
        invariant !done ==> exit == StopPlayback
        invariant done ==> Interpret(old(State()), lines, listing) == RunResult(State(), actions, exit)
        decreases |lines| - i, !done
      {
        ghost var before := State();
        assert lines[i..][0] == lines[i] && lines[i..][1..] == lines[i + 1..];
        var acts, stop := Dispatch(lines[i], listing);
        if stop.Some? {
          done, exit := true, stop.value;
        }
        actions := actions + acts;
        i := i + 1;
      }
      if !done {
        assert lines[i..] == [];
      }
    }

    /** The `finally` block: writeSongPlayerTxt takes the song from the daemon
        once more and writes the record; then `x` leaves the music playing, `o`
        stops it and shuts the host down, and every other ending stops it. */
    method Finish(exit: ExitKind, mpcCurrent: string) returns (record: string, actions: seq<Action>)
      requires Valid()
      modifies this
      ensures Valid()
      ensures State() == old(State()).(song := Title(mpcCurrent))
      ensures record == Serialize(Snapshot(Title(mpcCurrent), currentVolume, currentPlaylist))
      ensures actions == ExitActions(exit)
    {
      currentSong := Title(mpcCurrent);
      record := Serialize(Snapshot(currentSong, currentVolume, currentPlaylist));
      match exit
      case KeepPlaying =>
        actions := [];
      case PowerOff =>
        actions := [Stop, Shutdown];
      case StopPlayback =>
        actions := [Stop];
    }
  }

  /** One run of the script: start-up from the record and the daemon's current
      song, the prompt loop over the lines entered, then the `finally` block.
      Returns every operation issued, in order, and the record written. */
  method SongPlayer(record: Option<string>, mpcAtStart: string, lines: seq<string>,
                    listing: seq<string>, mpcAtExit: string)
    returns (actions: seq<Action>, saved: string)
    ensures var loaded := Load(record, LastSong(mpcAtStart));
            var start := Initial.(song := loaded.song, volume := loaded.volume, playlist := loaded.playlist);
            var run := Interpret(start, lines, listing);
            && actions == StartActions(loaded) + run.actions + ExitActions(run.exit)
            && saved == Serialize(Snapshot(Title(mpcAtExit), run.state.volume, run.state.playlist))
  {
    var session := new Session();
    var started := session.Init(record, mpcAtStart);
    var looped, exit := session.Run(lines, listing);
    var cleanUp;
    saved, cleanUp := session.Finish(exit, mpcAtExit);
    actions := started + looped + cleanUp;
  }
}
