/** The command language of the player's prompt and what each command does to
    the session: the tokenizer, the daemon and mixer operations a command asks
    for, and the pure specification (Step, Interpret) that the imperative
    Session class is proved against. */
module Commands {
  import opened Wrappers
  import opened Text
  import opened SessionRecord

  const MusicDirectory: string := "/home/pi/Music"

  /** One player (mpc) or mixer (amixer) operation, or the host shutdown. */
  datatype Action =
    | Play(track: Option<string>)       // mpc play [n]
    | Stop                              // mpc stop
    | Next                              // mpc next
    | Prev                              // mpc prev
    | SetVolume(percent: int)           // amixer set Digital <v>%
    | Add(uri: string)                  // mpc add "<uri>"
    | Insert(uri: string)               // mpc insert "<uri>"
    | Del(position: string)             // mpc del <n>
    | Clear                             // mpc clear
    | ClearWait                         // mpc clear --wait
    | SearchPlay(title: string)         // mpc searchplay title <s>
    | ListPlaylists                     // mpc lsplaylists
    | ListSongs(filter: Option<string>) // mpc playlist | grep -n ...
    | Save(name: string)                // mpc save <name>
    | Rm(name: string)                  // mpc rm <name>
    | Shutdown                          // sudo shutdown -h 0

  /** How the session ends, which decides the clean-up actions. */
  datatype ExitKind =
    | KeepPlaying    // `x`
    | PowerOff       // `o`
    | StopPlayback   // empty line, or the loop ended by an error

  /** A prompt line, classified. Commands taking an argument carry `Some(arg)`
      when the line's second character is `=`, the rest of the line being the
      argument. */
  datatype Command =
    | PlaySong(arg: Option<string>)          // >  >=n
    | Pause                                  // !
    | VolumeUp                               // +
    | VolumeDown                             // -
    | AddSong(arg: Option<string>)           // a=f
    | CurrentPlaylist                        // C
    | DeleteSong(arg: Option<string>)        // d  d=n
    | ClearPlaylist                          // D
    | FindAndPlay(arg: Option<string>)       // f=s
    | InitializePlaylist(arg: Option<string>) // I  I=n
    | LoadPlaylist(arg: Option<string>)      // L=n
    | Mute                                   // m
    | NextSong                               // n
    | ShutOff                                // o
    | PreviousSong                           // p
    | ShowPlaylists                          // P
    | RemoveNamedPlaylist(arg: Option<string>) // R  R=n
    | ShowSongs(arg: Option<string>)         // s  s=s
    | SavePlaylist(arg: Option<string>)      // S  S=n
    | ExitLeavePlaying                       // x
    | ExitStopMusic                          // (empty line)
    | Unrecognized

  /** The argument of a prefix command: everything after a leading "X=". */
  function Argument(line: string): (r: Option<string>)
    ensures r.Some? <==> |line| >= 2 && line[1] == '='
    ensures r.Some? ==> line == line[..2] + r.value
  {
    if |line| >= 2 && line[1] == '=' then Some(line[2..]) else None
  }

  /** The branch the prompt loop takes for a line: some commands must match
      the whole line, the others only its first character. */
  function Classify(line: string): Command {
    if line == "" then ExitStopMusic
    else if line[0] == '>' then PlaySong(Argument(line))
    else if line == "!" then Pause
    else if line == "+" then VolumeUp
    else if line == "-" then VolumeDown
    else if line[0] == 'a' then AddSong(Argument(line))
    else if line == "C" then CurrentPlaylist
    else if line[0] == 'd' then DeleteSong(Argument(line))
    else if line == "D" then ClearPlaylist
    else if line[0] == 'f' then FindAndPlay(Argument(line))
    else if line[0] == 'I' then InitializePlaylist(Argument(line))
    else if line[0] == 'L' then LoadPlaylist(Argument(line))
    else if line == "m" then Mute
    else if line == "n" then NextSong
    else if line == "o" then ShutOff
    else if line == "p" then PreviousSong
    else if line == "P" then ShowPlaylists
    else if line[0] == 'R' then RemoveNamedPlaylist(Argument(line))
    else if line[0] == 's' then ShowSongs(Argument(line))
    else if line[0] == 'S' then SavePlaylist(Argument(line))
    else if line == "x" then ExitLeavePlaying
    else Unrecognized
  }

  /** The in-memory session: the module-level variables the loop updates.
      `previous` is `None` until the first mute assigns it. */
  datatype SessionState = SessionState(song: string, volume: int, muted: bool, previous: Option<int>, playlist: string)

  /** While muted, the volume to restore has been saved. */
  predicate Consistent(s: SessionState) {
    s.muted ==> s.previous.Some?
  }

  /** The volume, and the volume a later unmute would restore, within 0..100. */
  predicate VolumeInRange(s: SessionState) {
    && 0 <= s.volume <= 100
    && (s.previous.Some? ==> 0 <= s.previous.value <= 100)
  }

  /** The session before the record is read: the values the script starts with. */
  const Initial: SessionState := SessionState("", DefaultVolume, false, None, DefaultPlaylist)

  /** The result of one command. */
  datatype Outcome = Outcome(state: SessionState, actions: seq<Action>, exit: Option<ExitKind>)

  /** The `file://` URI of a file named relative to the music directory. */
  function MusicUri(name: string): string {
    "file://" + JoinPath(MusicDirectory, name)
  }

  /** The names in a directory listing that end in ".m4a", in listing order. */
  function M4aFiles(listing: seq<string>): (r: seq<string>)
    ensures |r| <= |listing|
    ensures forall k :: 0 <= k < |r| ==> r[k] in listing && EndsWith(r[k], ".m4a")
  {
    if listing == [] then []
    else
      var last := listing[|listing| - 1];
      M4aFiles(listing[..|listing| - 1]) + (if EndsWith(last, ".m4a") then [last] else [])
  }

  /** One insert per file, in order, as the loop issues them. */
  function InsertAll(files: seq<string>): (r: seq<Action>)
    ensures |r| == |files|
    ensures forall k :: 0 <= k < |files| ==> r[k] == Insert(MusicUri(files[k]))
  {
    if files == [] then []
    else InsertAll(files[..|files| - 1]) + [Insert(MusicUri(files[|files| - 1]))]
  }

  /** initPlaylist: clear the queue, insert every .m4a file of the music
      directory, save the queue under the name. */
  function InitPlaylistActions(name: string, listing: seq<string>): seq<Action> {
    [Clear] + InsertAll(M4aFiles(listing)) + [Save(name)]
  }

  /** removePlaylist on a name other than the default one: stop, remove it,
      clear, then rebuild the default playlist. */
  function RemoveActions(name: string, listing: seq<string>): seq<Action> {
    [Stop, Rm(name), ClearWait] + InitPlaylistActions(DefaultPlaylist, listing)
  }

  /** One pass through the prompt loop's body for the line entered. */
  function Step(s: SessionState, line: string, listing: seq<string>): (o: Outcome)
    requires Consistent(s)
    ensures Consistent(o.state)
    ensures o.state.song == s.song
  {
    match Classify(line)
    case PlaySong(arg) => Outcome(s, [Play(arg)], None)
    case Pause => Outcome(s, [Stop], None)
    case VolumeUp =>
      var v := if s.volume + 5 > 100 then 100 else s.volume + 5;
      Outcome(s.(volume := v), [SetVolume(v)], None)
    case VolumeDown =>
      var v := if s.volume - 5 < 0 then 0 else s.volume - 5;
      Outcome(s.(volume := v), [SetVolume(v)], None)
    case AddSong(arg) =>
      if arg.Some? then Outcome(s, [Add(MusicUri(arg.value))], None) else Outcome(s, [], None)
    case CurrentPlaylist => Outcome(s, [], None)
    case DeleteSong(arg) => Outcome(s, [Del(arg.GetOr("0"))], None)
    case ClearPlaylist =>
      if s.playlist == DefaultPlaylist then Outcome(s, [], None) else Outcome(s, [Stop, Clear], None)
    case FindAndPlay(arg) =>
      if arg.Some? then Outcome(s, [SearchPlay(arg.value)], None) else Outcome(s, [], None)
    case InitializePlaylist(arg) =>
      var name := arg.GetOr(DefaultPlaylist);
      Outcome(s.(playlist := name), InitPlaylistActions(name, listing), None)
    case LoadPlaylist(arg) =>
      if arg.Some? then Outcome(s.(playlist := arg.value), InitPlaylistActions(arg.value, listing), None)
      else Outcome(s, [], None)
    case Mute =>
      if !s.muted then Outcome(s.(muted := true, previous := Some(s.volume), volume := 0), [SetVolume(0)], None)
      else Outcome(s.(muted := false, volume := s.previous.value), [SetVolume(s.previous.value)], None)
    case NextSong => Outcome(s, [Next], None)
    case ShutOff => Outcome(s, [], Some(PowerOff))
    case PreviousSong => Outcome(s, [Prev], None)
    case ShowPlaylists => Outcome(s, [ListPlaylists], None)
    case RemoveNamedPlaylist(arg) =>
      var name := arg.GetOr(s.playlist);
      if name == DefaultPlaylist then Outcome(s, [], None)
      else Outcome(s.(playlist := DefaultPlaylist), RemoveActions(name, listing), None)
    case ShowSongs(arg) => Outcome(s, [ListSongs(arg)], None)
    case SavePlaylist(arg) => Outcome(s, [Save(arg.GetOr(s.playlist))], None)
    case ExitLeavePlaying => Outcome(s, [], Some(KeepPlaying))
    case ExitStopMusic => Outcome(s, [], Some(StopPlayback))
    case Unrecognized => Outcome(s, [], None)
  }

  /** The prompt loop over the lines entered: it runs until a line ends the
      session; when the input runs out, `input()` raises and the session ends
      as after an error. */
  datatype RunResult = RunResult(state: SessionState, actions: seq<Action>, exit: ExitKind)

  function Interpret(s: SessionState, lines: seq<string>, listing: seq<string>): (r: RunResult)
    requires Consistent(s)
    ensures Consistent(r.state)
    decreases |lines|
  {
    if lines == [] then RunResult(s, [], StopPlayback)
    else
      var o := Step(s, lines[0], listing);
      if o.exit.Some? then RunResult(o.state, o.actions, o.exit.value)
      else
        var rest := Interpret(o.state, lines[1..], listing);
        RunResult(rest.state, o.actions + rest.actions, rest.exit)
  }

  /** init: set the mixer to the loaded volume, then resume the loaded song,
      or play from the start when there is none. */
  function StartActions(r: Snapshot): seq<Action> {
    [SetVolume(r.volume), if r.song == "" then Play(None) else SearchPlay(r.song)]
  }

  /** The clean-up in `finally` after the record is written. */
  function ExitActions(k: ExitKind): seq<Action> {
    match k
    case KeepPlaying => []
    case PowerOff => [Stop, Shutdown]
    case StopPlayback => [Stop]
  }

  // ---------------------------------------------------------------------------
  // Properties of the command language

  function Min(a: int, b: int): int {
    if a <= b then a else b
  }

  function Max(a: int, b: int): int {
    if a >= b then a else b
  }

  /** `+` sets the volume to min(v + 5, 100), tells the mixer that volume, and
      changes nothing else (the mute flag included) */
  lemma VolumeUpStep(s: SessionState, listing: seq<string>)
    requires Consistent(s)
    ensures var v := Min(s.volume + 5, 100);
            Step(s, "+", listing) == Outcome(s.(volume := v), [SetVolume(v)], None)
  {
  }

  /** `-` sets the volume to max(v - 5, 0), tells the mixer that volume, and
      changes nothing else */
  lemma VolumeDownStep(s: SessionState, listing: seq<string>)
    requires Consistent(s)
    ensures var v := Max(s.volume - 5, 0);
            Step(s, "-", listing) == Outcome(s.(volume := v), [SetVolume(v)], None)
  {
  }

  /** no command moves the volume, or the volume to restore, out of 0..100 */
  lemma StepKeepsVolumeInRange(s: SessionState, line: string, listing: seq<string>)
    requires Consistent(s) && VolumeInRange(s)
    ensures VolumeInRange(Step(s, line, listing).state)
  {
  }

  /** the whole session keeps the volume in 0..100 */
  lemma {:induction false} InterpretKeepsVolumeInRange(s: SessionState, lines: seq<string>, listing: seq<string>)
    requires Consistent(s) && VolumeInRange(s)
    ensures VolumeInRange(Interpret(s, lines, listing).state)
    decreases |lines|
  {
    if lines != [] {
      StepKeepsVolumeInRange(s, lines[0], listing);
      var o := Step(s, lines[0], listing);
      if o.exit.None? {
        InterpretKeepsVolumeInRange(o.state, lines[1..], listing);
      }
    }
  }

  function Repeat(line: string, n: nat): (r: seq<string>)
    ensures |r| == n
    ensures forall i :: 0 <= i < n ==> r[i] == line
  {
    if n == 0 then [] else [line] + Repeat(line, n - 1)
  }


  /** n presses of `+` from a volume of at most 100 reach min(v + 5n, 100):
      twenty-one from the default 60 give 100, not 165 */
  lemma {:induction false} RepeatedVolumeUp(s: SessionState, n: nat, listing: seq<string>)
    requires Consistent(s) && s.volume <= 100
    ensures Interpret(s, Repeat("+", n), listing).state.volume == Min(s.volume + 5 * n, 100)
    ensures Interpret(s, Repeat("+", n), listing).exit == StopPlayback
    decreases n
  {
    if n > 0 {
      var lines := Repeat("+", n);
      assert lines[0] == "+" && lines[1..] == Repeat("+", n - 1);
      VolumeUpStep(s, listing);
      var o := Step(s, "+", listing);
      RepeatedVolumeUp(o.state, n - 1, listing);
    }
  }

  /** muting saves the volume and silences the mixer; unmuting restores exactly
      the saved volume. Nothing but the mute fields and the volume changes. */
  lemma MuteRoundTrip(s: SessionState, listing: seq<string>)
    requires !s.muted
    ensures var o1 := Step(s, "m", listing);
            && o1.state == s.(muted := true, previous := Some(s.volume), volume := 0)
            && o1.actions == [SetVolume(0)]
            && var o2 := Step(o1.state, "m", listing);
               && o2.state == s.(previous := Some(s.volume))
               && o2.actions == [SetVolume(s.volume)]
  {
  }

  /** the saved volume is never read before it is written: the script starts
      unmuted, and every command keeps "muted implies saved" */
  lemma PreviousVolumeWrittenBeforeRead(lines: seq<string>, listing: seq<string>)
    ensures Consistent(Initial)
    ensures Consistent(Interpret(Initial, lines, listing).state)
  {
  }

  /** `D` never empties the default playlist; elsewhere it stops and clears,
      and in neither case does the session change */
  lemma ClearPlaylistGuard(s: SessionState, listing: seq<string>)
    requires Consistent(s)
    ensures Step(s, "D", listing).state == s
    ensures Step(s, "D", listing).actions
         == if s.playlist == DefaultPlaylist then [] else [Stop, Clear]
  {
  }

  /** `R` naming the default playlist, explicitly or as the active one, is refused */
  lemma RemoveDefaultRefused(s: SessionState, line: string, listing: seq<string>)
    requires Consistent(s)
    requires |line| > 0 && line[0] == 'R'
    requires Argument(line).GetOr(s.playlist) == DefaultPlaylist
    ensures Step(s, line, listing) == Outcome(s, [], None)
  {
  }

  /** `R=n` for another playlist stops, removes n, clears, rebuilds the default
      playlist and makes it the active one */
  lemma RemoveOtherPlaylist(s: SessionState, name: string, listing: seq<string>)
    requires Consistent(s) && name != DefaultPlaylist
    ensures var o := Step(s, "R=" + name, listing);
            && o.state == s.(playlist := DefaultPlaylist)
            && o.actions == [Stop, Rm(name), ClearWait, Clear]
                            + InsertAll(M4aFiles(listing)) + [Save(DefaultPlaylist)]
            && o.exit.None?
  {
    assert Argument("R=" + name) == Some(name);
  }

  /** `a=f` has no playlist guard: it appends to whatever playlist is active */
  lemma AddHasNoGuard(s: SessionState, file: string, listing: seq<string>)
    requires Consistent(s)
    ensures Step(s, "a=" + file, listing) == Outcome(s, [Add("file://" + JoinPath("/home/pi/Music", file))], None)
  {
    assert Argument("a=" + file) == Some(file);
  }

  /** a relative name lands inside the music directory; an absolute one is
      taken as it is, as `os.path.join` does */
  lemma MusicUriOfName(name: string)
    ensures (name == [] || name[0] != '/') ==> MusicUri(name) == "file:///home/pi/Music/" + name
    ensures (name != [] && name[0] == '/') ==> MusicUri(name) == "file://" + name
  {
  }

  /** `I=n`, `L=n` and a bare `I` rebuild the playlist from the music directory
      and make it the active one; `I` without "=" uses the default name */
  lemma PlaylistChangingCommands(s: SessionState, line: string, listing: seq<string>)
    requires Consistent(s)
    requires |line| > 0 && (line[0] == 'I' || (line[0] == 'L' && Argument(line).Some?))
    ensures var name := Argument(line).GetOr(DefaultPlaylist);
            Step(s, line, listing) == Outcome(s.(playlist := name), InitPlaylistActions(name, listing), None)
  {
  }

  /** the playlist built from a listing: a clear, one insert for exactly each
      .m4a name in listing order, then the save */
  lemma InitPlaylistContents(name: string, listing: seq<string>)
    ensures var acts := InitPlaylistActions(name, listing);
            var files := M4aFiles(listing);
            && |acts| == |files| + 2
            && acts[0] == Clear
            && acts[|acts| - 1] == Save(name)
            && (forall k :: 0 <= k < |files| ==> acts[k + 1] == Insert(MusicUri(files[k])))
  {
    var acts := InitPlaylistActions(name, listing);
    var files := M4aFiles(listing);
    forall k | 0 <= k < |files| ensures acts[k + 1] == Insert(MusicUri(files[k])) {
      assert acts[k + 1] == InsertAll(files)[k];
    }
  }

  /** filtering a listing in two parts filters each part and keeps them in
      order: with M4aFilesSingle this fixes the order and the multiplicity of
      the names inserted */
  lemma {:induction false} M4aFilesAppend(a: seq<string>, b: seq<string>)
    ensures M4aFiles(a + b) == M4aFiles(a) + M4aFiles(b)
    decreases |b|
  {
    if b == [] {
      assert a + b == a;
    } else {
      var init := b[..|b| - 1];
      assert (a + b)[..|a + b| - 1] == a + init;
      assert (a + b)[|a + b| - 1] == b[|b| - 1];
      M4aFilesAppend(a, init);
    }
  }

  /** a single name is kept exactly when it ends in .m4a */
  lemma M4aFilesSingle(f: string)
    ensures M4aFiles([f]) == if EndsWith(f, ".m4a") then [f] else []
  {
    assert [f][..0] == [];
  }

  /** the inserts for two lists of files are those of each, in order */
  lemma {:induction false} InsertAllAppend(a: seq<string>, b: seq<string>)
    ensures InsertAll(a + b) == InsertAll(a) + InsertAll(b)
    decreases |b|
  {
    if b == [] {
      assert a + b == a;
    } else {
      var init := b[..|b| - 1];
      assert (a + b)[..|a + b| - 1] == a + init;
      assert (a + b)[|a + b| - 1] == b[|b| - 1];
      InsertAllAppend(a, init);
    }
  }

  /** one more name of the listing adds its insert at the end, or nothing */
  lemma InsertsStep(listing: seq<string>, i: nat)
    requires i < |listing|
    ensures InsertAll(M4aFiles(listing[..i + 1]))
         == InsertAll(M4aFiles(listing[..i]))
            + (if EndsWith(listing[i], ".m4a") then [Insert(MusicUri(listing[i]))] else [])
  {
    var file, files := listing[i], M4aFiles(listing[..i]);
    assert listing[..i + 1] == listing[..i] + [file];
    M4aFilesAppend(listing[..i], [file]);
    M4aFilesSingle(file);
    if EndsWith(file, ".m4a") {
      InsertAllAppend(files, [file]);
      assert [file][..0] == [];
    } else {
      assert files + [] == files;
    }
  }

  /** a name is inserted exactly when it is in the listing and ends in .m4a */
  lemma {:induction false} M4aFilesMembers(listing: seq<string>, f: string)
    ensures f in M4aFiles(listing) <==> f in listing && EndsWith(f, ".m4a")
    decreases |listing|
  {
    if listing != [] {
      var init := listing[..|listing| - 1];
      M4aFilesMembers(init, f);
      assert listing == init + [listing[|listing| - 1]];
    }
  }

  /** the lines that end the session: exactly the empty line, `x` and `o` */
  lemma ExitLines(s: SessionState, line: string, listing: seq<string>)
    requires Consistent(s)
    ensures Step(s, line, listing).exit.Some? <==> line == "" || line == "x" || line == "o"
    ensures line == "" ==> Step(s, line, listing).exit == Some(StopPlayback)
    ensures line == "x" ==> Step(s, line, listing).exit == Some(KeepPlaying)
    ensures line == "o" ==> Step(s, line, listing).exit == Some(PowerOff)
  {
  }

  /** after the record is written: `x` leaves the music playing, `o` stops it and
      shuts the host down, any other ending stops it */
  lemma ExitCleanUp(k: ExitKind)
    ensures Stop in ExitActions(k) <==> k != KeepPlaying
    ensures Shutdown in ExitActions(k) <==> k == PowerOff
    ensures k == PowerOff ==> ExitActions(k) == [Stop, Shutdown]
  {
  }

  /** `d` with anything but "=" second deletes the current song, number 0 */
  lemma DeleteCurrentByDefault(s: SessionState, line: string, listing: seq<string>)
    requires Consistent(s)
    requires |line| > 0 && line[0] == 'd' && !(|line| >= 2 && line[1] == '=')
    ensures Step(s, line, listing) == Outcome(s, [Del("0")], None)
  {
  }

  /** `a`, `f` and `L` without "=" do nothing at all */
  lemma MissingArgumentIsNoOp(s: SessionState, line: string, listing: seq<string>)
    requires Consistent(s)
    requires |line| > 0 && (line[0] == 'a' || line[0] == 'f' || line[0] == 'L')
    requires !(|line| >= 2 && line[1] == '=')
    ensures Step(s, line, listing) == Outcome(s, [], None)
  {
  }

  /** a whole-line command with anything after it is not recognised: no state
      change, no action, no exit (so "nn" or "Dx" do nothing) */
  lemma ExactCommandsNeedExactMatch(s: SessionState, line: string, listing: seq<string>)
    requires Consistent(s)
    requires |line| >= 2 && line[0] in "!+-CDmnopPx"
    ensures Step(s, line, listing) == Outcome(s, [], None)
  {
    assert line != "!" && line != "+" && line != "-" && line != "C" && line != "D";
    assert line != "m" && line != "n" && line != "o" && line != "p" && line != "P" && line != "x";
    assert Classify(line) == Unrecognized;
  }

  /** a line starting with no command letter does nothing */
  lemma UnknownLetterIsNoOp(s: SessionState, line: string, listing: seq<string>)
    requires Consistent(s)
    requires |line| > 0 && line[0] !in "!+-CDmnopPx>adfILRsS"
    ensures Step(s, line, listing) == Outcome(s, [], None)
  {
  }

  /** the read-only commands change nothing in the session */
  lemma ReadOnlyCommands(s: SessionState, line: string, listing: seq<string>)
    requires Consistent(s)
    requires |line| > 0 && line[0] in ">!CdfnpPsS"
    ensures Step(s, line, listing).state == s
    ensures Step(s, line, listing).exit.None?
  {
  }
}
