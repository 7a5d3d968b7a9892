# songPlayer: a verified model of the prompt, the titles and the session record

`songPlayer.py` runs on a Raspberry Pi and drives the `mpd` music daemon through
`mpc` and the sound card through `amixer`. At start-up it reads a three-line
session record (song, volume, playlist), sets the mixer volume and resumes the
song. It then loops over a one-line command prompt. When the loop ends it asks
the daemon for the current song, writes the record again, and stops the music,
leaves it playing or shuts the host down.

This project models that logic in Dafny and proves properties of it:

- `text.dfy` (`Text`): the Python string operations the script relies on.
  These are `str.isspace`, `rstrip`, `find`, the slice `s[i:]`,
  `endswith` and POSIX `os.path.join`.
- `numbers.dfy` (`Numbers`): `int()` on the volume line, with the narrower
  whitespace set `int()` skips, and `str()` of the
  volume, with the round trip `int(str(v)) == v`.
- `titles.dfy` (`Titles`): the title cut out of an `mpc current` line. The
  script cuts at the first `-` and keeps the text from two characters after it,
  in two orders: slice then strip, and strip then slice. Both orders are proved
  to agree.
- `session_record.dfy` (`SessionRecord`): writing the record, reading it back
  with universal newlines and `readline`, and reconciling it with the song the
  daemon is playing.
- `commands.dfy` (`Commands`): the tokenizer and the pure specification. `Step`
  covers one prompt line and `Interpret` the whole loop; what each command does
  is an abstract `Action` (an `mpc`/`amixer` call) instead of a shell string.
- `player.dfy` (`Player`): the script's module-level variables as a class
  `Session`, whose methods update them in place. `Dispatch` is the loop body,
  `Run` the loop, `InitPlaylist` the directory loop, and `Init`/`Finish` the
  start-up and the `finally` block. Each method is proved to produce exactly
  what the pure specification says. `SongPlayer` composes one whole run.

Inputs from the outside world are parameters:

- the text of the record file (`None` when it cannot be opened);
- the captured `mpc current` output at start and at exit;
- the lines typed at the prompt;
- the listing of the music directory.

Where the code and its documentation differ, the model follows the code:

- A title is cut at the first `-`, not at `" - "`.
- `a=f` adds to any playlist, the default one included.
- `L=n` rebuilds playlist `n` from the music directory instead of loading a saved one.
- `I` followed by anything other than `=` uses the default playlist name.

## Model

| member | source | states |
|---|---|---|
| `Text.IsSpace` | songPlayer.py:134 | `str.isspace` for one character: `\t` to `\r`, U+001C to U+001F, the space, and the Unicode separators U+0085, U+00A0, U+1680, U+2000 to U+200A, U+2028, U+2029, U+202F, U+205F and U+3000. It is defined as that set and has no contract; its effect is stated by `Text.Rstrip`, which every `rstrip` at lines 134, 153, 159, 162 and 187 uses |
| `Text.SliceFrom` | songPlayer.py:133 | the slice `s[i:]` for a start at least 0: the tail from `i`, or empty once `i` passes the end. It is defined so and has no contract; its properties in use, at lines 133, 155 and 190, are those of `Titles.Title`, `Titles.TitleAfterFirstHyphen` and `Titles.TitleWithoutHyphen` |
| `Text.EndsWith` | songPlayer.py:222 | `file.endswith(".m4a")`: the last characters of the name equal the suffix. It is defined so and has no contract; its use is stated by `Commands.M4aFilesSingle` and `Commands.M4aFilesMembers` |
| `Text.Rstrip` | songPlayer.py:134 | the result is a prefix of the input, every character removed is whitespace, and the result does not end in whitespace |
| `Text.Find` | songPlayer.py:132 | `-1` exactly when the character is absent; otherwise the index holds the character and no earlier index does |
| `Text.RstripAppendSpace` | songPlayer.py:159 | appending whitespace (such as the line's newline) does not change what rstrip returns |
| `Text.JoinPath` | songPlayer.py:223 | POSIX `os.path.join` of two parts: an absolute second part replaces the first, otherwise a `/` is put between them unless the first already ends in one; its use is stated by `Commands.MusicUriOfName` |
| `Numbers.NatToString` | songPlayer.py:194 | `str(n)` is a non-empty run of decimal digits with no leading zero |
| `Numbers.NatToStringValue` | songPlayer.py:194 | the digits `str(n)` writes denote n |
| `Numbers.IntSpace` | songPlayer.py:160 | the whitespace CPython's `int()` skips around the number: the `str.isspace` set without U+001C..U+001F. It is defined so and has no contract; its consequences are stated by `Numbers.SeparatorBeforeNumber` and `Numbers.ParseIntSkipsSpaces` |
| `Numbers.IntTrimEnd` | songPlayer.py:160 | the whitespace `int()` skips after the number: the result is a prefix, every character removed is `str.isspace` whitespace other than U+001C..U+001F, and the result does not end in such whitespace |
| `Numbers.IntTrimStart` | songPlayer.py:160 | the same for the whitespace `int()` skips before the number, on the left |
| `Numbers.ParseInt` | songPlayer.py:160 | `int()` of a line: skips its whitespace on both sides (the `str.isspace` set without U+001C..U+001F), then accepts an optional sign and a run of digits with single underscores between them; its properties are `Numbers.ParseIntToString`, `Numbers.ParseNegative`, `Numbers.ParseIntNeedsDigit`, `Numbers.ParseIntSkipsSpaces` and `Numbers.SeparatorBeforeNumber` |
| `Numbers.ParseIntSkipsSpaces` | songPlayer.py:160 | digits with `int()` whitespace before and after read as their value |
| `Numbers.SeparatorBeforeNumber` | songPlayer.py:159-160 | a U+001C..U+001F character before the digits counts as whitespace for `rstrip` but makes `int()` raise, so a volume line such as `"\x1c60"` is rejected |
| `Numbers.IntToString` | songPlayer.py:194 | `str(v)` is non-empty, starts with `-` exactly when v is negative, and is otherwise all decimal digits |
| `Numbers.ParseIntToString` | songPlayer.py:160 | `int(str(v)) == v` for every integer v, negative ones included |
| `Numbers.ParseNegative` | songPlayer.py:160 | a minus sign followed by digits reads as the negated value |
| `Numbers.ParseIntNeedsDigit` | songPlayer.py:160 | text without a digit makes `int()` fail |
| `Titles.LiveTitle` | songPlayer.py:132-134 | the title of the line lastSong reads (slice two past the first `-`, then strip) never ends in whitespace |
| `Titles.Title` | songPlayer.py:153-155 | the title the record code cuts (strip, then slice two past the first `-`) is a tail of the stripped line and never ends in whitespace |
| `Titles.TitleOrdersAgree` | songPlayer.py:132-155 | slice-then-strip (lastSong) and strip-then-slice (readSongPlayerConfig, writeSongPlayerTxt) give the same title for every input |
| `Titles.TitleIgnoresLineEnd` | songPlayer.py:153-155 | a trailing newline or other trailing whitespace does not change the title |
| `Titles.TitleAfterFirstHyphen` | songPlayer.py:189-190 | the title is the text from two characters after the first `-`, stripped |
| `Titles.TitleWithoutHyphen` | songPlayer.py:132-134 | with no `-`, `find` gives -1 and the title is the input without its first character, stripped; the empty input gives the empty title |
| `Titles.TitleOfArtistAndSong` | songPlayer.py:153-155 | `"<artist> - <song>"` plus a line end gives back `song` whole, when the artist holds no `-` and the song does not end in whitespace |
| `Titles.TitleTwiceDropsFirstCharacter` | songPlayer.py:153-155 | a saved title without `-` loses its first character when it is extracted again on reload |
| `SessionRecord.UniversalNewlines` | songPlayer.py:150 | after text-mode translation no `\r` remains, and text without `\r` is unchanged |
| `SessionRecord.UniversalNewlinesPrefix` | songPlayer.py:150 | text without `\r` passes through the translation unchanged, whatever follows it |
| `SessionRecord.LineEndings` | songPlayer.py:150 | a line ended by `\r\n`, or by a lone `\r` not followed by `\n`, reads as if it were ended by `\n` |
| `SessionRecord.ReadLine` | songPlayer.py:151 | readline splits the text into a first line ending at its first `\n` (the whole text when there is none) and the rest, losing nothing |
| `SessionRecord.LastSong` | songPlayer.py:125-140 | the live song taken from the first line of `mpc current` never ends in whitespace and holds no line break |
| `SessionRecord.Serialize` | songPlayer.py:192-195 | the record written is the song, `str` of the volume and the playlist, each followed by `\n`; what reading it back gives is stated by `SessionRecord.SerializedLines`, `SessionRecord.PersistRoundTrip` and `SessionRecord.LoadSerialized` |
| `SessionRecord.Load` | songPlayer.py:142-168 | a missing record gives the defaults; unless everything was reset to the defaults, a non-empty live song is the song loaded; the other outcomes are stated by `SessionRecord.LoadWellFormed`, `SessionRecord.LoadMissingRecord` and `SessionRecord.LoadBadVolume` |
| `SessionRecord.LoadPlaylistStripped` | songPlayer.py:161-168 | the playlist name loaded never ends in whitespace, whether read from line 3 or the default |
| `SessionRecord.SerializedLines` | songPlayer.py:192-195 | the three readlines of a written record return the song, the volume digits and the playlist, each with its newline |
| `SessionRecord.VolumeLine` | songPlayer.py:158-160 | the written volume line reads back as the same integer |
| `SessionRecord.PersistRoundTrip` | songPlayer.py:150-195 | reading back a written record gives the same volume and playlist, and gives the live song when there is one, else the title of the saved song line |
| `SessionRecord.LoadSerialized` | songPlayer.py:147-196 | with the daemon idle, the written record loads as (Title(song), volume, playlist): the song is not identity |
| `SessionRecord.LoadSerializedFields` | songPlayer.py:150-162 | the same round trip for any playlist name, which comes back rstripped |
| `SessionRecord.LoadMissingRecord` | songPlayer.py:164-168 | a record that cannot be opened gives song `""`, volume 60 and playlist `all_songs` |
| `SessionRecord.LoadBadVolume` | songPlayer.py:158-168 | a volume line `int()` rejects resets all three fields to the defaults, even when the daemon reports a song |
| `SessionRecord.LoadWellFormed` | songPlayer.py:147-162 | a non-empty live song wins over line 1, else line 1's title is used; the volume is `int` of line 2, not clamped; the playlist is line 3, rstripped |
| `Commands.Argument` | songPlayer.py:302-305 | there is an argument exactly when the second character is `=`, and it is the rest of the line after those two characters |
| `Commands.Classify` | songPlayer.py:301-474 | which branch of the `if` chain a line takes, tested in the script's order; that only `""`, `x` and `o` end the loop is stated by `Commands.ExitLines`, and the effect of each command by the `Commands` lemmas below |
| `Commands.Step` | songPlayer.py:301-474 | any command keeps "muted implies a saved volume" and leaves the song unchanged |
| `Commands.Interpret` | songPlayer.py:295-300 | the whole loop keeps "muted implies a saved volume" |
| `Commands.M4aFiles` | songPlayer.py:221-222 | every name kept is in the listing and ends in `.m4a`, and there are no more of them than the listing has |
| `Commands.M4aFilesAppend` | songPlayer.py:221-222 | the filter keeps listing order: filtering a concatenation is the concatenation of the filtered parts |
| `Commands.M4aFilesSingle` | songPlayer.py:222 | a single name is kept exactly when it ends in `.m4a` |
| `Commands.InsertAll` | songPlayer.py:223-226 | one `mpc insert` of the file's URI per name, the k-th insert for the k-th name |
| `Commands.InsertAllAppend` | songPlayer.py:221-226 | the inserts for a concatenation are those for the first part followed by those for the second |
| `Commands.InsertsStep` | songPlayer.py:221-226 | one more iteration of the directory loop appends the name's insert when it ends in `.m4a`, and nothing otherwise |
| `Commands.MusicUri` | songPlayer.py:223-224 | `file://` followed by the music directory joined with the name; stated by `Commands.MusicUriOfName` |
| `Commands.InitPlaylistActions` | songPlayer.py:214-231 | what initPlaylist issues: Clear, the inserts of the `.m4a` names, then Save; stated by `Commands.InitPlaylistContents` and `Player.Session.InitPlaylist` |
| `Commands.RemoveActions` | songPlayer.py:237-247 | what removePlaylist issues for a playlist other than the default; stated by `Commands.RemoveOtherPlaylist` and `Player.Session.RemovePlaylist` |
| `Commands.StartActions` | songPlayer.py:201-210 | what init issues after the record is read: set the mixer, then searchplay the song or play when there is none; stated by `Player.Session.Init` |
| `Commands.ExitActions` | songPlayer.py:487-497 | what the `finally` block issues after writing the record; stated by `Commands.ExitCleanUp` |
| `Commands.VolumeUpStep` | songPlayer.py:319-326 | `+` sets the volume to min(v+5, 100) and emits exactly that one SetVolume; nothing else changes, the mute flag included |
| `Commands.VolumeDownStep` | songPlayer.py:327-334 | `-` sets the volume to max(v-5, 0) and emits exactly that one SetVolume; nothing else changes |
| `Commands.StepKeepsVolumeInRange` | songPlayer.py:319-414 | no command moves the volume or the saved volume out of 0..100 |
| `Commands.InterpretKeepsVolumeInRange` | songPlayer.py:295-474 | a whole session that starts with a volume in 0..100 keeps it there |
| `Commands.RepeatedVolumeUp` | songPlayer.py:319-326 | n presses of `+` reach min(v+5n, 100) without ending the session |
| `Commands.MuteRoundTrip` | songPlayer.py:402-414 | the first `m` saves the volume and sets 0; the second restores exactly the saved volume and clears the flag; both emit the new volume |
| `Commands.PreviousVolumeWrittenBeforeRead` | songPlayer.py:90-414 | the session starts unmuted (line 90), so at every point the saved volume has been written before unmute reads it |
| `Commands.ClearPlaylistGuard` | songPlayer.py:367-375 | `D` on the default playlist emits nothing; otherwise Stop then Clear; the session is unchanged either way |
| `Commands.RemoveDefaultRefused` | songPlayer.py:234-236 | `R` or `R=n` that names the default playlist, explicitly or as the active one, emits nothing and changes nothing |
| `Commands.RemoveOtherPlaylist` | songPlayer.py:237-247 | `R=n` for another playlist emits Stop, Rm(n), ClearWait, then the rebuild of the default playlist, and makes the default playlist active |
| `Commands.AddHasNoGuard` | songPlayer.py:335-350 | `a=f` adds `file://` plus the joined path to the active playlist, whichever it is, and changes nothing |
| `Commands.MusicUriOfName` | songPlayer.py:223-224 | a relative name becomes `file:///home/pi/Music/<name>`; an absolute one replaces the directory |
| `Commands.PlaylistChangingCommands` | songPlayer.py:386-401 | `I=n` and `L=n` rebuild playlist n and make it active; `I` without `=` uses `all_songs` |
| `Commands.InitPlaylistContents` | songPlayer.py:214-231 | initPlaylist emits Clear, one Insert per `.m4a` name in listing order, then Save(name) |
| `Commands.M4aFilesMembers` | songPlayer.py:221-222 | a name is inserted exactly when it is in the listing and ends in `.m4a` |
| `Commands.ExitLines` | songPlayer.py:420-472 | only `""`, `x` and `o` end the loop, with StopPlayback, KeepPlaying and PowerOff respectively |
| `Commands.ExitCleanUp` | songPlayer.py:487-497 | after `x` no Stop is sent; after `o`, Stop then Shutdown; after any other ending, Stop |
| `Commands.DeleteCurrentByDefault` | songPlayer.py:354-366 | `d` followed by anything but `=` deletes song number "0" and changes nothing else |
| `Commands.MissingArgumentIsNoOp` | songPlayer.py:335-401 | `a`, `f` and `L` without `=` emit nothing and change nothing |
| `Commands.ExactCommandsNeedExactMatch` | songPlayer.py:314-474 | a whole-line command letter followed by more text (`nn`, `Dx`) is unrecognised: no action, no change, no exit |
| `Commands.UnknownLetterIsNoOp` | songPlayer.py:473-474 | a line starting with no command character is a no-op |
| `Commands.ReadOnlyCommands` | songPlayer.py:301-466 | play, pause, `C`, delete, find, next, previous, list and save commands leave the session unchanged and do not end it |
| `Player.Session.constructor` | songPlayer.py:87-103 | the session starts with no song, volume 60, unmuted, no saved volume, playlist `all_songs` |
| `Player.Session.ReadConfig` | songPlayer.py:142-168 | the song, volume and playlist become those Load reconciles from the record and the live title; mute state untouched |
| `Player.Session.Adopt` | songPlayer.py:157-162 | the session takes over the three record fields and nothing else |
| `Player.Session.Init` | songPlayer.py:198-211 | after reading the record, sets the mixer to its volume, then resumes its song (searchplay) or plays when there is none |
| `Player.Session.InitPlaylist` | songPlayer.py:214-232 | the loop over the listing emits exactly InitPlaylistActions and makes the name the active playlist |
| `Player.Session.RemovePlaylist` | songPlayer.py:234-247 | refused for the default playlist; otherwise emits RemoveActions and leaves `all_songs` active |
| `Player.Session.Dispatch` | songPlayer.py:301-474 | the in-place update of the session, the actions and the exit equal those of Step; the mute invariant is kept |
| `Player.Session.Run` | songPlayer.py:295-300 | the prompt loop's final session, actions and ending equal Interpret's |
| `Player.Session.Finish` | songPlayer.py:484-497 | the song becomes the title of the exit output, the record written is its serialisation with the final volume and playlist, then the exit actions follow |
| `Player.SongPlayer` | songPlayer.py:290-497 | a whole run issues the start-up actions, the loop's actions and the exit actions in that order, and writes the record of the final state |

## Left out

- Shell commands: `subprocess.call`/`check_output`, the `limitMPCoutput` grep
  suffix and all shell quoting are left out. Each call is an abstract `Action`.
  `f=s` (line 382) and the start-up searchplay (line 208) differ only in
  quoting and in the `limitMPCoutput` output filter, both left out, so both
  are `SearchPlay`.
- File and log effects are left out: the log file, `timeStamp` (a clock read), the
  temporary file and its `rm`, and opening and closing files. The record's
  contents and the captured `mpc current` text are parameters.
- Console output is left out: `printMenu` and every `print`.
- `os.listdir` is left out. The directory listing is a parameter. One listing
  serves the whole run: the music directory is assumed not to change while the
  script runs. The script lists the directory again at every rebuild (`I`,
  `L=n`, `R`, line 221), so the model cannot express files copied into the
  directory between two rebuilds in one run.
- The handlers at lines 137 and 165 are not modelled. Concatenating a string
  with an exception object raises `TypeError`, and `f` is unbound at line 169
  when the open failed. `Load` models the reset the handler of lines 166-168
  intends.
- The `NameError` on `ans` in the `finally` block when `init()` fails is not
  modelled.
- `Numbers.ParseInt` is modelled for ASCII digits only. It covers the
  whitespace `int()` skips around the number, an optional sign and single
  underscores between digits; Unicode decimal digits are left out.
- `Numbers.ParseInt` follows Python 3.6 or later, which accepts underscores
  between digits (PEP 515). Under Python 3.5, the `python3` of Raspbian
  stretch (the system named in the script's header), `int("6_0")` raises instead.
  The model also has no 4300-digit conversion limit. CPython 3.11 and later, and
  the 3.7.14, 3.8.14, 3.9.14 and 3.10.7 security releases, make `int()` and
  `str()` raise above that length. On those versions an over-long volume line
  resets the record to the defaults where the model loads it. `Numbers.ParseIntToString`
  likewise holds there only for values of at most 4300 digits.
- Exceptions in the loop are not modelled one by one. A keyboard interrupt, an
  error, and the end of input (an `EOFError` from `input()`) all end the loop as
  after an error: the record is written, then the music stops (`StopPlayback`).
- The `try` around `a=f` is not modelled: nothing in it can fail in the model.
- Decoding the daemon's output as UTF-8 is left out; the output comes in as text.
- Failures of `mpc` and `amixer` calls made through `subprocess.call` are left
  out: the script ignores their exit status, so no effect in the model depends
  on them.
- `Player.Session.Finish` assumes that `mpc current` at line 184 succeeds and that
  its output decodes as UTF-8 at line 185. In the script, a failure there raises
  inside the `finally` block at line 486: no record is written and lines 487-497
  (the Stop or Shutdown) do not run.
- `Player.SongPlayer` assumes the same of the exit-time `mpc current`, so every
  run it models ends by writing the record and issuing the exit actions.
- The daemon's own state is not simulated: no connection is proved between the
  actions issued and the song `mpc current` reports at exit.
