/** The session record songPlayer.conf: three newline-terminated lines holding
    the song, the volume as a decimal integer and the playlist name. It is read
    once at start-up, reconciled with the song the daemon is playing, and written
    once at exit. */
module SessionRecord {
  import opened Wrappers
  import opened Text
  import opened Numbers
  import opened Titles

  const DefaultVolume: int := 60
  const DefaultPlaylist: string := "all_songs"

  /** What the record holds: the song to resume, the volume, the active playlist. */
  datatype Snapshot = Snapshot(song: string, volume: int, playlist: string)

  /** The values used when no record can be read. */
  const Defaults: Snapshot := Snapshot("", DefaultVolume, DefaultPlaylist)

  /** The text written to the record: song, volume and playlist, one per line. */
  function Serialize(r: Snapshot): string {
    r.song + "\n" + IntToString(r.volume) + "\n" + r.playlist + "\n"
  }

  /** Reading a file in text mode: "\r\n" and a lone "\r" both become "\n". */
  function UniversalNewlines(text: string): (r: string)
    ensures '\r' !in r
    ensures '\r' !in text ==> r == text
  {
    if text == [] then []
    else if text[0] == '\r' then
      if |text| > 1 && text[1] == '\n' then "\n" + UniversalNewlines(text[2..])
      else "\n" + UniversalNewlines(text[1..])
    else [text[0]] + UniversalNewlines(text[1..])
  }

  /** `readline()` on translated text: the first line with its "\n" (or the
      rest of the text when there is no "\n"; "" at the end), and what follows. */
  function ReadLine(text: string): (r: (string, string))
    ensures r.0 + r.1 == text
    ensures '\n' in text ==> r.0 != [] && r.0[|r.0| - 1] == '\n' && '\n' !in r.0[..|r.0| - 1]
    ensures '\n' !in text ==> r.0 == text && r.1 == []
  {
    var i := Find(text, '\n');
    if i < 0 then (text, []) else (text[..i + 1], text[i + 1..])
  }

  /** The title `lastSong` obtains from the captured `mpc current` output: the
      first line of the file, cut at its first hyphen, then stripped. */
  function LastSong(output: string): (r: string)
    ensures r == [] || !IsSpace(r[|r| - 1])
    ensures '\n' !in r && '\r' !in r
  {
    var line := ReadLine(UniversalNewlines(output)).0;
    NoLineBreakInLiveTitle(line);
    LiveTitle(line)
  }

  /** the title of one line, cut and stripped, holds no line break: the only
      one the line may hold is its last character, which rstrip removes */
  lemma NoLineBreakInLiveTitle(line: string)
    requires forall i :: 0 <= i < |line| - 1 ==> line[i] != '\n'
    requires '\r' !in line
    ensures '\n' !in LiveTitle(line) && '\r' !in LiveTitle(line)
  {
    var k := Find(line, '-') + 2;
    var t := SliceFrom(line, k);
    var r := Rstrip(t);
    assert r == LiveTitle(line);
    if k <= |line| {
      forall j | 0 <= j < |r| ensures r[j] != '\n' && r[j] != '\r' {
        assert r[j] == t[j] == line[k + j];
        if j < |r| - 1 {
          assert k + j < |line| - 1;
        }
      }
    }
  }

  /** readSongPlayerConfig: the record's three lines, except that a non-empty
      live song replaces the first. A missing record or a volume line that is
      not an integer resets everything to the defaults, the song included.
      The volume read back is not clamped. */
  function Load(record: Option<string>, liveSong: string): (r: Snapshot)
    ensures record.None? ==> r == Defaults
    ensures r == Defaults || liveSong == "" || r.song == liveSong
  {
    match record
    case None => Defaults
    case Some(text) =>
      var first := ReadLine(UniversalNewlines(text));
      var second := ReadLine(first.1);
      var third := ReadLine(second.1);
      var song := if liveSong == "" then Title(first.0) else liveSong;
      match ParseInt(Rstrip(second.0))
      case None => Defaults
      case Some(v) => Snapshot(song, v, Rstrip(third.0))
  }

  /** text without `\r` passes through the translation unchanged, whatever follows */
  lemma {:induction false} UniversalNewlinesPrefix(a: string, b: string)
    requires '\r' !in a
    ensures UniversalNewlines(a + b) == a + UniversalNewlines(b)
    decreases |a|
  {
    if a == [] {
      assert a + b == b;
    } else {
      var ab, tail := a + b, a[1..];
      assert ab[0] == a[0] && ab[1..] == tail + b;
      assert UniversalNewlines(ab) == [a[0]] + UniversalNewlines(tail + b);
      UniversalNewlinesPrefix(tail, b);
      assert [a[0]] + (tail + UniversalNewlines(b)) == ([a[0]] + tail) + UniversalNewlines(b);
      assert [a[0]] + tail == a;
    }
  }

  /** a line ended by "\r\n", or by a lone "\r", reads as if it were ended by "\n" */
  lemma LineEndings(line: string, rest: string)
    requires '\r' !in line && '\r' !in rest
    ensures UniversalNewlines(line + "\r\n" + rest) == line + "\n" + rest
    ensures (rest == [] || rest[0] != '\n') ==> UniversalNewlines(line + "\r" + rest) == line + "\n" + rest
  {
    var crlf, cr := "\r\n" + rest, "\r" + rest;
    assert line + "\r\n" + rest == line + crlf;
    assert line + "\r" + rest == line + cr;
    UniversalNewlinesPrefix(line, crlf);
    UniversalNewlinesPrefix(line, cr);
    assert crlf[2..] == rest && cr[1..] == rest;
    assert line + ("\n" + rest) == line + "\n" + rest;
  }

  /** a line holding neither line break comes back from its record line whole */
  lemma ReadOneLine(line: string, rest: string)
    requires '\n' !in line
    ensures ReadLine(line + "\n" + rest) == (line + "\n", rest)
  {
    var text := line + "\n" + rest;
    var r := ReadLine(text);
    assert text[|line|] == '\n';
    assert text[..|line| + 1] == line + "\n";
  }

  lemma TranslateSerialized(r: Snapshot)
    requires '\r' !in r.song && '\r' !in r.playlist
    ensures UniversalNewlines(Serialize(r)) == Serialize(r)
  {
    var v := IntToString(r.volume);
    assert '\r' !in v by {
      var a: nat := if r.volume < 0 then -r.volume else r.volume;
      var d := NatToString(a);
      assert v == (if r.volume < 0 then "-" + d else d);
    }
  }

  /** the round trip of the record: what Serialize writes, Load reads back,
      provided no field holds a line break and the playlist name does not end
      in whitespace. The song comes back as its Title, not as itself. */
  lemma LoadSerialized(r: Snapshot)
    requires '\n' !in r.song && '\r' !in r.song
    requires '\n' !in r.playlist && '\r' !in r.playlist
    requires Rstrip(r.playlist) == r.playlist
    ensures Load(Some(Serialize(r)), "") == Snapshot(Title(r.song), r.volume, r.playlist)
  {
    PersistRoundTrip(r, "");
    TitleIgnoresLineEnd(r.song, "\n");
  }

  /** the three lines of a written record, as readline returns them */
  lemma SerializedLines(r: Snapshot)
    requires '\n' !in r.song && '\r' !in r.song
    requires '\n' !in r.playlist && '\r' !in r.playlist
    ensures var first := ReadLine(UniversalNewlines(Serialize(r)));
            var second := ReadLine(first.1);
            && first.0 == r.song + "\n"
            && second.0 == IntToString(r.volume) + "\n"
            && ReadLine(second.1).0 == r.playlist + "\n"
  {
    TranslateSerialized(r);
    NoNewlineInNumber(r.volume);
    ThreeLines(r.song, IntToString(r.volume), r.playlist);
  }

  /** three lines without line breaks, each ended by one, read back one by one */
  lemma ThreeLines(a: string, b: string, c: string)
    requires '\n' !in a && '\n' !in b && '\n' !in c
    ensures var first := ReadLine(a + "\n" + b + "\n" + c + "\n");
            var second := ReadLine(first.1);
            && first.0 == a + "\n"
            && second.0 == b + "\n"
            && ReadLine(second.1).0 == c + "\n"
  {
    var rest2 := c + "\n";
    var rest1 := b + "\n" + rest2;
    Regroup(a, b, c);
    ReadOneLine(a, rest1);
    ReadOneLine(b, rest2);
    assert rest2 == c + "\n" + "";
    ReadOneLine(c, "");
  }

  lemma Regroup(a: string, b: string, c: string)
    ensures a + "\n" + b + "\n" + c + "\n" == a + "\n" + (b + "\n" + (c + "\n"))
  {
  }

  /** the volume line, as written, reads back as the same integer */
  lemma VolumeLine(v: int)
    ensures ParseInt(Rstrip(IntToString(v) + "\n")) == Some(v)
  {
    RstripAppendSpace(IntToString(v), "\n");
    NoSpaceInNumber(v);
    ParseIntToString(v);
  }

  lemma NoNewlineInNumber(v: int)
    ensures '\n' !in IntToString(v)
  {
    var s := IntToString(v);
    var a: nat := if v < 0 then -v else v;
    var d := NatToString(a);
  }

  lemma NoSpaceInNumber(v: int)
    ensures Rstrip(IntToString(v)) == IntToString(v)
  {
    var s := IntToString(v);
    var a: nat := if v < 0 then -v else v;
    var d := NatToString(a);
    assert s[|s| - 1] == d[|d| - 1];
  }

  /** the volume saved at exit reads back as the same integer and the playlist
      as the same name; the song is the live one when there is one, else the
      title of the saved line */
  lemma PersistRoundTrip(r: Snapshot, liveSong: string)
    requires '\n' !in r.song && '\r' !in r.song
    requires '\n' !in r.playlist && '\r' !in r.playlist
    requires Rstrip(r.playlist) == r.playlist
    ensures Load(Some(Serialize(r)), liveSong)
         == Snapshot(if liveSong == "" then Title(r.song + "\n") else liveSong, r.volume, r.playlist)
  {
    LoadSerializedFields(r, liveSong);
    RstripAppendSpace(r.playlist, "\n");
  }

  lemma LoadSerializedFields(r: Snapshot, liveSong: string)
    requires '\n' !in r.song && '\r' !in r.song
    requires '\n' !in r.playlist && '\r' !in r.playlist
    ensures Load(Some(Serialize(r)), liveSong)
         == Snapshot(if liveSong == "" then Title(r.song + "\n") else liveSong, r.volume,
                     Rstrip(r.playlist + "\n"))
  {
    SerializedLines(r);
    VolumeLine(r.volume);
    LoadWellFormed(Serialize(r), liveSong, r.song + "\n", IntToString(r.volume) + "\n",
                   r.playlist + "\n", r.volume);
  }

  /** without a record there is nothing to reconcile: all defaults */
  lemma LoadMissingRecord(liveSong: string)
    ensures Load(None, liveSong) == Snapshot("", 60, "all_songs")
  {
  }

  /** a volume line that is not an integer resets all three fields, even when
      the daemon reports a song: no partial mix */
  lemma LoadBadVolume(text: string, liveSong: string)
    requires ParseInt(Rstrip(ReadLine(ReadLine(UniversalNewlines(text)).1).0)) == None
    ensures Load(Some(text), liveSong) == Defaults
  {
  }

  /** when the record parses: a live song wins over line 1, otherwise line 1's
      title; the volume is line 2 as read, unclamped; the playlist is line 3 */
  lemma LoadWellFormed(text: string, liveSong: string, line1: string, line2: string, line3: string, v: int)
    requires var first := ReadLine(UniversalNewlines(text));
             var second := ReadLine(first.1);
             && first.0 == line1
             && second.0 == line2
             && ReadLine(second.1).0 == line3
    requires ParseInt(Rstrip(line2)) == Some(v)
    ensures Load(Some(text), liveSong)
         == Snapshot(if liveSong == "" then Title(line1) else liveSong, v, Rstrip(line3))
  {
  }

  /** the playlist name read back never ends in white space */
  lemma LoadPlaylistStripped(record: Option<string>, liveSong: string)
    ensures var p := Load(record, liveSong).playlist;
            p == [] || !IsSpace(p[|p| - 1])
  {
    var r := Load(record, liveSong);
    if r.playlist == DefaultPlaylist {
      assert DefaultPlaylist[|DefaultPlaylist| - 1] == 's';
    }
  }
}
