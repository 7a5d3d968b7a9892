/** Extracting a song title from a line of `mpc current` output, which reads
    "<artist> - <title>". The player cuts at the FIRST `-` (not at " - ") and keeps
    everything from two characters after it; with no `-` at all, `find` gives -1
    and the cut falls after the first character. The code does this in two orders:
    slice then strip (lastSong) and strip then slice (readSongPlayerConfig,
    writeSongPlayerTxt); TitleOrdersAgree shows they always agree. */
module Titles {
  import opened Text

  /** Slice, then strip: the title `lastSong` takes from the first line it reads. */
  function LiveTitle(line: string): (r: string)
    ensures r == [] || !IsSpace(r[|r| - 1])
  {
    Rstrip(SliceFrom(line, Find(line, '-') + 2))
  }

  /** Strip, then slice: the title taken from a record's first line or from the
      output captured at exit. */
  function Title(s: string): (r: string)
    ensures |r| <= |Rstrip(s)| && r == Rstrip(s)[|Rstrip(s)| - |r|..]
    ensures r == [] || !IsSpace(r[|r| - 1])
  {
    var t := Rstrip(s);
    SliceFrom(t, Find(t, '-') + 2)
  }

  /** both orders give the same title, for every input */
  lemma TitleOrdersAgree(s: string)
    ensures LiveTitle(s) == Title(s)
  {
    var t := Rstrip(s);
    FindIgnoresTrailingSpace(s);
    var i := Find(s, '-') + 2;
    if i <= |t| {
      SliceInsideStripped(s, i);
    } else {
      SlicePastStripped(s, i);
    }
  }

  /** a cut inside the stripped text: stripping the cut removes exactly the
      trailing whitespace */
  lemma SliceInsideStripped(s: string, i: nat)
    requires i <= |Rstrip(s)|
    ensures Rstrip(SliceFrom(s, i)) == SliceFrom(Rstrip(s), i)
  {
    var t := Rstrip(s);
    var head, tail := t[i..], s[|t|..];
    assert s[i..] == head + tail;
    forall k | 0 <= k < |tail| ensures IsSpace(tail[k]) {
      assert tail[k] == s[|t| + k];
    }
    RstripAppendSpace(head, tail);
    assert head == [] || head[|head| - 1] == t[|t| - 1];
    EndsWithoutSpaceUnstripped(head);
  }

  /** a cut past the stripped text leaves only whitespace, which strips to nothing */
  lemma SlicePastStripped(s: string, i: nat)
    requires i > |Rstrip(s)|
    ensures Rstrip(SliceFrom(s, i)) == []
  {
    var rest := SliceFrom(s, i);
    var t := Rstrip(s);
    forall k | 0 <= k < |rest| ensures IsSpace(rest[k]) {
      assert rest[k] == s[i + k];
    }
    AllSpaceStripsToEmpty(rest);
  }

  /** the first `-` never lies in the whitespace that rstrip removes */
  lemma FindIgnoresTrailingSpace(s: string)
    ensures Find(Rstrip(s), '-') == Find(s, '-')
  {
    var t := Rstrip(s);
    var i, j := Find(s, '-'), Find(t, '-');
    assert !IsSpace('-');
    if j >= 0 {
      assert s[..j] == t[..j];
    }
  }

  lemma EndsWithoutSpaceUnstripped(s: string)
    requires s == [] || !IsSpace(s[|s| - 1])
    ensures Rstrip(s) == s
  {
  }

  lemma AllSpaceStripsToEmpty(s: string)
    requires forall k :: 0 <= k < |s| ==> IsSpace(s[k])
    ensures Rstrip(s) == []
  {
  }

  /** a line end (or any trailing whitespace) does not change the title */
  lemma TitleIgnoresLineEnd(s: string, end: string)
    requires forall i :: 0 <= i < |end| ==> IsSpace(end[i])
    ensures Title(s + end) == Title(s)
  {
    RstripAppendSpace(s, end);
  }

  /** the title runs from two characters past the first hyphen, stripped */
  lemma TitleAfterFirstHyphen(s: string, k: nat)
    requires k < |s| && s[k] == '-' && '-' !in s[..k]
    ensures Title(s) == Rstrip(SliceFrom(s, k + 2))
  {
    TitleOrdersAgree(s);
  }

  /** with no hyphen at all, the title is the input without its first
      character (stripped), and the empty input gives the empty title */
  lemma TitleWithoutHyphen(s: string)
    requires '-' !in s
    ensures s == [] ==> Title(s) == []
    ensures s != [] ==> Title(s) == Rstrip(s[1..])
  {
    TitleOrdersAgree(s);
  }

  /** the usual "<artist> - <title>" line, with its line end: the title comes back
      whole, provided the artist's name holds no hyphen */
  lemma TitleOfArtistAndSong(artist: string, song: string, end: string)
    requires '-' !in artist
    requires song == [] || !IsSpace(song[|song| - 1])
    requires forall i :: 0 <= i < |end| ==> IsSpace(end[i])
    ensures Title(artist + " - " + song + end) == song
  {
    var s := artist + " - " + song + end;
    var k := |artist| + 1;
    ArtistLineParts(artist, song + end);
    assert artist + " - " + (song + end) == s;
    TitleAfterFirstHyphen(s, k);
    RstripAppendSpace(song, end);
    EndsWithoutSpaceUnstripped(song);
  }

  /** where the parts of "<artist> - <rest>" sit in the line */
  lemma ArtistLineParts(artist: string, rest: string)
    ensures var s, k := artist + " - " + rest, |artist| + 1;
            s[..k] == artist + " " && s[k] == '-' && SliceFrom(s, k + 2) == rest
  {
    var s, k := artist + " - " + rest, |artist| + 1;
    assert s[..k] == artist + " ";
    assert s[k + 2..] == rest;
  }

  /** extracting twice is not extracting once: a title without a hyphen loses
      its first character the second time */
  lemma TitleTwiceDropsFirstCharacter(artist: string, song: string)
    requires '-' !in artist && '-' !in song
    requires song != [] && !IsSpace(song[|song| - 1])
    ensures Title(Title(artist + " - " + song)) == Rstrip(song[1..])
  {
    TitleOfArtistAndSong(artist, song, "");
    assert artist + " - " + song + "" == artist + " - " + song;
    TitleWithoutHyphen(song);
  }
}
