/** The handful of Python string operations the player's logic is built from:
    `str.isspace`, `str.rstrip()`, `str.find`, the slice `s[i:]`,
    `str.endswith` and `os.path.join`. */
module Text {

  /** Python's `str.isspace` for a single character. */
  predicate IsSpace(c: char) {
    ('\t' <= c <= '\r') || ('\U{1C}' <= c <= '\U{1F}') || c == ' ' ||
    c == '\U{85}' || c == '\U{A0}' || c == '\U{1680}' ||
    ('\U{2000}' <= c <= '\U{200A}') || c == '\U{2028}' || c == '\U{2029}' ||
    c == '\U{202F}' || c == '\U{205F}' || c == '\U{3000}'
  }

  /** `s.rstrip()`: the longest prefix of `s` that does not end in whitespace. */
  function Rstrip(s: string): (r: string)
    ensures r <= s
    ensures forall i :: |r| <= i < |s| ==> IsSpace(s[i])
    ensures r == [] || !IsSpace(r[|r| - 1])
  {
    if s == [] then []
    else if IsSpace(s[|s| - 1]) then Rstrip(s[..|s| - 1])
    else s
  }

  /** `s.find(c)`: the index of the first `c` in `s`, or -1 when there is none. */
  function Find(s: string, c: char): (i: int)
    ensures -1 <= i < |s|
    ensures i == -1 <==> c !in s
    ensures 0 <= i ==> s[i] == c && c !in s[..i]
  {
    if s == [] then -1
    else if s[0] == c then 0
    else
      var j := Find(s[1..], c);
      assert s == [s[0]] + s[1..];
      if j == -1 then -1
      else
        assert s[..j + 1] == [s[0]] + s[1..][..j];
        j + 1
  }

  /** The Python slice `s[i:]` for a non-negative start: empty once `i` passes the end. */
  function SliceFrom(s: string, i: nat): string {
    if i <= |s| then s[i..] else []
  }

  /** `s.endswith(suffix)`. */
  predicate EndsWith(s: string, suffix: string) {
    |suffix| <= |s| && s[|s| - |suffix|..] == suffix
  }

  /** `os.path.join(a, b)` on POSIX paths: an absolute `b` replaces `a`; otherwise
      one `/` separates them unless `a` is empty or already ends in one. */
  function JoinPath(a: string, b: string): string {
    if |b| > 0 && b[0] == '/' then b
    else if a == [] || a[|a| - 1] == '/' then a + b
    else a + "/" + b
  }

  /** stripping whitespace from the right never touches a non-whitespace tail */
  lemma {:induction false} RstripAppendSpace(s: string, w: string)
    requires forall i :: 0 <= i < |w| ==> IsSpace(w[i])
    ensures Rstrip(s + w) == Rstrip(s)
  {
    if w != [] {
      var u := w[..|w| - 1];
      assert (s + w)[..|s + w| - 1] == s + u;
      RstripAppendSpace(s, u);
    } else {
      assert s + w == s;
    }
  }
}
