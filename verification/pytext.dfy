/**
 * The pieces of Python's `str` and `re` behaviour the alias resolver relies
 * on: `str.split()` with no separator, `str.partition(':')`,
 * `str.replace(' ', '+')` and `re.search(r"-- (.+)", s).group(1)`.
 */
module PyText {
  import opened Wrappers

  /**
   * The characters `str.split()` with no argument splits on: exactly those
   * for which `str.isspace()` holds.
   */
  predicate IsSpace(c: char) {
    || '\t' <= c <= '\r'
    || '\U{1C}' <= c <= '\U{1F}'
    || c == ' '
    || c == '\U{85}'
    || c == '\U{A0}'
    || c == '\U{1680}'
    || '\U{2000}' <= c <= '\U{200A}'
    || c == '\U{2028}'
    || c == '\U{2029}'
    || c == '\U{202F}'
    || c == '\U{205F}'
    || c == '\U{3000}'
  }

  /** A run of characters none of which is whitespace (possibly empty). */
  predicate NoSpace(s: string) {
    forall i :: 0 <= i < |s| ==> !IsSpace(s[i])
  }

  /** A token `str.split()` can produce: non-empty and free of whitespace. */
  predicate IsWord(s: string) {
    |s| > 0 && NoSpace(s)
  }

  /** The non-whitespace characters of `s`, in order. */
  function Strip(s: string): (r: string)
    ensures NoSpace(r)
    ensures |r| <= |s|
  {
    if |s| == 0 then ""
    else if IsSpace(s[0]) then Strip(s[1..])
    else [s[0]] + Strip(s[1..])
  }

  /** The concatenation of a sequence of strings. */
  function Concat(ss: seq<string>): string {
    if |ss| == 0 then "" else ss[0] + Concat(ss[1..])
  }

  /** `' '.join(words)`. */
  function JoinSpace(words: seq<string>): string {
    if |words| == 0 then ""
    else if |words| == 1 then words[0]
    else words[0] + " " + JoinSpace(words[1..])
  }

  /** `s.replace(' ', '+')`: every space becomes a plus sign, nothing else moves. */
  function ReplaceSpaces(s: string): (r: string)
    ensures |r| == |s|
    ensures forall i :: 0 <= i < |s| ==> r[i] == (if s[i] == ' ' then '+' else s[i])
  {
    if |s| == 0 then ""
    else [if s[0] == ' ' then '+' else s[0]] + ReplaceSpaces(s[1..])
  }

  /** When spaces are the only whitespace in `c`, replacing them leaves a single token. */
  lemma {:induction false} ReplaceSpacesWord(c: string)
    requires |c| > 0
    requires forall i :: 0 <= i < |c| ==> (IsSpace(c[i]) ==> c[i] == ' ')
    ensures IsWord(ReplaceSpaces(c))
  {
    var t := ReplaceSpaces(c);
    forall i | 0 <= i < |t|
      ensures !IsSpace(t[i])
    {
      if c[i] != ' ' {
        assert t[i] == c[i];
      }
    }
  }

  /**
   * Scans `s` for `str.split()`, `cur` being the token read so far: the
   * tokens are the maximal whitespace-free runs.
   */
  function SplitFrom(s: string, cur: string): (r: seq<string>)
    requires NoSpace(cur)
    ensures forall k :: 0 <= k < |r| ==> IsWord(r[k])
    ensures Concat(r) == cur + Strip(s)
    decreases |s|
  {
    if |s| == 0 then
      if |cur| == 0 then [] else [cur]
    else if IsSpace(s[0]) then
      var rest := SplitFrom(s[1..], "");
      if |cur| == 0 then rest
      else
        assert Concat([cur] + rest) == cur + Concat(rest);
        [cur] + rest
    else
      assert cur + [s[0]] + Strip(s[1..]) == cur + ([s[0]] + Strip(s[1..]));
      SplitFrom(s[1..], cur + [s[0]])
  }

  /** `s.split()`. */
  function Split(s: string): (r: seq<string>)
    ensures forall k :: 0 <= k < |r| ==> IsWord(r[k])
    ensures Concat(r) == Strip(s)
  {
    SplitFrom(s, "")
  }

  lemma {:induction false} SplitFromWord(w: string, rest: string, cur: string)
    requires NoSpace(cur) && NoSpace(w)
    ensures SplitFrom(w + rest, cur) == SplitFrom(rest, cur + w)
    decreases |w|
  {
    if |w| > 0 {
      assert (w + rest)[1..] == w[1..] + rest;
      assert cur + w == (cur + [w[0]]) + w[1..];
      SplitFromWord(w[1..], rest, cur + [w[0]]);
    } else {
      assert w + rest == rest && cur + w == cur;
    }
  }

  /** Splitting undoes a single-space join of words: the round trip of `split()` and `' '.join`. */
  lemma {:induction false} SplitJoinSpace(words: seq<string>)
    requires forall k :: 0 <= k < |words| ==> IsWord(words[k])
    ensures Split(JoinSpace(words)) == words
  {
    if |words| == 1 {
      SplitFromWord(words[0], "", "");
      assert words[0] + "" == words[0] && "" + words[0] == words[0];
    } else if |words| > 1 {
      var tail := JoinSpace(words[1..]);
      SplitFromWord(words[0], " " + tail, "");
      assert words[0] + " " + tail == words[0] + (" " + tail);
      assert "" + words[0] == words[0];
      assert (" " + tail)[1..] == tail;
      SplitJoinSpace(words[1..]);
      assert words == [words[0]] + words[1..];
    }
  }

  /** Leading whitespace produces no token: `split()` skips it. */
  lemma {:induction false} SplitSkipSpace(ws: string, rest: string)
    requires forall i :: 0 <= i < |ws| ==> IsSpace(ws[i])
    ensures Split(ws + rest) == Split(rest)
    decreases |ws|
  {
    if |ws| > 0 {
      assert (ws + rest)[0] == ws[0];
      assert (ws + rest)[1..] == ws[1..] + rest;
      SplitSkipSpace(ws[1..], rest);
    } else {
      assert ws + rest == rest;
    }
  }

  /**
   * Any non-empty run of whitespace ends a token, whichever whitespace
   * characters it holds: a word followed by such a run is the first token.
   */
  lemma {:induction false} SplitSep(w: string, sep: string, rest: string)
    requires IsWord(w)
    requires |sep| > 0 && forall i :: 0 <= i < |sep| ==> IsSpace(sep[i])
    ensures Split(w + sep + rest) == [w] + Split(rest)
  {
    SplitFromWord(w, sep + rest, "");
    assert w + sep + rest == w + (sep + rest);
    assert "" + w == w;
    assert (sep + rest)[0] == sep[0];
    assert (sep + rest)[1..] == sep[1..] + rest;
    SplitSkipSpace(sep[1..], rest);
  }

  /** A whitespace-free string splits into itself alone. */
  lemma {:induction false} SplitWord(w: string)
    requires IsWord(w)
    ensures Split(w) == [w]
  {
    SplitJoinSpace([w]);
  }

  /**
   * `t.partition(':')`: the text before the first colon, the colon, and the
   * text after it; `(t, "", "")` when there is no colon.
   */
  function PartitionColon(t: string): (r: (string, string, string))
    ensures r.0 + r.1 + r.2 == t
    ensures ':' !in r.0
    ensures r.1 == ":" <==> ':' in t
    ensures ':' !in t ==> r == (t, "", "")
  {
    if |t| == 0 then ("", "", "")
    else if t[0] == ':' then ("", ":", t[1..])
    else
      var p := PartitionColon(t[1..]);
      assert t == [t[0]] + t[1..];
      ([t[0]] + p.0, p.1, p.2)
  }

  /** The partition happens at the first colon, wherever it is. */
  lemma PartitionColonAt(t: string, k: nat)
    requires k < |t| && t[k] == ':' && ':' !in t[..k]
    ensures PartitionColon(t) == (t[..k], ":", t[k + 1..])
  {
    var r := PartitionColon(t);
    assert ':' in t;
    assert t == r.0 + ":" + r.2;
    assert forall i :: 0 <= i < |r.0| ==> t[i] == r.0[i] != ':';
    assert forall i :: 0 <= i < k ==> t[i] == t[..k][i] != ':';
    assert t[|r.0|] == ':';
    assert |r.0| == k;
    assert r.0 == t[..k] && r.2 == t[k + 1..];
  }

  /** Printable ASCII other than the space is never whitespace. */
  lemma PrintableIsWord(s: string)
    requires |s| > 0
    requires forall i :: 0 <= i < |s| ==> '!' <= s[i] <= '~'
    ensures IsWord(s)
  {
  }

  /** `re.search(r"-- (.+)", s)` can start a match at `i`: `.` matches anything but a newline. */
  predicate MarkerAt(s: string, i: int) {
    0 <= i && i + 3 < |s| && s[i] == '-' && s[i + 1] == '-' && s[i + 2] == ' ' && s[i + 3] != '\n'
  }

  /** The leftmost position at or after `i` where a match can start. */
  function FindMarker(s: string, i: nat): (r: Option<nat>)
    requires i <= |s|
    ensures r.None? ==> forall j :: i <= j < |s| ==> !MarkerAt(s, j)
    ensures r.Some? ==> i <= r.value && MarkerAt(s, r.value)
    ensures r.Some? ==> forall j :: i <= j < r.value ==> !MarkerAt(s, j)
    decreases |s| - i
  {
    if i == |s| then None
    else if MarkerAt(s, i) then Some(i)
    else FindMarker(s, i + 1)
  }

  /** What the greedy `.+` takes from position `i`: everything up to the next newline or the end. */
  function LineFrom(s: string, i: nat): (r: string)
    requires i <= |s|
    ensures i + |r| <= |s| && s[i..i + |r|] == r
    ensures '\n' !in r
    ensures i + |r| == |s| || s[i + |r|] == '\n'
    decreases |s| - i
  {
    if i == |s| || s[i] == '\n' then ""
    else
      var rest := LineFrom(s, i + 1);
      assert s[i..i + 1 + |rest|] == [s[i]] + s[i + 1..i + 1 + |rest|];
      [s[i]] + rest
  }

  /** `re.search(r"-- (.+)", s).group(1)`, or `None` when the search fails. */
  function SearchTargetArg(s: string): (r: Option<string>)
    ensures r.None? <==> forall i :: 0 <= i < |s| ==> !MarkerAt(s, i)
    ensures r.Some? ==> exists i ::
      && MarkerAt(s, i)
      && (forall j :: 0 <= j < i ==> !MarkerAt(s, j))
      && i + 3 + |r.value| <= |s| && r.value == s[i + 3..i + 3 + |r.value|]
      && (i + 3 + |r.value| == |s| || s[i + 3 + |r.value|] == '\n')
    ensures r.Some? ==> |r.value| > 0 && '\n' !in r.value
  {
    match FindMarker(s, 0)
    case None => None
    case Some(i) =>
      var c := LineFrom(s, i + 3);
      assert c[0] == s[i + 3];
      Some(c)
  }
}
