/**
 * String helpers with the meaning of the Python and JavaScript built-ins the
 * core uses: strip()/trim(), split('\n'), split() on whitespace, lower(),
 * `in`, startswith()/endswith() and join.  Whitespace is the six ASCII
 * characters space, \t, \n, \r, \v and \f, the ASCII whitespace of
 * JavaScript's trim(); Python's str methods also treat \x1c-\x1f and
 * Unicode spaces as whitespace, which this set leaves out.  Lower-casing
 * is ASCII only.
 */
module Text {

  predicate IsSpace(c: char) {
    c == ' ' || c == '\t' || c == '\n' || c == '\r' || c == '\U{B}' || c == '\U{C}'
  }

  /** Every character of s is whitespace (this includes the empty string). */
  predicate IsBlank(s: string) {
    forall i :: 0 <= i < |s| ==> IsSpace(s[i])
  }

  predicate IsAsciiDigit(c: char) { '0' <= c <= '9' }
  predicate IsAsciiLetter(c: char) { 'a' <= c <= 'z' || 'A' <= c <= 'Z' }
  predicate IsAsciiAlnum(c: char) { IsAsciiDigit(c) || IsAsciiLetter(c) }

  /** Drops leading whitespace. */
  function TrimLeft(s: string): (r: string)
    ensures |r| <= |s| && r == s[|s| - |r|..]
    ensures r == [] || !IsSpace(r[0])
    ensures IsBlank(s[..|s| - |r|])
  {
    if s == [] || !IsSpace(s[0]) then s
    else
      var r := TrimLeft(s[1..]);
      assert s[1..][..|s[1..]| - |r|] == s[1..|s| - |r|];
      r
  }

  /** Drops trailing whitespace. */
  function TrimRight(s: string): (r: string)
    ensures |r| <= |s| && r == s[..|r|]
    ensures r == [] || !IsSpace(r[|r| - 1])
    ensures IsBlank(s[|r|..])
  {
    if s == [] || !IsSpace(s[|s| - 1]) then s
    else
      var r := TrimRight(s[..|s| - 1]);
      assert s[..|s| - 1][|r|..] == s[|r|..|s| - 1];
      r
  }

  /** Python's str.strip() with no argument; JavaScript's String.prototype.trim(). */
  function Strip(s: string): (r: string)
    ensures |r| <= |s|
    ensures r == [] || (!IsSpace(r[0]) && !IsSpace(r[|r| - 1]))
    ensures r == [] <==> IsBlank(s)
  {
    var t := TrimLeft(s);
    var r := TrimRight(t);
    assert r == [] ==> IsBlank(s) by {
      if r == [] {
        assert t[|r|..] == t;
        assert s[..|s| - |t|] == s;
      }
    }
    assert r != [] ==> !IsBlank(s) by {
      if r != [] {
        assert s[|s| - |t|] == t[0] == r[0];
      }
    }
    r
  }

  /** A string with no whitespace at either end is its own strip(). */
  lemma StripTrimmed(s: string)
    requires s == [] || (!IsSpace(s[0]) && !IsSpace(s[|s| - 1]))
    ensures Strip(s) == s
  {
  }

  predicate StartsWith(s: string, prefix: string) {
    |prefix| <= |s| && s[..|prefix|] == prefix
  }

  predicate EndsWith(s: string, suffix: string) {
    |suffix| <= |s| && s[|s| - |suffix|..] == suffix
  }

  /** Putting anything in front of a string keeps its ending. */
  lemma EndsWithAfterPrefix(prefix: string, s: string, suffix: string)
    requires EndsWith(s, suffix)
    ensures EndsWith(prefix + s, suffix)
  {
    var t := prefix + s;
    assert t[|t| - |suffix|..] == s[|s| - |suffix|..];
  }

  /** Python's `sub in s`, JavaScript's s.includes(sub). */
  predicate Contains(s: string, sub: string)
    decreases |s|
  {
    StartsWith(s, sub) || (s != [] && Contains(s[1..], sub))
  }

  /** The position of the first occurrence of c in s, or |s| when there is none. */
  function IndexOf<T(==)>(s: seq<T>, c: T): (i: nat)
    ensures i <= |s|
    ensures i < |s| ==> s[i] == c
    ensures forall j :: 0 <= j < i ==> s[j] != c
  {
    if s == [] then 0
    else if s[0] == c then 0
    else 1 + IndexOf(s[1..], c)
  }

  /** s.split(sep) for a one-character separator, as in Python and JavaScript. */
  function SplitOn(s: string, sep: char): (parts: seq<string>)
    ensures |parts| >= 1
    decreases |s|
  {
    var i := IndexOf(s, sep);
    if i == |s| then [s]
    else [s[..i]] + SplitOn(s[i + 1..], sep)
  }

  /** output.split('\n') */
  function Lines(s: string): (lines: seq<string>)
    ensures |lines| >= 1
  {
    SplitOn(s, '\n')
  }

  /** Splitting a newline-joined list of newline-free lines gives the lines back. */
  lemma {:induction false} SplitJoin(xs: seq<string>)
    requires |xs| >= 1
    requires forall k :: 0 <= k < |xs| ==> '\n' !in xs[k]
    ensures SplitOn(Join(xs, "\n"), '\n') == xs
  {
    var s := Join(xs, "\n");
    var i := IndexOf(s, '\n');
    if |xs| == 1 {
      assert i == |s|;
    } else {
      assert s == xs[0] + "\n" + Join(xs[1..], "\n");
      assert s[|xs[0]|] == '\n';
      assert i == |xs[0]|;
      assert s[..i] == xs[0];
      assert s[i + 1..] == Join(xs[1..], "\n");
      SplitJoin(xs[1..]);
      assert xs == [xs[0]] + xs[1..];
    }
  }

  /** Joining the pieces of a split with the separator gives the string back. */
  lemma {:induction false} JoinSplit(s: string, sep: char)
    ensures Join(SplitOn(s, sep), [sep]) == s
    decreases |s|
  {
    var i := IndexOf(s, sep);
    if i < |s| {
      var rest := SplitOn(s[i + 1..], sep);
      assert SplitOn(s, sep) == [s[..i]] + rest;
      JoinSplit(s[i + 1..], sep);
      assert ([s[..i]] + rest)[1..] == rest;
      assert s == s[..i] + [sep] + s[i + 1..];
    }
  }

  /** Whitespace pieces joined by whitespace are whitespace. */
  lemma {:induction false} JoinBlank(parts: seq<string>, sep: string)
    requires IsBlank(sep)
    requires forall k :: 0 <= k < |parts| ==> IsBlank(parts[k])
    ensures IsBlank(Join(parts, sep))
  {
    if |parts| > 1 {
      JoinBlank(parts[1..], sep);
      var tail := Join(parts[1..], sep);
      var whole := parts[0] + sep + tail;
      assert forall j :: 0 <= j < |whole| ==> IsSpace(whole[j]) by {
        forall j | 0 <= j < |whole|
          ensures IsSpace(whole[j])
        {
          if j < |parts[0]| {
            assert whole[j] == parts[0][j];
          } else if j < |parts[0]| + |sep| {
            assert whole[j] == sep[j - |parts[0]|];
          } else {
            assert whole[j] == tail[j - |parts[0]| - |sep|];
          }
        }
      }
    }
  }

  /** The longest prefix of s that contains no whitespace. */
  function TakeWord(s: string): (w: string)
    ensures |w| <= |s| && w == s[..|w|]
    ensures forall j :: 0 <= j < |w| ==> !IsSpace(w[j])
    ensures |w| < |s| ==> IsSpace(s[|w|])
  {
    if s == [] || IsSpace(s[0]) then [] else [s[0]] + TakeWord(s[1..])
  }

  /** Python's str.split() with no argument: the maximal runs of non-whitespace. */
  function Words(s: string): (ws: seq<string>)
    ensures forall k :: 0 <= k < |ws| ==> ws[k] != []
    ensures forall k, j :: 0 <= k < |ws| && 0 <= j < |ws[k]| ==> !IsSpace(ws[k][j])
    decreases |s|
  {
    if s == [] then []
    else if IsSpace(s[0]) then Words(s[1..])
    else
      var w := TakeWord(s);
      assert w != [] && w[0] == s[0];
      [w] + Words(s[|w|..])
  }

  /** Python's str.lower() and JavaScript's toLowerCase(), on ASCII letters. */
  function Lower(s: string): (r: string)
    ensures |r| == |s|
    ensures forall j :: 0 <= j < |s| ==> r[j] == LowerChar(s[j])
  {
    if s == [] then [] else [LowerChar(s[0])] + Lower(s[1..])
  }

  function LowerChar(c: char): char {
    if 'A' <= c <= 'Z' then (c as int - 'A' as int + 'a' as int) as char else c
  }

  /** sep.join(parts) */
  function Join(parts: seq<string>, sep: string): string {
    if parts == [] then []
    else if |parts| == 1 then parts[0]
    else parts[0] + sep + Join(parts[1..], sep)
  }

  /** Keeps the characters for which keep holds, in order. */
  function FilterChars(s: string, keep: char -> bool): (r: string)
    ensures |r| <= |s|
    ensures forall j :: 0 <= j < |r| ==> keep(r[j])
  {
    if s == [] then []
    else (if keep(s[0]) then [s[0]] else []) + FilterChars(s[1..], keep)
  }
}
