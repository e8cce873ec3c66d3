/** The functions of Go's strings package that the router and the demo
    server call, over strings as sequences of runes. */
module GoStrings {

  /** strings.Index(s, string(c)): the index of the first c, or -1. */
  function IndexOf(s: string, c: char): (i: int)
    ensures -1 <= i < |s|
    ensures i == -1 <==> c !in s
    ensures 0 <= i ==> s[i] == c && c !in s[..i]
  {
    assert s[0..] == s;
    IndexFrom(s, c, 0)
  }

  /** The index of the first c at or after k, or -1. */
  function IndexFrom(s: string, c: char, k: nat): (i: int)
    requires k <= |s|
    ensures -1 <= i < |s|
    ensures i == -1 <==> c !in s[k..]
    ensures 0 <= i ==> k <= i && s[i] == c && c !in s[k..i]
    decreases |s| - k
  {
    if k == |s| then -1
    else if s[k] == c then k
    else
      var i := IndexFrom(s, c, k + 1);
      assert s[k..] == [s[k]] + s[k + 1..];
      assert 0 <= i ==> s[k..i] == [s[k]] + s[k + 1..i];
      i
  }

  /** unicode.ToLower on one rune: ASCII and Latin-1 capitals, plus the two
      non-ASCII runes whose lower case is ASCII (U+0130 and the Kelvin sign). */
  function LowerRune(c: char): char
  {
    if 'A' <= c <= 'Z' then (c as int + 32) as char
    else if '\U{00C0}' <= c <= '\U{00DE}' && c != '\U{00D7}' then (c as int + 32) as char
    else if c == '\U{0130}' then 'i'
    else if c == '\U{212A}' then 'k'
    else c
  }

  /** strings.ToLower */
  function ToLower(s: string): (r: string)
    ensures |r| == |s|
    ensures forall i | 0 <= i < |s| :: r[i] == LowerRune(s[i])
  {
    if |s| == 0 then ""
    else
      var r := [LowerRune(s[0])] + ToLower(s[1..]);
      assert forall i | 1 <= i < |s| :: r[i] == LowerRune(s[1..][i - 1]);
      r
  }

  lemma LowerRuneIdempotent(c: char)
    ensures LowerRune(LowerRune(c)) == LowerRune(c)
  {
  }

  /** Lower-casing twice is lower-casing once. */
  lemma ToLowerIdempotent(s: string)
    ensures ToLower(ToLower(s)) == ToLower(s)
  {
    forall i | 0 <= i < |s| ensures ToLower(ToLower(s))[i] == ToLower(s)[i] {
      LowerRuneIdempotent(s[i]);
    }
  }

  /** strings.Split(s, string(sep)): the pieces between separators; always at
      least one piece, none containing sep. */
  function Split(s: string, sep: char): (parts: seq<string>)
    ensures |parts| >= 1
    ensures forall k | 0 <= k < |parts| :: sep !in parts[k]
    decreases |s|
  {
    if |s| == 0 then [""]
    else if s[0] == sep then [""] + Split(s[1..], sep)
    else
      var rest := Split(s[1..], sep);
      [[s[0]] + rest[0]] + rest[1..]
  }

  /** strings.Join(parts, string(sep)) */
  function Join(parts: seq<string>, sep: char): string
  {
    if |parts| == 0 then ""
    else if |parts| == 1 then parts[0]
    else parts[0] + [sep] + Join(parts[1..], sep)
  }

  /** Joining the pieces of a split gives back the original string. */
  lemma {:induction false} JoinSplit(s: string, sep: char)
    ensures Join(Split(s, sep), sep) == s
    decreases |s|
  {
    if |s| == 0 {
    } else if s[0] == sep {
      JoinSplit(s[1..], sep);
      var rest := Split(s[1..], sep);
      assert Split(s, sep) == [""] + rest;
      assert s == "" + [sep] + s[1..];
    } else {
      JoinSplit(s[1..], sep);
      var rest := Split(s[1..], sep);
      var parts := Split(s, sep);
      assert parts[1..] == rest[1..];
      if |rest| == 1 {
        assert s == [s[0]] + rest[0];
      } else {
        assert Join(rest, sep) == rest[0] + [sep] + Join(rest[1..], sep);
        assert s == [s[0]] + s[1..];
      }
    }
  }

  lemma JoinCons(head: string, rest: seq<string>, sep: char)
    requires |rest| >= 1
    ensures Join([head] + rest, sep) == head + [sep] + Join(rest, sep)
  {
    assert ([head] + rest)[1..] == rest;
  }

  /** strings.SplitN(s, string(sep), n) for n > 0: at most n pieces, the last
      holding the unsplit remainder. */
  function SplitN(s: string, sep: char, n: nat): (parts: seq<string>)
    requires n > 0
    ensures 1 <= |parts| <= n
    decreases n
  {
    if n == 1 then [s]
    else
      var i := IndexOf(s, sep);
      if i == -1 then [s]
      else [s[..i]] + SplitN(s[i + 1..], sep, n - 1)
  }

  /** Pieces as SplitN with limit n cuts them: no separator in any piece
      but the last, and none in the last either unless all n were used. */
  predicate CutAtSeparators(parts: seq<string>, sep: char, n: nat)
  {
    && (forall k | 0 <= k < |parts| - 1 :: sep !in parts[k])
    && (0 < |parts| < n ==> sep !in parts[|parts| - 1])
  }

  /** Only the last of SplitN's pieces can hold a separator, and only when
      all n pieces were used. */
  lemma {:induction false} SplitNPieces(s: string, sep: char, n: nat)
    requires n > 0
    ensures CutAtSeparators(SplitN(s, sep, n), sep, n)
    decreases n
  {
    var i := IndexOf(s, sep);
    if n > 1 && i != -1 {
      var head, tail := s[..i], s[i + 1..];
      SplitNPieces(tail, sep, n - 1);
      CutAtSeparatorsCons(head, SplitN(tail, sep, n - 1), sep, n);
      assert SplitN(s, sep, n) == [head] + SplitN(tail, sep, n - 1);
    } else {
      assert SplitN(s, sep, n) == [s];
    }
  }

  /** A separator-free piece in front of a cut with limit n - 1 gives a cut
      with limit n. */
  lemma CutAtSeparatorsCons(head: string, rest: seq<string>, sep: char, n: nat)
    requires n > 1 && sep !in head && |rest| >= 1 && CutAtSeparators(rest, sep, n - 1)
    ensures CutAtSeparators([head] + rest, sep, n)
  {
    var parts := [head] + rest;
    assert forall k | 1 <= k < |parts| :: parts[k] == rest[k - 1];
  }

  /** Joining SplitN's pieces gives back the string. */
  lemma {:induction false} JoinSplitN(s: string, sep: char, n: nat)
    requires n > 0
    ensures Join(SplitN(s, sep, n), sep) == s
    decreases n
  {
    var i := IndexOf(s, sep);
    if n > 1 && i != -1 {
      JoinSplitN(s[i + 1..], sep, n - 1);
      JoinSplitNStep(s, sep, n, i);
    } else {
      assert SplitN(s, sep, n) == [s];
    }
  }

  /** The step of JoinSplitN: the piece before the first separator. */
  lemma JoinSplitNStep(s: string, sep: char, n: nat, i: nat)
    requires n > 1 && i < |s| && i == IndexOf(s, sep)
    requires Join(SplitN(s[i + 1..], sep, n - 1), sep) == s[i + 1..]
    ensures Join(SplitN(s, sep, n), sep) == s
  {
    var head, tail := s[..i], s[i + 1..];
    var rest := SplitN(tail, sep, n - 1);
    assert SplitN(s, sep, n) == [head] + rest;
    JoinCons(head, rest, sep);
    assert s == head + [sep] + tail;
  }

  /** The first c is at i when s[i] is c and no c comes before it. */
  lemma IndexOfAt(s: string, c: char, i: nat)
    requires i < |s| && s[i] == c && c !in s[..i]
    ensures IndexOf(s, c) == i
  {
  }

  /** SplitN cuts at the first separator and splits the remainder into one
      piece fewer. */
  lemma SplitNCons(head: string, tail: string, sep: char, n: nat)
    requires n > 1 && sep !in head
    ensures SplitN(head + [sep] + tail, sep, n) == [head] + SplitN(tail, sep, n - 1)
  {
    var s := head + [sep] + tail;
    assert s[..|head|] == head && s[|head|] == sep && s[|head| + 1..] == tail;
    IndexOfAt(s, sep, |head|);
  }

  /** SplitN undoes Join: pieces that could have come out of SplitN come
      back unchanged. */
  lemma {:induction false} SplitNJoin(parts: seq<string>, sep: char, n: nat)
    requires n > 0 && 1 <= |parts| <= n
    requires CutAtSeparators(parts, sep, n)
    ensures SplitN(Join(parts, sep), sep, n) == parts
    decreases n
  {
    if n > 1 && |parts| > 1 {
      var rest := parts[1..];
      assert CutAtSeparators(rest, sep, n - 1) by {
        assert forall k | 0 <= k < |rest| :: rest[k] == parts[k + 1];
      }
      SplitNJoin(rest, sep, n - 1);
      SplitNJoinStep(parts, sep, n);
    } else {
      assert Join(parts, sep) == parts[0];
      assert parts == [parts[0]];
    }
  }

  /** The inductive step of SplitNJoin: one more piece in front. */
  lemma SplitNJoinStep(parts: seq<string>, sep: char, n: nat)
    requires n > 1 && |parts| > 1 && sep !in parts[0]
    requires SplitN(Join(parts[1..], sep), sep, n - 1) == parts[1..]
    ensures SplitN(Join(parts, sep), sep, n) == parts
  {
    var rest := parts[1..];
    assert parts == [parts[0]] + rest;
    JoinCons(parts[0], rest, sep);
    SplitNCons(parts[0], Join(rest, sep), sep, n);
  }

  /** The runes unicode.IsSpace accepts. */
  const SpaceRunes: set<char> := {
    '\t', '\n', '\U{000B}', '\U{000C}', '\r', ' ', '\U{0085}', '\U{00A0}', '\U{1680}',
    '\U{2000}', '\U{2001}', '\U{2002}', '\U{2003}', '\U{2004}', '\U{2005}', '\U{2006}',
    '\U{2007}', '\U{2008}', '\U{2009}', '\U{200A}',
    '\U{2028}', '\U{2029}', '\U{202F}', '\U{205F}', '\U{3000}'
  }

  /** unicode.IsSpace */
  predicate IsSpace(c: char)
  {
    c in SpaceRunes
  }

  predicate AllSpace(s: string)
  {
    forall i | 0 <= i < |s| :: IsSpace(s[i])
  }

  /** The first index at or after i whose rune is not white space, or |s|. */
  function SkipSpace(s: string, i: nat): (j: nat)
    requires i <= |s|
    ensures i <= j <= |s|
    ensures forall k | i <= k < j :: IsSpace(s[k])
    ensures j < |s| ==> !IsSpace(s[j])
    decreases |s| - i
  {
    if i < |s| && IsSpace(s[i]) then SkipSpace(s, i + 1) else i
  }

  /** The end of s[lo..j] once the white space at its end is dropped. */
  function DropSpace(s: string, lo: nat, j: nat): (k: nat)
    requires lo <= j <= |s|
    ensures lo <= k <= j
    ensures forall m | k <= m < j :: IsSpace(s[m])
    ensures k > lo ==> !IsSpace(s[k - 1])
    decreases j
  {
    if j > lo && IsSpace(s[j - 1]) then DropSpace(s, lo, j - 1) else j
  }

  /** strings.TrimSpace: the middle of s, with the white space at both ends
      removed and nothing else. */
  function TrimSpace(s: string): (r: string)
    ensures exists i, j | 0 <= i <= j <= |s| ::
      && r == s[i..j]
      && (forall k | 0 <= k < i :: IsSpace(s[k]))
      && (forall k | j <= k < |s| :: IsSpace(s[k]))
    ensures r == "" || (!IsSpace(r[0]) && !IsSpace(r[|r| - 1]))
    ensures r == "" <==> AllSpace(s)
  {
    var i := SkipSpace(s, 0);
    var j := DropSpace(s, i, |s|);
    assert i < |s| ==> j > i;
    s[i..j]
  }

  /** strings.ContainsAny(s, chars) */
  function ContainsAny(s: string, chars: string): (b: bool)
    ensures b <==> exists i | 0 <= i < |s| :: s[i] in chars
  {
    if |s| == 0 then false
    else if s[0] in chars then true
    else
      var b := ContainsAny(s[1..], chars);
      assert forall i | 1 <= i < |s| :: s[i] == s[1..][i - 1];
      b
  }
}
