/** The .NET string operations the handlers rely on: `Trim()` and
    `Split(';', StringSplitOptions.TrimEntries)`. */
module Text {

  /** `char.IsWhiteSpace`: the Unicode space separators, line and paragraph
      separators, and the control characters U+0009 to U+000D and U+0085. */
  predicate IsWhiteSpace(c: char) {
    || c == ' '
    || ('\t' <= c <= '\r')
    || c == '\U{85}'
    || c == '\U{A0}'
    || c == '\U{1680}'
    || ('\U{2000}' <= c <= '\U{200A}')
    || c == '\U{2028}'
    || c == '\U{2029}'
    || c == '\U{202F}'
    || c == '\U{205F}'
    || c == '\U{3000}'
  }

  /** Neither end of `s` is white space. */
  predicate IsTrimmed(s: string) {
    s == [] || (!IsWhiteSpace(s[0]) && !IsWhiteSpace(s[|s| - 1]))
  }

  function TrimStart(s: string): (r: string)
    ensures |r| <= |s| && r == s[|s| - |r|..]
    ensures forall i :: 0 <= i < |s| - |r| ==> IsWhiteSpace(s[i])
    ensures r == [] || !IsWhiteSpace(r[0])
  {
    if |s| > 0 && IsWhiteSpace(s[0]) then TrimStart(s[1..]) else s
  }

  function TrimEnd(s: string): (r: string)
    ensures |r| <= |s| && r == s[..|r|]
    ensures forall i :: |r| <= i < |s| ==> IsWhiteSpace(s[i])
    ensures r == [] || !IsWhiteSpace(r[|r| - 1])
  {
    if |s| > 0 && IsWhiteSpace(s[|s| - 1]) then TrimEnd(s[..|s| - 1]) else s
  }

  /** `s.Trim()`: drops the white space at both ends and nothing else. */
  function Trim(s: string): (r: string)
    ensures IsTrimmed(r) && |r| <= |s|
    ensures IsTrimmed(s) ==> r == s
    ensures (forall i :: 0 <= i < |s| ==> IsWhiteSpace(s[i])) ==> r == []
  {
    var t := TrimStart(s);
    var r := TrimEnd(t);
    assert r == s[|s| - |t|..|s| - |t| + |r|];
    assert r != [] ==> r[0] == t[0];
    r
  }

  /** Number of occurrences of `c` in `s`. */
  function Count(s: string, c: char): nat {
    if s == [] then 0 else (if s[0] == c then 1 else 0) + Count(s[1..], c)
  }

  /** A character occurs exactly when it is counted. */
  lemma {:induction false} CountZero(s: string, c: char)
    ensures Count(s, c) == 0 <==> c !in s
  {
    if s != [] {
      CountZero(s[1..], c);
      assert s == [s[0]] + s[1..];
    }
  }

  /** `string.Join(sep, parts)`. */
  function Join(parts: seq<string>, sep: char): string
    requires |parts| >= 1
  {
    if |parts| == 1 then parts[0] else parts[0] + [sep] + Join(parts[1..], sep)
  }

  /** `s.Split(sep)`: the pieces between separators, empty pieces kept, so
      there is always one more piece than separators, and joining the pieces
      back gives `s`. */
  function Split(s: string, sep: char): (parts: seq<string>)
    ensures |parts| == Count(s, sep) + 1
    ensures forall i :: 0 <= i < |parts| ==> sep !in parts[i]
    ensures Join(parts, sep) == s
  {
    if s == [] then [[]]
    else
      var rest := Split(s[1..], sep);
      if s[0] == sep then
        assert ([[]] + rest)[1..] == rest;
        [[]] + rest
      else
        var parts := [[s[0]] + rest[0]] + rest[1..];
        assert |rest| > 1 ==> parts[1..] == rest[1..] && Join(rest, sep) == rest[0] + [sep] + Join(rest[1..], sep);
        assert Join(parts, sep) == [s[0]] + Join(rest, sep);
        parts
  }

  /** `s.Split(sep, StringSplitOptions.TrimEntries)`. */
  function SplitTrimmed(s: string, sep: char): (fields: seq<string>)
    ensures |fields| == Count(s, sep) + 1
    ensures forall i :: 0 <= i < |fields| ==> IsTrimmed(fields[i]) && fields[i] == Trim(Split(s, sep)[i])
  {
    var parts := Split(s, sep);
    seq(|parts|, i requires 0 <= i < |parts| => Trim(parts[i]))
  }

  /** A piece without the separator stays one piece, whatever follows it. */
  lemma {:induction false} SplitPrefix(p: string, rest: string, sep: char)
    requires sep !in p
    ensures Split(p + rest, sep) == [p + Split(rest, sep)[0]] + Split(rest, sep)[1..]
    decreases |p|
  {
    var s := Split(rest, sep);
    if p == [] {
      assert p + rest == rest;
      assert p + s[0] == s[0];
      assert [s[0]] + s[1..] == s;
    } else {
      var q := p[1..];
      SplitPrefix(q, rest, sep);
      assert (p + rest)[0] == p[0] && (p + rest)[1..] == q + rest;
      assert [p[0]] + (q + s[0]) == p + s[0];
    }
  }

  /** Splitting undoes joining when no piece holds the separator. */
  lemma {:induction false} SplitOfJoin(parts: seq<string>, sep: char)
    requires |parts| >= 1
    requires forall i :: 0 <= i < |parts| ==> sep !in parts[i]
    ensures Split(Join(parts, sep), sep) == parts
    decreases |parts|
  {
    if |parts| == 1 {
      SplitPrefix(parts[0], [], sep);
      assert parts[0] + [] == parts[0];
    } else {
      var tail := Join(parts[1..], sep);
      SplitOfJoin(parts[1..], sep);
      SplitPrefix(parts[0], [sep] + tail, sep);
      assert parts[0] + [sep] + tail == parts[0] + ([sep] + tail);
      assert ([sep] + tail)[0] == sep && ([sep] + tail)[1..] == tail;
      assert Split([sep] + tail, sep) == [[]] + parts[1..];
      assert Join(parts, sep) == parts[0] + [sep] + tail;
      assert parts[0] + [] == parts[0];
      assert parts == [parts[0]] + parts[1..];
    }
  }

  /** Splitting with TrimEntries gives back already-trimmed pieces unchanged. */
  lemma SplitTrimmedOfJoin(fields: seq<string>, sep: char)
    requires |fields| >= 1
    requires forall i :: 0 <= i < |fields| ==> sep !in fields[i] && IsTrimmed(fields[i])
    ensures SplitTrimmed(Join(fields, sep), sep) == fields
  {
    SplitOfJoin(fields, sep);
  }

  /** Leading white space does not survive `TrimStart`. */
  lemma {:induction false} TrimStartWhite(pre: string, s: string)
    requires forall i :: 0 <= i < |pre| ==> IsWhiteSpace(pre[i])
    ensures TrimStart(pre + s) == TrimStart(s)
    decreases |pre|
  {
    if pre != [] {
      assert (pre + s)[0] == pre[0];
      assert (pre + s)[1..] == pre[1..] + s;
      TrimStartWhite(pre[1..], s);
    } else {
      assert pre + s == s;
    }
  }

  /** Trailing white space does not survive `TrimEnd`. */
  lemma {:induction false} TrimEndWhite(s: string, post: string)
    requires forall i :: 0 <= i < |post| ==> IsWhiteSpace(post[i])
    ensures TrimEnd(s + post) == TrimEnd(s)
    decreases |post|
  {
    if post != [] {
      var t := s + post;
      assert t[|t| - 1] == post[|post| - 1];
      assert t[..|t| - 1] == s + post[..|post| - 1];
      TrimEndWhite(s, post[..|post| - 1]);
    } else {
      assert s + post == s;
    }
  }

  /** `Trim` gives back a trimmed string from between any white-space padding. */
  lemma TrimPadded(pre: string, s: string, post: string)
    requires forall i :: 0 <= i < |pre| ==> IsWhiteSpace(pre[i])
    requires forall i :: 0 <= i < |post| ==> IsWhiteSpace(post[i])
    requires IsTrimmed(s)
    ensures Trim(pre + s + post) == s
  {
    assert pre + s + post == pre + (s + post);
    TrimStartWhite(pre, s + post);
    if s == [] {
      assert s + post == post;
      assert TrimEnd(TrimStart(post)) == [];
    } else {
      assert (s + post)[0] == s[0];
      assert TrimStart(s + post) == s + post;
      TrimEndWhite(s, post);
    }
  }
}
