/**
 The few `java.lang.String` operations the URL builder relies on, over
 strings as sequences of characters (Dafny `char`, a Unicode scalar
 value): `startsWith`,
 `indexOf` of one character, `substring` (written as a slice), and
 `split` with a one-character separator and no limit, including its
 quirks: a string with no separator comes back whole (even when empty),
 and trailing empty pieces are dropped.
 */
module JavaString {

  /** `s` begins with `p` (`String.startsWith`). */
  predicate StartsWith(s: string, p: string)
  {
    |p| <= |s| && s[..|p|] == p
  }

  /** Every character of `s` is `c`; true of the empty string. */
  predicate AllChar(s: string, c: char)
  {
    forall i :: 0 <= i < |s| ==> s[i] == c
  }

  /** Position of the first `c` in `s`, or -1 when `c` does not occur (`String.indexOf`). */
  function IndexOf(s: string, c: char): (r: int)
    ensures -1 <= r < |s|
    ensures r == -1 <==> c !in s
    ensures r != -1 ==> s[r] == c && c !in s[..r]
  {
    if |s| == 0 then -1
    else if s[0] == c then 0
    else
      var k := IndexOf(s[1..], c);
      if k == -1 then -1
      else
        assert s[..k + 1] == [s[0]] + s[1..][..k];
        k + 1
  }

  /** The text of `s` before its first `c`; all of `s` when `c` does not occur. */
  function Before(s: string, c: char): (r: string)
    ensures r <= s && c !in r
    ensures |r| == |s| || s[|r|] == c
  {
    var k := IndexOf(s, c);
    if k == -1 then s else s[..k]
  }

  /** The pieces joined back together with `c` between neighbours. */
  function Join(parts: seq<string>, c: char): string
  {
    if |parts| == 0 then ""
    else if |parts| == 1 then parts[0]
    else parts[0] + [c] + Join(parts[1..], c)
  }

  /**
   Every piece of `s` between occurrences of `c`, empty pieces included:
   no piece holds a separator, joining the pieces gives back `s`, and the
   first piece is the text before the first separator.
   */
  function Segments(s: string, c: char): (r: seq<string>)
    ensures |r| >= 1
    ensures forall i :: 0 <= i < |r| ==> c !in r[i]
    ensures Join(r, c) == s
    ensures r[0] == Before(s, c)
    decreases |s|
  {
    var k := IndexOf(s, c);
    if k == -1 then [s]
    else
      var rest := Segments(s[k + 1..], c);
      var r := [s[..k]] + rest;
      assert r[1..] == rest;
      assert s == s[..k] + [c] + s[k + 1..];
      r
  }

  /** Every piece is the empty string. */
  predicate AllEmpty(parts: seq<string>)
  {
    forall i :: 0 <= i < |parts| ==> parts[i] == ""
  }

  /** The pieces with the empty ones at the end removed; nothing is left exactly when every piece is empty. */
  function DropTrailingEmpty(parts: seq<string>): (r: seq<string>)
    ensures r <= parts
    ensures |r| == 0 <==> AllEmpty(parts)
    ensures |r| > 0 ==> r[|r| - 1] != ""
    ensures AllEmpty(parts[|r|..])
  {
    if |parts| == 0 then parts
    else if parts[|parts| - 1] == "" then
      var r := DropTrailingEmpty(parts[..|parts| - 1]);
      assert parts[|r|..] == parts[..|parts| - 1][|r|..] + [""];
      r
    else parts
  }

  /** A run of separators is a separator followed by a run of separators. */
  lemma AllCharCons(s: string, c: char)
    requires |s| > 0
    ensures AllChar(s, c) <==> s[0] == c && AllChar(s[1..], c)
  {
  }

  /** Every piece of `s` is empty exactly when `s` consists of separators only. */
  lemma {:induction false} SegmentsAllEmpty(s: string, c: char)
    ensures AllEmpty(Segments(s, c)) <==> AllChar(s, c)
    decreases |s|
  {
    var k := IndexOf(s, c);
    var r := Segments(s, c);
    if k == -1 {
      assert r == [s];
      if |s| > 0 {
        assert s[0] != c;
      }
    } else {
      var tail := s[k + 1..];
      var rest := Segments(tail, c);
      SegmentsAllEmpty(tail, c);
      assert r == [s[..k]] + rest;
      assert AllEmpty(r) <==> s[..k] == "" && AllEmpty(rest) by {
        if s[..k] == "" && AllEmpty(rest) {
          forall i | 0 <= i < |r| ensures r[i] == "" {
            if i > 0 { assert r[i] == rest[i - 1]; }
          }
        }
        if AllEmpty(r) {
          forall i | 0 <= i < |rest| ensures rest[i] == "" {
            assert rest[i] == r[i + 1];
          }
        }
      }
      AllCharCons(s, c);
      if k == 0 {
        assert tail == s[1..];
      } else {
        assert s[0] != c by { assert s[0] == s[..k][0]; }
      }
    }
  }

  /**
   `String.split` with a one-character separator and limit 0: a string
   without the separator comes back as the single piece `[s]` (so `""`
   gives `[""]`); otherwise the pieces between separators, without the
   trailing empty ones. The result is empty exactly when `s` is a non-empty
   run of separators, and otherwise starts with the text before the first
   separator.
   */
  function Split(s: string, c: char): (r: seq<string>)
    ensures |r| == 0 <==> |s| > 0 && AllChar(s, c)
    ensures |r| > 0 ==> r[0] == Before(s, c)
  {
    if c !in s then
      assert |s| > 0 ==> s[0] != c;
      [s]
    else
      SegmentsAllEmpty(s, c);
      DropTrailingEmpty(Segments(s, c))
  }
}
