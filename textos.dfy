/** String helpers that the pipeline relies on from the .NET base library:
    `String.Split(char)`, `String.Join(char, …)` and `String.Replace(string, string)`.
    They are stated once here, with the round-trip facts the rest of the model uses. */
module Textos {

  /** Every piece between separators, empty pieces included, as `String.Split(char)`
      returns them: the result always has one more piece than `s` has separators. */
  function Split(s: string, sep: char): (parts: seq<string>)
    ensures |parts| >= 1
    ensures forall k :: 0 <= k < |parts| ==> sep !in parts[k]
    decreases |s|
  {
    if s == [] then [""]
    else
      var rest := Split(s[1..], sep);
      if s[0] == sep then [""] + rest
      else [[s[0]] + rest[0]] + rest[1..]
  }

  /** `String.Join(sep, parts)`: the pieces with one separator between neighbours.
      The result starts with the first piece; it holds the separator exactly when
      there are two pieces or more, or a piece holds it. */
  function Join(parts: seq<string>, sep: char): (r: string)
    ensures parts == [] ==> r == ""
    ensures |parts| > 0 ==> parts[0] <= r
    ensures sep in r <==> |parts| >= 2 || exists k :: 0 <= k < |parts| && sep in parts[k]
  {
    if parts == [] then ""
    else if |parts| == 1 then parts[0]
    else parts[0] + [sep] + Join(parts[1..], sep)
  }

  /** Joining the pieces of a split gives back the original text. */
  lemma {:induction false} JoinSplit(s: string, sep: char)
    ensures Join(Split(s, sep), sep) == s
    decreases |s|
  {
    if s != [] {
      var rest := Split(s[1..], sep);
      JoinSplit(s[1..], sep);
      if s[0] == sep {
        assert Split(s, sep) == [""] + rest;
        assert Join([""] + rest, sep) == "" + [sep] + Join(rest, sep);
        assert s == [s[0]] + s[1..];
      } else {
        var parts := Split(s, sep);
        assert parts == [[s[0]] + rest[0]] + rest[1..];
        if |rest| == 1 {
          assert Join(rest, sep) == rest[0];
          assert s == [s[0]] + s[1..];
        } else {
          assert parts[1..] == rest[1..];
          assert Join(rest, sep) == rest[0] + [sep] + Join(rest[1..], sep);
          assert s == [s[0]] + s[1..];
        }
      }
    }
  }

  /** A piece free of the separator, followed by the separator, is split off whole. */
  lemma {:induction false} SplitAfterPiece(a: string, sep: char, b: string)
    requires sep !in a
    ensures Split(a + [sep] + b, sep) == [a] + Split(b, sep)
    decreases |a|
  {
    if a == [] {
      assert a + [sep] + b == [sep] + b;
      assert ([sep] + b)[1..] == b;
    } else {
      var s := a + [sep] + b;
      assert s[0] == a[0] && s[1..] == a[1..] + [sep] + b;
      SplitAfterPiece(a[1..], sep, b);
      assert [a[0]] + a[1..] == a;
    }
  }

  /** A text free of the separator is a single piece. */
  lemma {:induction false} SplitWithoutSeparator(a: string, sep: char)
    requires sep !in a
    ensures Split(a, sep) == [a]
    decreases |a|
  {
    if a != [] {
      SplitWithoutSeparator(a[1..], sep);
      assert [a[0]] + a[1..] == a;
    }
  }

  /** Splitting a join of separator-free pieces gives back the pieces. */
  lemma {:induction false} SplitJoin(parts: seq<string>, sep: char)
    requires |parts| >= 1
    requires forall k :: 0 <= k < |parts| ==> sep !in parts[k]
    ensures Split(Join(parts, sep), sep) == parts
    decreases |parts|
  {
    if |parts| == 1 {
      SplitWithoutSeparator(parts[0], sep);
    } else {
      SplitJoin(parts[1..], sep);
      SplitAfterPiece(parts[0], sep, Join(parts[1..], sep));
      assert [parts[0]] + parts[1..] == parts;
    }
  }

  /** True when `pat` occurs in `s` starting at position `i`. */
  predicate MatchesAt(s: string, pat: string, i: nat)
  {
    i + |pat| <= |s| && s[i..i + |pat|] == pat
  }

  /** `String.Replace(pat, rep)`: every occurrence of `pat`, scanned from the left and
      without overlap, is replaced by `rep`; the inserted text is not scanned again.
      Replacing the pattern by itself changes nothing, and a replacement as long as
      the pattern keeps the length. */
  function ReplaceAll(s: string, pat: string, rep: string): (r: string)
    requires |pat| > 0
    ensures rep == pat ==> r == s
    ensures |rep| == |pat| ==> |r| == |s|
    decreases |s|
  {
    if |s| < |pat| then s
    else if s[..|pat|] == pat then rep + ReplaceAll(s[|pat|..], pat, rep)
    else [s[0]] + ReplaceAll(s[1..], pat, rep)
  }

  /** A match in the tail of a text is a match one position further in the text. */
  lemma {:induction false} MatchesInTail(s: string, pat: string, i: nat)
    requires |s| > 0
    ensures MatchesAt(s[1..], pat, i) <==> MatchesAt(s, pat, i + 1)
  {
    if i + 1 + |pat| <= |s| {
      assert s[1..][i..i + |pat|] == s[i + 1..i + 1 + |pat|];
    }
  }

  /** No occurrence of `pat` starts inside `a` in `a + pat + b` when the character at
      some position `k` of the pattern occurs neither in `a` nor earlier in the pattern. */
  lemma {:induction false} NoMatchBefore(a: string, pat: string, b: string, k: nat)
    requires k < |pat| && pat[k] !in a && pat[k] !in pat[..k]
    ensures forall i: nat :: i < |a| ==> !MatchesAt(a + pat + b, pat, i)
  {
    var s := a + pat + b;
    forall i: nat | i < |a|
      ensures !MatchesAt(s, pat, i)
    {
      if i + k < |a| {
        assert s[i + k] == a[i + k];
      } else {
        assert s[i + k] == pat[i + k - |a|] == pat[..k][i + k - |a|];
      }
      if i + |pat| <= |s| {
        assert s[i..i + |pat|][k] == s[i + k];
      }
    }
  }

  /** A text without any occurrence of the pattern is left unchanged. */
  lemma {:induction false} ReplaceAbsent(s: string, pat: string, rep: string)
    requires |pat| > 0
    requires forall i: nat :: i < |s| ==> !MatchesAt(s, pat, i)
    ensures ReplaceAll(s, pat, rep) == s
    decreases |s|
  {
    if |s| >= |pat| {
      assert !MatchesAt(s, pat, 0);
      forall i: nat | i < |s[1..]|
        ensures !MatchesAt(s[1..], pat, i)
      {
        assert !MatchesAt(s, pat, i + 1);
        MatchesInTail(s, pat, i);
      }
      ReplaceAbsent(s[1..], pat, rep);
      assert [s[0]] + s[1..] == s;
    }
  }

  /** Text before the first occurrence is kept, the occurrence becomes `rep`,
      and the rest of the text is handled on its own. */
  lemma {:induction false} ReplaceFirst(pre: string, pat: string, post: string, rep: string)
    requires |pat| > 0
    requires forall i: nat :: i < |pre| ==> !MatchesAt(pre + pat + post, pat, i)
    ensures ReplaceAll(pre + pat + post, pat, rep) == pre + rep + ReplaceAll(post, pat, rep)
    decreases |pre|
  {
    var s := pre + pat + post;
    if pre == [] {
      assert s == pat + post;
      assert s[..|pat|] == pat && s[|pat|..] == post;
    } else {
      var t := pre[1..] + pat + post;
      assert s[1..] == t;
      assert !MatchesAt(s, pat, 0);
      assert s[..|pat|] != pat;
      assert ReplaceAll(s, pat, rep) == [pre[0]] + ReplaceAll(t, pat, rep);
      forall i: nat | i < |pre[1..]|
        ensures !MatchesAt(t, pat, i)
      {
        assert !MatchesAt(s, pat, i + 1);
        MatchesInTail(s, pat, i);
      }
      ReplaceFirst(pre[1..], pat, post, rep);
      assert [pre[0]] + (pre[1..] + rep + ReplaceAll(post, pat, rep)) == pre + rep + ReplaceAll(post, pat, rep);
    }
  }
}
