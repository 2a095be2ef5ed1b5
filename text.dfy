/**
 * The two JavaScript string searches the plugin relies on, and
 * `String.prototype.replace` called with a one-character string pattern and a
 * replacement string that contains no `$`, which rewrites only the first match.
 *
 * The functions carry no postconditions of their own; what they compute is
 * stated by the lemmas that follow them.
 */
module Text {

  /** `s.indexOf(c, from)`: the first position at or after `from` holding `c`, or -1. */
  function IndexFrom(s: string, c: char, from: nat): int
    requires from <= |s|
    decreases |s| - from
  {
    if from == |s| then -1
    else if s[from] == c then from
    else IndexFrom(s, c, from + 1)
  }

  /** `s.indexOf(c)`: the position of the first `c` in `s`, or -1. */
  function IndexOf(s: string, c: char): int {
    IndexFrom(s, c, 0)
  }

  /** `s.lastIndexOf(c, end - 1)`: the last position before `end` holding `c`, or -1. */
  function LastIndexBefore(s: string, c: char, end: nat): int
    requires end <= |s|
  {
    if end == 0 then -1
    else if s[end - 1] == c then end - 1
    else LastIndexBefore(s, c, end - 1)
  }

  /** `s.lastIndexOf(c)`: the position of the last `c` in `s`, or -1. */
  function LastIndexOf(s: string, c: char): int {
    LastIndexBefore(s, c, |s|)
  }

  /** `s.replace(c, rep)` for a one-character pattern and a `rep` without `$`: only the first `c` is rewritten. */
  function ReplaceFirst(s: string, c: char, rep: string): string {
    var i := IndexOf(s, c);
    if 0 <= i < |s| then s[..i] + rep + s[i + 1..] else s
  }

  lemma {:induction false} IndexFromFinds(s: string, c: char, from: nat)
    requires from <= |s|
    decreases |s| - from
    ensures var r := IndexFrom(s, c, from);
      && (r == -1 || from <= r < |s|)
      && (r == -1 ==> forall j :: from <= j < |s| ==> s[j] != c)
      && (r >= 0 ==> s[r] == c && forall j :: from <= j < r ==> s[j] != c)
  {
    if from < |s| && s[from] != c {
      IndexFromFinds(s, c, from + 1);
    }
  }

  /** `indexOf` finds the first occurrence, and -1 exactly when there is none. */
  lemma IndexOfFinds(s: string, c: char)
    ensures var r := IndexOf(s, c);
      && -1 <= r < |s|
      && (r == -1 <==> c !in s)
      && (0 <= r ==> s[r] == c && c !in s[..r])
  {
    IndexFromFinds(s, c, 0);
  }

  lemma {:induction false} LastIndexBeforeFinds(s: string, c: char, end: nat)
    requires end <= |s|
    ensures var r := LastIndexBefore(s, c, end);
      && -1 <= r < end
      && (r == -1 ==> forall j :: 0 <= j < end ==> s[j] != c)
      && (r >= 0 ==> s[r] == c && forall j :: r < j < end ==> s[j] != c)
  {
    if end > 0 && s[end - 1] != c {
      LastIndexBeforeFinds(s, c, end - 1);
    }
  }

  /** `lastIndexOf` finds the last occurrence, and -1 exactly when there is none. */
  lemma LastIndexOfFinds(s: string, c: char)
    ensures var r := LastIndexOf(s, c);
      && -1 <= r < |s|
      && (r == -1 <==> c !in s)
      && (0 <= r ==> s[r] == c && c !in s[r + 1..])
  {
    LastIndexBeforeFinds(s, c, |s|);
  }

  /** Without a `c` the string is left alone; with one it loses that character and gains `rep`. */
  lemma ReplaceFirstLength(s: string, c: char, rep: string)
    ensures c !in s ==> ReplaceFirst(s, c, rep) == s
    ensures |ReplaceFirst(s, c, rep)| == if c in s then |s| - 1 + |rep| else |s|
  {
    IndexOfFinds(s, c);
  }

  /**
   * Splitting `s` at its first `c`: the part before it is kept, the `c` becomes
   * `rep`, and the rest, later occurrences of `c` included, is kept unchanged.
   */
  lemma ReplaceFirstSplit(pre: string, c: char, post: string, rep: string)
    requires c !in pre
    ensures ReplaceFirst(pre + [c] + post, c, rep) == pre + rep + post
  {
    var s := pre + [c] + post;
    IndexOfFinds(s, c);
    var i := IndexOf(s, c);
    assert s[|pre|] == c;
    assert i == |pre|;
    assert s[..i] == pre && s[i + 1..] == post;
  }

  /** Every string holding `c` splits at its first `c`. */
  lemma FirstOccurrence(s: string, c: char) returns (pre: string, post: string)
    requires c in s
    ensures s == pre + [c] + post && c !in pre
  {
    IndexOfFinds(s, c);
    var i := IndexOf(s, c);
    pre, post := s[..i], s[i + 1..];
    assert s == s[..i] + [s[i]] + s[i + 1..];
  }

  /**
   * Replacing the first `c` takes exactly one `c` out of the string and puts
   * the characters of `rep` in; nothing else is added or lost.
   */
  lemma ReplaceFirstMultiset(s: string, c: char, rep: string)
    ensures multiset(ReplaceFirst(s, c, rep))
         == if c in s then multiset(s) - multiset{c} + multiset(rep) else multiset(s)
  {
    if c in s {
      var pre, post := FirstOccurrence(s, c);
      ReplaceFirstSplit(pre, c, post, rep);
      calc {
        multiset(ReplaceFirst(s, c, rep));
        multiset(pre + rep + post);
        multiset(pre) + multiset(rep) + multiset(post);
        multiset(pre) + multiset{c} + multiset(post) - multiset{c} + multiset(rep);
        { assert s == pre + [c] + post; }
        multiset(s) - multiset{c} + multiset(rep);
      }
    } else {
      ReplaceFirstLength(s, c, rep);
    }
  }

  /** The same, counted one character at a time. */
  lemma ReplaceFirstCount(s: string, c: char, rep: string, x: char)
    ensures multiset(ReplaceFirst(s, c, rep))[x]
         == if c in s then multiset(s)[x] - (if x == c then 1 else 0) + multiset(rep)[x]
            else multiset(s)[x]
  {
    ReplaceFirstMultiset(s, c, rep);
    if c in s {
      assert multiset(s)[c] >= 1;
      assert (multiset(s) - multiset{c})[x] == multiset(s)[x] - (if x == c then 1 else 0);
    }
  }
}
