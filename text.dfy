/** The string operations of Python that the pipeline relies on:
    `sep.join(parts)`, `s.split(c)`, `s.split()` and the substring test `a in b`. */
module Text {

  /** Python's `sep.join(parts)`. */
  function Join(sep: string, parts: seq<string>): string
  {
    if |parts| == 0 then ""
    else if |parts| == 1 then parts[0]
    else parts[0] + sep + Join(sep, parts[1..])
  }

  lemma JoinPair(sep: string, a: string, b: string)
    ensures Join(sep, [a, b]) == a + sep + b
  {
    assert [a, b][1..] == [b];
  }

  lemma {:induction false} JoinAppend(sep: string, a: seq<string>, b: seq<string>)
    requires |a| > 0 && |b| > 0
    ensures Join(sep, a + b) == Join(sep, a) + sep + Join(sep, b)
  {
    if |a| == 1 {
      assert (a + b)[1..] == b;
    } else {
      assert (a + b)[1..] == a[1..] + b;
      JoinAppend(sep, a[1..], b);
    }
  }

  // ---------------------------------------------------------------------------
  // Substring containment

  predicate OccursAt(needle: string, hay: string, i: int)
  {
    0 <= i && i + |needle| <= |hay| && hay[i..i + |needle|] == needle
  }

  /** Python's `needle in hay` on two strings. */
  predicate IsSubstring(needle: string, hay: string)
  {
    exists i | 0 <= i <= |hay| - |needle| :: OccursAt(needle, hay, i)
  }

  lemma InfixIsSubstring(pre: string, mid: string, post: string)
    ensures IsSubstring(mid, pre + mid + post)
  {
    var hay := pre + mid + post;
    assert hay[|pre|..|pre| + |mid|] == mid;
    assert OccursAt(mid, hay, |pre|);
  }

  lemma SubstringTransitive(a: string, b: string, c: string)
    requires IsSubstring(a, b) && IsSubstring(b, c)
    ensures IsSubstring(a, c)
  {
    var i :| 0 <= i <= |b| - |a| && OccursAt(a, b, i);
    var j :| 0 <= j <= |c| - |b| && OccursAt(b, c, j);
    forall k | 0 <= k < |a| ensures c[i + j + k] == a[k] {
      assert a[k] == b[i + k] == c[j + i + k];
    }
    assert c[i + j..i + j + |a|] == a;
    assert OccursAt(a, c, i + j);
  }

  /** Joining a non-empty list followed by more parts extends the list's joined text. */
  lemma JoinThenMore(sep: string, parts: seq<string>, more: seq<string>) returns (tail: string)
    requires |parts| > 0
    ensures Join(sep, parts + more) == Join(sep, parts) + tail
  {
    if |more| == 0 {
      assert parts + more == parts;
      tail := "";
    } else {
      JoinAppend(sep, parts, more);
      tail := sep + Join(sep, more);
    }
  }

  /** Joining parts in front of a non-empty list puts text in front of the list's joined text. */
  lemma MoreThenJoin(sep: string, more: seq<string>, parts: seq<string>) returns (head: string)
    requires |parts| > 0
    ensures Join(sep, more + parts) == head + Join(sep, parts)
  {
    if |more| == 0 {
      assert more + parts == parts;
      head := "";
    } else {
      JoinAppend(sep, more, parts);
      head := Join(sep, more) + sep;
    }
  }

  /** If `mid` is a contiguous run of `pre + mid + post`, its joined text is a substring of
      the joined text of the whole. */
  lemma JoinInfix(sep: string, pre: seq<string>, mid: seq<string>, post: seq<string>)
    ensures IsSubstring(Join(sep, mid), Join(sep, pre + mid + post))
  {
    var whole := pre + mid + post;
    if |mid| == 0 {
      assert OccursAt(Join(sep, mid), Join(sep, whole), 0);
    } else {
      var tail := JoinThenMore(sep, mid, post);
      assert whole == pre + (mid + post);
      var head := MoreThenJoin(sep, pre, mid + post);
      InfixIsSubstring(head, Join(sep, mid), tail);
      assert head + Join(sep, mid) + tail == Join(sep, whole);
    }
  }

  // ---------------------------------------------------------------------------
  // Splitting on one separator character

  /** Index of the first occurrence of `c` in `s`. */
  function IndexOf(s: string, c: char): (i: nat)
    requires c in s
    ensures i < |s| && s[i] == c && c !in s[..i]
  {
    if s[0] == c then 0
    else
      var j := IndexOf(s[1..], c);
      assert s[..j + 1] == [s[0]] + s[1..][..j];
      j + 1
  }

  /** Python's `s.split(c)` for a one-character separator. */
  function Split(s: string, c: char): (parts: seq<string>)
    ensures |parts| >= 1
    ensures forall k :: 0 <= k < |parts| ==> c !in parts[k]
    decreases |s|
  {
    if c !in s then [s]
    else
      var i := IndexOf(s, c);
      [s[..i]] + Split(s[i + 1..], c)
  }

  /** Splitting and joining back with the same separator gives the original text. */
  lemma {:induction false} SplitJoin(s: string, c: char)
    ensures Join([c], Split(s, c)) == s
    decreases |s|
  {
    if c in s {
      var i := IndexOf(s, c);
      var rest := Split(s[i + 1..], c);
      SplitJoin(s[i + 1..], c);
      assert Split(s, c) == [s[..i]] + rest;
      assert ([s[..i]] + rest)[1..] == rest;
      assert s == s[..i] + [c] + s[i + 1..];
    }
  }

  /** The first piece of `s.split(c)` is the text before the first `c`. */
  lemma FirstPiece(s: string, c: char)
    ensures c !in s ==> Split(s, c)[0] == s
    ensures c in s ==> Split(s, c)[0] == s[..IndexOf(s, c)]
  {
  }

  /** `s.split(c)[0]`, as in `relType.split('.')[0]`. */
  function BeforeFirst(s: string, c: char): (r: string)
    ensures c !in r
    ensures r <= s
    ensures c !in s ==> r == s
    ensures c in s ==> |r| < |s| && s[|r|] == c
  {
    FirstPiece(s, c);
    Split(s, c)[0]
  }

  /** Cutting at the first separator twice is the same as once. */
  lemma BeforeFirstIdempotent(s: string, c: char)
    ensures BeforeFirst(BeforeFirst(s, c), c) == BeforeFirst(s, c)
  {
  }

  // ---------------------------------------------------------------------------
  // Python's `s.split()` with no argument: runs of non-whitespace

  /** The characters Python 2's `str.split()` and the regular expression `\s` treat as
      whitespace. */
  predicate IsSpace(ch: char)
  {
    ch == ' ' || ch == '\t' || ch == '\n' || ch == '\r' || ch == '\U{0B}' || ch == '\U{0C}'
  }

  /** A non-empty run of non-whitespace characters: what `split()` can return. */
  predicate IsWord(w: string)
  {
    |w| > 0 && forall k :: 0 <= k < |w| ==> !IsSpace(w[k])
  }

  /** True when every character is whitespace (the regular expression `^\s*$`). */
  predicate IsBlank(s: string)
  {
    forall k :: 0 <= k < |s| ==> IsSpace(s[k])
  }

  /** Length of the leading run of non-whitespace characters. */
  function WordLength(s: string): (n: nat)
    ensures n <= |s|
    ensures forall k :: 0 <= k < n ==> !IsSpace(s[k])
    ensures n < |s| ==> IsSpace(s[n])
  {
    if |s| == 0 || IsSpace(s[0]) then 0 else 1 + WordLength(s[1..])
  }

  /** Python's `s.split()`. */
  function Fields(s: string): (r: seq<string>)
    ensures forall k :: 0 <= k < |r| ==> IsWord(r[k])
    decreases |s|
  {
    if |s| == 0 then []
    else if IsSpace(s[0]) then Fields(s[1..])
    else
      var n := WordLength(s);
      [s[..n]] + Fields(s[n..])
  }

  /** A line has no fields exactly when it is blank, so `split()[0]` is defined on every
      non-blank line. */
  lemma {:induction false} FieldsEmptyIffBlank(s: string)
    ensures Fields(s) == [] <==> IsBlank(s)
    decreases |s|
  {
    if |s| > 0 && IsSpace(s[0]) {
      FieldsEmptyIffBlank(s[1..]);
      if IsBlank(s[1..]) {
        forall k | 0 <= k < |s| ensures IsSpace(s[k]) {
          if k > 0 { assert s[k] == s[1..][k - 1]; }
        }
      }
    }
  }

  lemma {:induction false} WordLengthOfWord(w: string, rest: string)
    requires IsWord(w) && |rest| > 0 && IsSpace(rest[0])
    ensures WordLength(w + rest) == |w|
    decreases |w|
  {
    if |w| > 1 {
      assert (w + rest)[1..] == w[1..] + rest;
      WordLengthOfWord(w[1..], rest);
    } else {
      assert (w + rest)[1..] == rest;
    }
  }

  /** A word followed by whitespace splits off as the first field. */
  lemma FieldsOfWordThen(w: string, sp: char, rest: string)
    requires IsWord(w) && IsSpace(sp)
    ensures Fields(w + [sp] + rest) == [w] + Fields(rest)
  {
    var s := w + [sp] + rest;
    assert s == w + ([sp] + rest);
    WordLengthOfWord(w, [sp] + rest);
    assert s[..|w|] == w;
    assert s[|w|..] == [sp] + rest;
    assert ([sp] + rest)[1..] == rest;
  }

  /** Round trip: a line of words joined by single spaces and ended by a newline splits
      back into exactly those words. */
  lemma {:induction false} FieldsOfJoinedLine(words: seq<string>)
    requires forall k :: 0 <= k < |words| ==> IsWord(words[k])
    ensures Fields(Join(" ", words) + "\n") == words
  {
    if |words| == 0 {
      assert Fields("\n") == Fields("");
    } else if |words| == 1 {
      FieldsOfWordThen(words[0], '\n', "");
      assert words[0] + "\n" == words[0] + ['\n'] + "";
    } else {
      var rest := Join(" ", words[1..]) + "\n";
      FieldsOfJoinedLine(words[1..]);
      FieldsOfWordThen(words[0], ' ', rest);
      assert Join(" ", words) + "\n" == words[0] + [' '] + rest;
      assert [words[0]] + words[1..] == words;
    }
  }
}
