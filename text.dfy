/** The two Python string operations the handler relies on, with the
    semantics CPython gives them: `str.strip()` with no argument and
    `str.split(' ')` with an explicit one-character separator. */
module Text {

  /** The characters for which Python's `str.isspace()` holds; these are the
      characters `str.strip()` removes from both ends. */
  predicate IsSpace(c: char) {
    var n := c as int;
    || 0x09 <= n <= 0x0D
    || 0x1C <= n <= 0x20
    || n == 0x85 || n == 0xA0 || n == 0x1680
    || 0x2000 <= n <= 0x200A
    || n == 0x2028 || n == 0x2029 || n == 0x202F || n == 0x205F || n == 0x3000
  }

  predicate AllSpace(s: string) {
    forall i :: 0 <= i < |s| ==> IsSpace(s[i])
  }

  /** A string with no whitespace at either end, i.e. one `strip()` leaves alone. */
  predicate Stripped(s: string) {
    s == [] || (!IsSpace(s[0]) && !IsSpace(s[|s| - 1]))
  }

  /** Where `s.lstrip()` cuts: the first index at or after `i` that does
      not hold whitespace, or the end of `s`. */
  function LeadEnd(s: string, i: nat): (k: nat)
    requires i <= |s|
    ensures i <= k <= |s|
    ensures forall j :: i <= j < k ==> IsSpace(s[j])
    ensures k == |s| || !IsSpace(s[k])
    decreases |s| - i
  {
    if i < |s| && IsSpace(s[i]) then LeadEnd(s, i + 1) else i
  }

  /** Where `s.rstrip()` cuts within `s[lo..hi]`: the index just after the
      last character before `hi` that does not hold whitespace, or `lo`. */
  function TrailStart(s: string, lo: nat, hi: nat): (k: nat)
    requires lo <= hi <= |s|
    ensures lo <= k <= hi
    ensures forall j :: k <= j < hi ==> IsSpace(s[j])
    ensures k == lo || !IsSpace(s[k - 1])
    decreases hi - lo
  {
    if lo < hi && IsSpace(s[hi - 1]) then TrailStart(s, lo, hi - 1) else hi
  }

  /** `r` sits in `s` at offset `i`, with only whitespace before and after it. */
  predicate Within(s: string, r: string, i: nat) {
    && i + |r| <= |s|
    && r == s[i..i + |r|]
    && (forall j :: 0 <= j < i ==> IsSpace(s[j]))
    && (forall j :: i + |r| <= j < |s| ==> IsSpace(s[j]))
  }

  /** `s.strip()`: the piece of `s` left once the whitespace at both ends is
      cut off; it has no whitespace at its own ends. */
  function Strip(s: string): (r: string)
    ensures Stripped(r)
    ensures exists i :: Within(s, r, i)
  {
    var i := LeadEnd(s, 0);
    var k := TrailStart(s, i, |s|);
    assert Within(s, s[i..k], i);
    s[i..k]
  }

  /** Stripping yields the empty string exactly when the input is empty or
      consists of whitespace only. */
  lemma StripEmptyIff(s: string)
    ensures Strip(s) == [] <==> AllSpace(s)
  {
    var i := LeadEnd(s, 0);
    if AllSpace(s) {
      assert i == |s|;
    } else {
      assert TrailStart(s, i, |s|) > i;
    }
  }

  /** Stripping a string that is already stripped changes nothing; so
      `strip()` is idempotent. */
  lemma StripIdempotent(s: string)
    ensures Stripped(s) ==> Strip(s) == s
    ensures Strip(Strip(s)) == Strip(s)
  {
    StrippedIsFixed(s);
    StrippedIsFixed(Strip(s));
  }

  lemma StrippedIsFixed(s: string)
    ensures Stripped(s) ==> Strip(s) == s
  {
    if Stripped(s) && s != [] {
      assert LeadEnd(s, 0) == 0;
      assert TrailStart(s, 0, |s|) == |s|;
    }
  }

  /** `s.split(sep)`: Python keeps the empty pieces between adjacent
      separators and at the ends, so there is always at least one piece. */
  function Split(s: string, sep: char): (parts: seq<string>)
    ensures |parts| >= 1
  {
    if s == [] then [[]]
    else
      var rest := Split(s[1..], sep);
      if s[0] == sep then [[]] + rest else [[s[0]] + rest[0]] + rest[1..]
  }

  /** `sep.join(parts)`, the inverse of `Split`. */
  function Join(parts: seq<string>, sep: char): string
    requires |parts| >= 1
  {
    if |parts| == 1 then parts[0] else parts[0] + [sep] + Join(parts[1..], sep)
  }

  predicate Free(parts: seq<string>, sep: char) {
    forall i :: 0 <= i < |parts| ==> sep !in parts[i]
  }

  /** Joining the pieces of a split with the same separator gives back the
      original string. */
  lemma {:induction false} JoinSplit(s: string, sep: char)
    ensures Join(Split(s, sep), sep) == s
  {
    if s != [] {
      JoinSplit(s[1..], sep);
      var rest := Split(s[1..], sep);
      if s[0] == sep {
        assert Split(s, sep) == [[]] + rest;
        assert (Split(s, sep))[1..] == rest;
      } else {
        var parts := Split(s, sep);
        if |rest| == 1 {
          assert parts == [[s[0]] + rest[0]];
        } else {
          assert parts[1..] == rest[1..];
          assert Join(rest, sep) == rest[0] + [sep] + Join(rest[1..], sep);
        }
      }
    }
  }

  /** No piece of a split contains the separator. */
  lemma {:induction false} SplitFree(s: string, sep: char)
    ensures Free(Split(s, sep), sep)
  {
    if s != [] {
      SplitFree(s[1..], sep);
    }
  }

  /** There is one more piece than there are separators in the string. */
  lemma {:induction false} SplitCount(s: string, sep: char)
    ensures |Split(s, sep)| == multiset(s)[sep] + 1
  {
    if s != [] {
      SplitCount(s[1..], sep);
      assert s == [s[0]] + s[1..];
      assert multiset(s) == multiset([s[0]]) + multiset(s[1..]);
    }
  }

  /** Splitting a join of separator-free pieces gives back the pieces, so a
      split is the unique separator-free decomposition of its input. */
  lemma {:induction false} SplitJoin(parts: seq<string>, sep: char)
    requires |parts| >= 1 && Free(parts, sep)
    ensures Split(Join(parts, sep), sep) == parts
  {
    if |parts| == 1 {
      SplitOfFree(parts[0], [], sep);
    } else {
      SplitJoin(parts[1..], sep);
      SplitOfFree(parts[0], Join(parts[1..], sep), sep);
      assert [parts[0]] + parts[1..] == parts;
    }
  }

  /** Helper for `SplitJoin`: a separator-free head `w` merges into the first
      piece of whatever follows it (or is the last piece, when nothing does). */
  lemma {:induction false} SplitOfFree(w: string, tail: string, sep: char)
    requires sep !in w
    ensures tail == [] ==> Split(w, sep) == [w]
    ensures Split(w + [sep] + tail, sep) == [w] + Split(tail, sep)
  {
    if w == [] {
      assert [] + [sep] + tail == [sep] + tail;
      assert ([sep] + tail)[1..] == tail;
    } else {
      SplitOfFree(w[1..], tail, sep);
      assert (w + [sep] + tail)[1..] == w[1..] + [sep] + tail;
      assert (w + [sep] + tail)[0] == w[0];
      assert [w[0]] + w[1..] == w;
    }
  }
}
