/** The two Python string operations the path derivation is built from:
    `s.split(sep)[-1]` and `s.replace(pat, '')`. */
module PyStr {

  /** `pat` occurs in `s` starting at index `i`. */
  predicate OccursAt(s: string, pat: string, i: int)
  {
    0 <= i && i + |pat| <= |s| && s[i..i + |pat|] == pat
  }

  /** `s.split(sep)[-1]`: the text after the last `sep` in `s`, or the whole
      of `s` when `sep` does not occur in it. */
  function LastSegment(s: string, sep: char): (r: string)
    ensures sep !in r
    ensures |r| <= |s| && r == s[|s| - |r|..]
    ensures |r| < |s| ==> s[|s| - |r| - 1] == sep
  {
    if s == [] then []
    else if s[|s| - 1] == sep then []
    else LastSegment(s[..|s| - 1], sep) + [s[|s| - 1]]
  }

  /** `s.replace(pat, '')`: every non-overlapping occurrence of `pat` is
      deleted, scanning from the left; an empty pattern leaves `s` as it is. */
  function RemoveAll(s: string, pat: string): (r: string)
    ensures |r| <= |s|
    ensures pat == [] ==> r == s
    decreases |s|
  {
    if pat == [] || |s| < |pat| then s
    else if s[..|pat|] == pat then RemoveAll(s[|pat|..], pat)
    else [s[0]] + RemoveAll(s[1..], pat)
  }

  /** A string without the separator is its own last segment. */
  lemma {:induction false} LastSegmentWithoutSeparator(s: string, sep: char)
    requires sep !in s
    ensures LastSegment(s, sep) == s
  {
    if s != [] {
      assert s[|s| - 1] in s;
      assert sep !in s[..|s| - 1] by {
        forall c | c in s[..|s| - 1] ensures c in s { }
      }
      LastSegmentWithoutSeparator(s[..|s| - 1], sep);
      assert s[..|s| - 1] + [s[|s| - 1]] == s;
    }
  }

  /** Splitting on the last separator: whatever precedes the last segment is
      either empty or ends in the separator. */
  lemma SplitAtLastSegment(s: string, sep: char)
    ensures var seg := LastSegment(s, sep);
            var dir := s[..|s| - |seg|];
            dir + seg == s && (dir == [] || dir[|dir| - 1] == sep)
  {
  }

  /** Removing a pattern that does not occur leaves the string unchanged. */
  lemma {:induction false} RemoveAllAbsent(s: string, pat: string)
    requires forall i :: !OccursAt(s, pat, i)
    ensures RemoveAll(s, pat) == s
    decreases |s|
  {
    assert !OccursAt(s, pat, 0);
    if |s| >= |pat| {
      forall i | 0 <= i && i + |pat| <= |s| - 1 ensures !OccursAt(s[1..], pat, i) {
        assert s[i + 1..i + 1 + |pat|] == s[1..][i..i + |pat|];
        assert !OccursAt(s, pat, i + 1);
      }
      RemoveAllAbsent(s[1..], pat);
      assert [s[0]] + s[1..] == s;
    }
  }

  /** When `pat` occurs in `s` only as its suffix, removing it strips exactly
      that suffix. */
  lemma {:induction false} RemoveAllOnlySuffix(s: string, pat: string)
    requires pat != [] && |pat| <= |s|
    requires OccursAt(s, pat, |s| - |pat|)
    requires forall i :: 0 <= i < |s| - |pat| ==> !OccursAt(s, pat, i)
    ensures RemoveAll(s, pat) == s[..|s| - |pat|]
    decreases |s|
  {
    if |s| == |pat| {
      assert s[..|pat|] == pat;
      assert s[|pat|..] == [];
    } else {
      assert !OccursAt(s, pat, 0);
      var t := s[1..];
      assert OccursAt(t, pat, |t| - |pat|) by {
        forall j | |t| - |pat| <= j < |t| ensures t[j] == s[j + 1] { }
        assert t[|t| - |pat|..|t|] == s[|s| - |pat|..|s|];
      }
      forall i | 0 <= i < |t| - |pat| ensures !OccursAt(t, pat, i) {
        forall k | i <= k < i + |pat| ensures t[k] == s[k + 1] { }
        assert s[i + 1..i + 1 + |pat|] == t[i..i + |pat|];
        assert !OccursAt(s, pat, i + 1);
      }
      RemoveAllOnlySuffix(t, pat);
      assert [s[0]] + t[..|t| - |pat|] == s[..|s| - |pat|];
    }
  }

  /** The last segment of `dir + sep + seg`, where `seg` has no separator, is `seg`. */
  lemma {:induction false} LastSegmentAfterSeparator(dir: string, seg: string, sep: char)
    requires sep !in seg
    ensures LastSegment(dir + [sep] + seg, sep) == seg
    decreases |seg|
  {
    var s := dir + [sep] + seg;
    if seg != [] {
      assert seg[|seg| - 1] in seg;
      var init := seg[..|seg| - 1];
      assert sep !in init by {
        forall c | c in init ensures c in seg { }
      }
      assert s[..|s| - 1] == dir + [sep] + init;
      LastSegmentAfterSeparator(dir, init, sep);
      assert init + [seg[|seg| - 1]] == seg;
    }
  }

  /** No occurrence of `pat` begins inside a prefix that lacks `pat`'s first
      character. */
  lemma NoOccurrenceInPrefix(prefix: string, rest: string, pat: string)
    requires pat != [] && pat[0] !in prefix
    ensures forall i :: 0 <= i < |prefix| ==> !OccursAt(prefix + rest, pat, i)
  {
    var s := prefix + rest;
    forall i | 0 <= i < |prefix| ensures !OccursAt(s, pat, i) {
      assert s[i] == prefix[i] && prefix[i] in prefix;
      if i + |pat| <= |s| {
        assert s[i..i + |pat|][0] == s[i];
      }
    }
  }

  /** A leading occurrence is deleted and the scan resumes right after it. */
  lemma RemoveAllLeading(pat: string, s: string)
    requires pat != []
    ensures RemoveAll(pat + s, pat) == RemoveAll(s, pat)
  {
    assert (pat + s)[..|pat|] == pat;
    assert (pat + s)[|pat|..] == s;
  }

  /** A pattern without the separator that does not occur in `prefix` does
      not start anywhere in `prefix + [sep] + rest` up to the separator. */
  lemma NoOccurrenceBeforeSeparator(prefix: string, rest: string, pat: string, sep: char)
    requires sep !in pat
    requires forall i :: !OccursAt(prefix, pat, i)
    ensures forall i :: 0 <= i <= |prefix| ==> !OccursAt(prefix + [sep] + rest, pat, i)
  {
    var s := prefix + [sep] + rest;
    forall i | 0 <= i <= |prefix| && i + |pat| <= |s| ensures !OccursAt(s, pat, i) {
      if i + |pat| <= |prefix| {
        assert s[i..i + |pat|] == prefix[i..i + |pat|];
        assert !OccursAt(prefix, pat, i);
      } else {
        assert s[i..i + |pat|][|prefix| - i] == sep;
        assert pat[|prefix| - i] in pat;
      }
    }
  }

  /** Without an occurrence at the front, `replace` keeps the first
      character and carries on with the rest. */
  lemma RemoveAllKeepsFirst(s: string, pat: string)
    requires pat != [] && |pat| <= |s| && !OccursAt(s, pat, 0)
    ensures RemoveAll(s, pat) == [s[0]] + RemoveAll(s[1..], pat)
  {
    assert s[..|pat|] == s[0..|pat|];
  }

  /** The first occurrence in `s`, when not at the front, is one character
      earlier in `s[1..]` and is the first one there too. */
  lemma FirstOccurrenceInTail(s: string, pat: string, i: nat)
    requires 0 < i && OccursAt(s, pat, i)
    requires forall j :: 0 <= j < i ==> !OccursAt(s, pat, j)
    ensures OccursAt(s[1..], pat, i - 1)
    ensures forall j :: 0 <= j < i - 1 ==> !OccursAt(s[1..], pat, j)
  {
    assert s[1..][i - 1..i - 1 + |pat|] == s[i..i + |pat|];
    forall j | 0 <= j < i - 1 && j + |pat| <= |s| - 1 ensures !OccursAt(s[1..], pat, j) {
      assert s[1..][j..j + |pat|] == s[j + 1..j + 1 + |pat|];
      assert !OccursAt(s, pat, j + 1);
    }
  }

  /** Putting the first character back in front of what `replace` leaves
      of `s[1..]` before and after the first occurrence. */
  lemma ConsPieces(s: string, i: nat, n: nat, whole: string, tail: string, after: string)
    requires 0 < i && i + n <= |s|
    requires whole == [s[0]] + tail && tail == s[1..][..i - 1] + after
    ensures whole == s[..i] + after
  {
    assert [s[0]] + s[1..][..i - 1] == s[..i];
  }

  /** `replace` on any input: everything before the first occurrence is
      kept, that occurrence is deleted, and the scan resumes right after it.
      With `RemoveAllAbsent` this determines `RemoveAll` everywhere. */
  lemma {:induction false} RemoveAllAtFirstOccurrence(s: string, pat: string, i: nat)
    requires pat != [] && OccursAt(s, pat, i)
    requires forall j :: 0 <= j < i ==> !OccursAt(s, pat, j)
    ensures RemoveAll(s, pat) == s[..i] + RemoveAll(s[i + |pat|..], pat)
    decreases i
  {
    if i == 0 {
      assert s == pat + s[|pat|..];
      RemoveAllLeading(pat, s[|pat|..]);
      assert s[..0] == [];
    } else {
      var t := s[1..];
      assert !OccursAt(s, pat, 0);
      RemoveAllKeepsFirst(s, pat);
      FirstOccurrenceInTail(s, pat, i);
      RemoveAllAtFirstOccurrence(t, pat, i - 1);
      assert t[i - 1 + |pat|..] == s[i + |pat|..];
      ConsPieces(s, i, |pat|, RemoveAll(s, pat), RemoveAll(t, pat), RemoveAll(s[i + |pat|..], pat));
    }
  }

  /** A pattern whose first character never appears in `s` does not occur. */
  lemma NoOccurrenceWithoutFirstChar(s: string, pat: string)
    requires pat != [] && pat[0] !in s
    ensures forall i :: !OccursAt(s, pat, i)
  {
    forall i ensures !OccursAt(s, pat, i) {
      if 0 <= i && i + |pat| <= |s| {
        assert s[i..i + |pat|][0] == s[i] && s[i] in s;
      }
    }
  }

}
