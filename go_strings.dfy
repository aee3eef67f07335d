/** The part of Go's `strings` package the bootstrap relies on:
    `strings.TrimSpace`, which removes leading and trailing white space as
    defined by `unicode.IsSpace`. */
module GoStrings {

  /** The white-space code points outside the range U+2000 to U+200A. */
  const SpaceChars: set<char> := {
    '\t', '\n', '\U{0B}', '\U{0C}', '\r', ' ', '\U{85}', '\U{A0}',
    '\U{1680}', '\U{2028}', '\U{2029}', '\U{202F}', '\U{205F}', '\U{3000}'}

  /** `unicode.IsSpace`: the six ASCII spaces, NEL and NO-BREAK SPACE in
      Latin-1, and the other code points of Unicode's White_Space property. */
  predicate IsSpace(c: char) {
    c in SpaceChars || '\U{2000}' <= c <= '\U{200A}'
  }

  /** Every character of `s` is white space (vacuously so for ""). */
  ghost predicate AllSpace(s: string) {
    forall i :: 0 <= i < |s| ==> IsSpace(s[i])
  }

  /** `r` occurs in `s` with nothing but white space before and after it. */
  ghost predicate SpacePadded(r: string, s: string) {
    exists i :: 0 <= i && i + |r| <= |s| && r == s[i..i + |r|] && AllSpace(s[..i]) && AllSpace(s[i + |r|..])
  }

  /** Drops the white space at the front of `s`: the result is a suffix of
      `s`, everything dropped is white space, and the result does not start
      with white space. */
  function TrimLeftSpace(s: string): (r: string)
    ensures |r| <= |s| && r == s[|s| - |r|..]
    ensures AllSpace(s[..|s| - |r|])
    ensures r != [] ==> !IsSpace(r[0])
  {
    if s != [] && IsSpace(s[0]) then TrimLeftSpace(s[1..]) else s
  }

  /** Drops the white space at the back of `s`: the result is a prefix of
      `s`, everything dropped is white space, and the result does not end
      with white space. */
  function TrimRightSpace(s: string): (r: string)
    ensures |r| <= |s| && r == s[..|r|]
    ensures AllSpace(s[|r|..])
    ensures r != [] ==> !IsSpace(r[|r| - 1])
  {
    if s != [] && IsSpace(s[|s| - 1]) then TrimRightSpace(s[..|s| - 1]) else s
  }

  /** `strings.TrimSpace`: the result is a slice of `s` with only white
      space around it in `s`, and it neither starts nor ends with white
      space. */
  function TrimSpace(s: string): (r: string)
    ensures SpacePadded(r, s)
    ensures r != [] ==> !IsSpace(r[0]) && !IsSpace(r[|r| - 1])
    ensures r == [] <==> AllSpace(s)
  {
    var left := TrimLeftSpace(s);
    assert left == [] ==> AllSpace(s) by {
      if left == [] { assert s[..|s|] == s; }
    }
    var r := TrimRightSpace(left);
    TrimmedTwiceIsPadded(s, left, r);
    r
  }

  /** Cutting white space off the front of `s`, giving `left`, and then off
      the back of `left`, giving `r`, leaves `r` padded in `s`. */
  lemma TrimmedTwiceIsPadded(s: string, left: string, r: string)
    requires |left| <= |s| && left == s[|s| - |left|..] && AllSpace(s[..|s| - |left|])
    requires |r| <= |left| && r == left[..|r|] && AllSpace(left[|r|..])
    ensures SpacePadded(r, s)
  {
    var i := |s| - |left|;
    assert r == s[i..i + |r|] by {
      assert left[..|r|] == s[i..i + |r|];
    }
    assert AllSpace(s[i + |r|..]) by {
      assert left[|r|..] == s[i + |r|..];
    }
  }

  /** If `s[..i]` is white space and `s[i]` is not (or `i` is the end of
      `s`), then trimming the front leaves exactly `s[i..]`. */
  lemma {:induction false} TrimLeftSpaceAt(s: string, i: nat)
    requires i <= |s| && AllSpace(s[..i])
    requires i == |s| || !IsSpace(s[i])
    ensures TrimLeftSpace(s) == s[i..]
  {
    if i > 0 {
      assert IsSpace(s[..i][0]);
      var t := s[1..];
      assert AllSpace(t[..i - 1]) by {
        forall k | 1 <= k < i ensures IsSpace(s[k]) {
          assert s[..i][k] == s[k];
        }
      }
      assert i < |s| ==> t[i - 1] == s[i];
      TrimLeftSpaceAt(t, i - 1);
      assert t[i - 1..] == s[i..];
    }
  }

  /** If `s[j..]` is white space and `s[j - 1]` is not (or `j` is 0), then
      trimming the back leaves exactly `s[..j]`. */
  lemma {:induction false} TrimRightSpaceAt(s: string, j: nat)
    requires j <= |s| && AllSpace(s[j..])
    requires j == 0 || !IsSpace(s[j - 1])
    ensures TrimRightSpace(s) == s[..j]
  {
    if j < |s| {
      assert IsSpace(s[j..][|s| - 1 - j]);
      var t := s[..|s| - 1];
      assert AllSpace(t[j..]) by {
        forall k | 0 <= k < |t| - j ensures IsSpace(t[j..][k]) {
          assert t[j..][k] == s[j..][k];
        }
      }
      assert j > 0 ==> t[j - 1] == s[j - 1];
      TrimRightSpaceAt(t, j);
      assert t[..j] == s[..j];
    }
  }

  /** `TrimSpace` agrees with its reference definition: the unique slice
      `s[i..j]` whose surroundings are white space and whose ends are not. */
  lemma TrimSpaceAt(s: string, i: nat, j: nat)
    requires i <= j <= |s|
    requires AllSpace(s[..i]) && AllSpace(s[j..])
    requires i == j || (!IsSpace(s[i]) && !IsSpace(s[j - 1]))
    ensures TrimSpace(s) == s[i..j]
  {
    if i == j {
      AllSpaceJoin(s, i);
    } else {
      TrimLeftSpaceAt(s, i);
      var t := s[i..];
      SuffixSlices(s, i, j);
      TrimRightSpaceAt(t, j - i);
      assert TrimSpace(s) == TrimRightSpace(t);
    }
  }

  /** How the slices of the suffix `s[i..]` relate to those of `s`. */
  lemma SuffixSlices(s: string, i: nat, j: nat)
    requires i < j <= |s|
    ensures s[i..][j - i..] == s[j..]
    ensures s[i..][..j - i] == s[i..j]
    ensures s[i..][j - i - 1] == s[j - 1]
  {
  }

  /** White space followed by white space is white space. */
  lemma AllSpaceJoin(s: string, i: nat)
    requires i <= |s| && AllSpace(s[..i]) && AllSpace(s[i..])
    ensures AllSpace(s)
  {
    forall k | 0 <= k < |s| ensures IsSpace(s[k]) {
      if k < i { assert s[..i][k] == s[k]; } else { assert s[i..][k - i] == s[k]; }
    }
  }

  /** Trimming twice is trimming once. */
  lemma TrimSpaceIdempotent(s: string)
    ensures TrimSpace(TrimSpace(s)) == TrimSpace(s)
  {
    var r := TrimSpace(s);
    if r != [] {
      assert TrimLeftSpace(r) == r;
      assert TrimRightSpace(r) == r;
    }
  }
}
