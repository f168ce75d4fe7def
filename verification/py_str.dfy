/** Python's `str.strip()` called without arguments, on Dafny strings. */
module PyStr {

  /** The characters for which Python's `str.isspace()` holds: tab, line
      feed, vertical tab, form feed, carriage return, the four information
      separators U+001C..U+001F, space, next line, no-break space, and the
      Unicode space and line/paragraph separators. These are the characters
      `str.strip()` removes from both ends. */
  predicate IsSpace(c: char) {
    ('\t' <= c <= '\r') || ('\U{1C}' <= c <= ' ') || c == '\U{85}' || c == '\U{A0}' ||
    c == '\U{1680}' || ('\U{2000}' <= c <= '\U{200A}') || c == '\U{2028}' || c == '\U{2029}' ||
    c == '\U{202F}' || c == '\U{205F}' || c == '\U{3000}'
  }

  predicate AllSpace(s: string) {
    forall i :: 0 <= i < |s| ==> IsSpace(s[i])
  }

  /** `s.strip()`: `s` with the whitespace removed from both ends. The result
      neither starts nor ends with whitespace, and it is empty exactly when `s`
      is blank. */
  function Strip(s: string): (r: string)
    ensures |r| <= |s|
    ensures r == "" || (!IsSpace(r[0]) && !IsSpace(r[|r| - 1]))
    ensures r == "" <==> AllSpace(s)
    decreases |s|
  {
    if s == "" then s
    else if IsSpace(s[0]) then
      assert AllSpace(s) <==> AllSpace(s[1..]) by {
        if AllSpace(s[1..]) {
          forall i | 1 <= i < |s| ensures IsSpace(s[i]) {
            assert s[i] == s[1..][i - 1];
          }
        }
      }
      Strip(s[1..])
    else if IsSpace(s[|s| - 1]) then
      assert AllSpace(s) <==> AllSpace(s[..|s| - 1]) by {
        if AllSpace(s[..|s| - 1]) {
          forall i | 0 <= i < |s| - 1 ensures IsSpace(s[i]) {
            assert s[i] == s[..|s| - 1][i];
          }
        }
      }
      Strip(s[..|s| - 1])
    else s
  }

  /** What `s.strip()` removes is whitespace, and only from the two ends: the
      result is a slice of `s` with nothing but whitespace before and after
      it. */
  lemma {:induction false} StripIsInnerSlice(s: string)
    ensures exists a, b :: IsInnerSlice(s, a, b)
    decreases |s|, 1
  {
    if s == "" {
      assert IsInnerSlice(s, 0, 0);
    } else if IsSpace(s[0]) {
      InnerSliceAfterLeadingSpace(s);
    } else if IsSpace(s[|s| - 1]) {
      InnerSliceBeforeTrailingSpace(s);
    } else {
      assert IsInnerSlice(s, 0, |s|);
    }
  }

  /** `s[a..b]` is what `s.strip()` returns, and around it there is only
      whitespace. */
  predicate IsInnerSlice(s: string, a: int, b: int) {
    0 <= a <= b <= |s| && Strip(s) == s[a..b] && AllSpace(s[..a]) && AllSpace(s[b..])
  }

  lemma {:induction false} InnerSliceAfterLeadingSpace(s: string)
    requires s != "" && IsSpace(s[0])
    ensures exists a, b :: IsInnerSlice(s, a, b)
    decreases |s|, 0
  {
    StripIsInnerSlice(s[1..]);
    var a, b :| IsInnerSlice(s[1..], a, b);
    StripDropsLeadingSpace(s, a, b);
    SpaceAroundAfterLeadingSpace(s, a, b);
    assert IsInnerSlice(s, a + 1, b + 1);
  }

  lemma {:induction false} InnerSliceBeforeTrailingSpace(s: string)
    requires s != "" && !IsSpace(s[0]) && IsSpace(s[|s| - 1])
    ensures exists a, b :: IsInnerSlice(s, a, b)
    decreases |s|, 0
  {
    StripIsInnerSlice(s[..|s| - 1]);
    var a, b :| IsInnerSlice(s[..|s| - 1], a, b);
    StripDropsTrailingSpace(s, a, b);
    SpaceAroundBeforeTrailingSpace(s, a, b);
    assert IsInnerSlice(s, a, b);
  }

  lemma StripDropsLeadingSpace(s: string, a: int, b: int)
    requires s != "" && IsSpace(s[0])
    requires 0 <= a <= b <= |s| - 1 && Strip(s[1..]) == s[1..][a..b]
    ensures Strip(s) == s[a + 1..b + 1]
  {
    assert s[1..][a..b] == s[a + 1..b + 1];
  }

  lemma SpaceAroundAfterLeadingSpace(s: string, a: int, b: int)
    requires s != "" && IsSpace(s[0]) && 0 <= a <= b <= |s| - 1
    requires AllSpace(s[1..][..a]) && AllSpace(s[1..][b..])
    ensures AllSpace(s[..a + 1]) && AllSpace(s[b + 1..])
  {
    var t := s[1..];
    assert t[b..] == s[b + 1..];
    assert s[..a + 1] == [s[0]] + t[..a];
    AllSpaceAppend([s[0]], t[..a]);
  }

  lemma SpaceAroundBeforeTrailingSpace(s: string, a: int, b: int)
    requires s != "" && IsSpace(s[|s| - 1]) && 0 <= a <= b <= |s| - 1
    requires AllSpace(s[..|s| - 1][..a]) && AllSpace(s[..|s| - 1][b..])
    ensures AllSpace(s[..a]) && AllSpace(s[b..])
  {
    var t := s[..|s| - 1];
    assert t[..a] == s[..a];
    assert s[b..] == t[b..] + [s[|s| - 1]];
    AllSpaceAppend(t[b..], [s[|s| - 1]]);
  }

  lemma StripDropsTrailingSpace(s: string, a: int, b: int)
    requires s != "" && !IsSpace(s[0]) && IsSpace(s[|s| - 1])
    requires 0 <= a <= b <= |s| - 1 && Strip(s[..|s| - 1]) == s[..|s| - 1][a..b]
    ensures Strip(s) == s[a..b]
  {
    assert s[..|s| - 1][a..b] == s[a..b];
  }

  lemma AllSpaceAppend(x: string, y: string)
    requires AllSpace(x) && AllSpace(y)
    ensures AllSpace(x + y)
  {
    forall i | 0 <= i < |x + y| ensures IsSpace((x + y)[i]) {
      if i >= |x| {
        assert (x + y)[i] == y[i - |x|];
      }
    }
  }
}
