/** The parts of Go's `strings` package the core relies on, over Dafny strings
    (sequences of Unicode scalar values). */
module GoStrings {

  /** Go's unicode.IsSpace: the Latin-1 spaces and the other Unicode White_Space characters. */
  predicate IsSpace(c: char)
  {
    c == '\t' || c == '\n' || c == '\U{000B}' || c == '\U{000C}' || c == '\r' || c == ' '
    || c == '\U{0085}' || c == '\U{00A0}' || c == '\U{1680}'
    || ('\U{2000}' <= c <= '\U{200A}')
    || c == '\U{2028}' || c == '\U{2029}' || c == '\U{202F}' || c == '\U{205F}' || c == '\U{3000}'
  }

  predicate AllSpace(s: string)
  {
    forall i | 0 <= i < |s| :: IsSpace(s[i])
  }

  /** A string with no white space at either end. */
  predicate Trimmed(s: string)
  {
    s == [] || (!IsSpace(s[0]) && !IsSpace(s[|s| - 1]))
  }

  /** `s` is `r` with only white space added on either side. */
  ghost predicate Pads(s: string, r: string)
    requires |r| <= |s|
  {
    exists k | 0 <= k <= |s| - |r| :: s[k..k + |r|] == r && AllSpace(s[..k]) && AllSpace(s[k + |r|..])
  }

  /** Removes leading white space: the result is the longest suffix of `s` not starting with a space. */
  function TrimLeftSpace(s: string): (r: string)
    ensures |r| <= |s| && r == s[|s| - |r|..]
    ensures AllSpace(s[..|s| - |r|])
    ensures r != [] ==> !IsSpace(r[0])
  {
    if s != [] && IsSpace(s[0]) then TrimLeftSpace(s[1..]) else s
  }

  /** Removes trailing white space: the result is the longest prefix of `s` not ending with a space. */
  function TrimRightSpace(s: string): (r: string)
    ensures |r| <= |s| && r == s[..|r|]
    ensures AllSpace(s[|r|..])
    ensures r != [] ==> !IsSpace(r[|r| - 1])
  {
    if s != [] && IsSpace(s[|s| - 1]) then TrimRightSpace(s[..|s| - 1]) else s
  }

  /** strings.TrimSpace: `s` is `a + r + b` with `a` and `b` all white space and `r` trimmed. */
  function TrimSpace(s: string): (r: string)
    ensures Trimmed(r)
    ensures |r| <= |s| && Pads(s, r)
  {
    var l := TrimLeftSpace(s);
    var r := TrimRightSpace(l);
    assert r != [] ==> r[0] == l[0];
    var k := |s| - |l|;
    assert s[k..k + |r|] == r;
    assert s[k + |r|..] == l[|r|..];
    r
  }

  lemma {:induction false} TrimLeftOfSpaces(s: string)
    requires AllSpace(s)
    ensures TrimLeftSpace(s) == []
  {
  }

  lemma {:induction false} TrimLeftPadded(a: string, x: string)
    requires AllSpace(a)
    ensures TrimLeftSpace(a + x) == TrimLeftSpace(x)
  {
    if a != [] {
      assert (a + x)[0] == a[0];
      assert (a + x)[1..] == a[1..] + x;
      assert AllSpace(a[1..]) by {
        forall i | 0 <= i < |a| - 1 ensures IsSpace(a[1..][i]) {
          assert a[1..][i] == a[i + 1];
        }
      }
      TrimLeftPadded(a[1..], x);
    } else {
      assert a + x == x;
    }
  }

  lemma {:induction false} TrimRightPadded(x: string, b: string)
    requires AllSpace(b)
    ensures TrimRightSpace(x + b) == TrimRightSpace(x)
  {
    if b != [] {
      assert (x + b)[|x + b| - 1] == b[|b| - 1];
      assert (x + b)[..|x + b| - 1] == x + b[..|b| - 1];
      assert AllSpace(b[..|b| - 1]) by {
        var b' := b[..|b| - 1];
        forall i | 0 <= i < |b'| ensures IsSpace(b'[i]) {
          assert b'[i] == b[i];
        }
      }
      TrimRightPadded(x, b[..|b| - 1]);
    } else {
      assert x + b == x;
    }
  }

  /** Trimming the left end of `x + b` leaves `b` alone once `x` holds a non-space. */
  lemma {:induction false} TrimLeftAppend(x: string, b: string)
    requires !AllSpace(x)
    ensures TrimLeftSpace(x + b) == TrimLeftSpace(x) + b
  {
    if IsSpace(x[0]) {
      assert (x + b)[1..] == x[1..] + b;
      assert !AllSpace(x[1..]) by {
        var i :| 0 <= i < |x| && !IsSpace(x[i]);
        assert x[1..][i - 1] == x[i];
      }
      TrimLeftAppend(x[1..], b);
    }
  }

  /** Surrounding white space never changes what TrimSpace returns. */
  lemma TrimSpacePadded(a: string, s: string, b: string)
    requires AllSpace(a) && AllSpace(b)
    ensures TrimSpace(a + s + b) == TrimSpace(s)
  {
    assert a + s + b == a + (s + b);
    TrimLeftPadded(a, s + b);
    if AllSpace(s) {
      assert AllSpace(s + b);
      TrimLeftOfSpaces(s + b);
      TrimLeftOfSpaces(s);
    } else {
      TrimLeftAppend(s, b);
      TrimRightPadded(TrimLeftSpace(s), b);
    }
  }

  /** TrimSpace is the identity on trimmed strings, so it is idempotent. */
  lemma TrimSpaceOfTrimmed(s: string)
    requires Trimmed(s)
    ensures TrimSpace(s) == s
  {
  }

  lemma TrimSpaceIdempotent(s: string)
    ensures TrimSpace(TrimSpace(s)) == TrimSpace(s)
  {
    TrimSpaceOfTrimmed(TrimSpace(s));
  }

  /** A trimmed string that `s` pads with white space is exactly what TrimSpace returns. */
  lemma PaddingDeterminesTrim(s: string, t: string)
    requires |t| <= |s| && Pads(s, t) && Trimmed(t)
    ensures TrimSpace(s) == t
  {
    var k :| 0 <= k <= |s| - |t| && s[k..k + |t|] == t && AllSpace(s[..k]) && AllSpace(s[k + |t|..]);
    assert s == s[..k] + t + s[k + |t|..];
    TrimSpacePadded(s[..k], t, s[k + |t|..]);
    TrimSpaceOfTrimmed(t);
  }

  /** strings.HasPrefix. */
  predicate HasPrefix(s: string, p: string)
  {
    |p| <= |s| && s[..|p|] == p
  }

  /** strings.TrimPrefix: drops `p` once from the front when it is there. */
  function TrimPrefix(s: string, p: string): (r: string)
    ensures HasPrefix(s, p) ==> p + r == s
    ensures !HasPrefix(s, p) ==> r == s
  {
    if HasPrefix(s, p) then s[|p|..] else s
  }

  predicate HasSuffix(s: string, p: string)
  {
    |p| <= |s| && s[|s| - |p|..] == p
  }

  /** strings.TrimSuffix: drops `p` once from the end when it is there. */
  function TrimSuffix(s: string, p: string): (r: string)
    ensures HasSuffix(s, p) ==> r + p == s
    ensures !HasSuffix(s, p) ==> r == s
  {
    if HasSuffix(s, p) then s[..|s| - |p|] else s
  }
}
