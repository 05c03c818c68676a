/**
 * Whitespace handling used by the folder: Python's argument-less `str.strip()`
 * and the non-whitespace "ink" of a line, which folding must preserve.
 */
module Text {

  /** The characters for which Python's `str.isspace()` holds; these are
      exactly what `str.strip()` removes when called without arguments. */
  predicate IsSpace(c: char) {
    var n := c as int;
    (9 <= n <= 13) || (28 <= n <= 32) || n == 0x85 || n == 0xA0 || n == 0x1680
    || (0x2000 <= n <= 0x200A) || n == 0x2028 || n == 0x2029 || n == 0x202F
    || n == 0x205F || n == 0x3000
  }

  predicate OnlySpaces(s: string) {
    forall k :: 0 <= k < |s| ==> IsSpace(s[k])
  }

  // ---------------------------------------------------------------- sequence facts

  lemma ConsSlice(s: string, n: nat)
    requires 1 <= n <= |s|
    ensures s[..n] == [s[0]] + s[1..][..n - 1]
  {
  }

  lemma SnocSlice(s: string, n: nat)
    requires n < |s|
    ensures s[n..] == s[..|s| - 1][n..] + [s[|s| - 1]]
  {
  }

  lemma DropDrop(s: string, a: nat, b: nat)
    requires a + b <= |s|
    ensures s[a..][b..] == s[a + b..]
  {
  }

  lemma ThreeSlices(s: string, i: nat, j: nat)
    requires i <= j <= |s|
    ensures s == s[..i] + s[i..j] + s[j..]
  {
  }

  lemma ConsAppend(a: string, b: string)
    requires a != []
    ensures (a + b)[0] == a[0] && (a + b)[1..] == a[1..] + b
  {
  }

  lemma SpacesCons(c: char, u: string)
    requires IsSpace(c) && OnlySpaces(u)
    ensures OnlySpaces([c] + u)
  {
  }

  lemma SpacesSnoc(u: string, c: char)
    requires IsSpace(c) && OnlySpaces(u)
    ensures OnlySpaces(u + [c])
  {
  }

  // ---------------------------------------------------------------- strip

  /** `s` without its leading whitespace: a suffix of `s`. */
  function TrimLeft(s: string): (r: string)
    ensures |r| <= |s| && r == s[|s| - |r|..]
  {
    if |s| > 0 && IsSpace(s[0]) then TrimLeft(s[1..]) else s
  }

  /** `s` without its trailing whitespace: a prefix of `s`. */
  function TrimRight(s: string): (r: string)
    ensures |r| <= |s| && r == s[..|r|]
  {
    if |s| > 0 && IsSpace(s[|s| - 1]) then TrimRight(s[..|s| - 1]) else s
  }

  /** `TrimLeft` removes whitespace only, and all of it. */
  lemma {:induction false} TrimLeftSpaces(s: string)
    ensures OnlySpaces(s[..|s| - |TrimLeft(s)|])
    ensures TrimLeft(s) == [] || !IsSpace(TrimLeft(s)[0])
  {
    if |s| > 0 && IsSpace(s[0]) {
      var t := s[1..];
      TrimLeftSpaces(t);
      var n := |s| - |TrimLeft(s)|;
      assert TrimLeft(s) == TrimLeft(t) && n == 1 + (|t| - |TrimLeft(t)|);
      ConsSlice(s, n);
      SpacesCons(s[0], t[..n - 1]);
    } else {
      assert s[..0] == [];
    }
  }

  /** `TrimRight` removes whitespace only, and all of it. */
  lemma {:induction false} TrimRightSpaces(s: string)
    ensures OnlySpaces(s[|TrimRight(s)|..])
    ensures TrimRight(s) == [] || !IsSpace(TrimRight(s)[|TrimRight(s)| - 1])
  {
    if |s| > 0 && IsSpace(s[|s| - 1]) {
      var t := s[..|s| - 1];
      TrimRightSpaces(t);
      var n := |TrimRight(s)|;
      assert TrimRight(s) == TrimRight(t) && n <= |t|;
      SnocSlice(s, n);
      SpacesSnoc(t[n..], s[|s| - 1]);
    } else {
      assert s[|s|..] == [];
    }
  }

  /** Where the stripped text starts inside `s`. */
  function StripStart(s: string): nat {
    |s| - |TrimLeft(s)|
  }

  /** Python's `s.strip()`: a slice of `s`. */
  function Strip(s: string): (r: string)
    ensures StripStart(s) + |r| <= |s|
    ensures r == s[StripStart(s)..StripStart(s) + |r|]
  {
    TrimRight(TrimLeft(s))
  }

  /** Stripping removes exactly the whitespace at both ends: what is cut off
      is whitespace, and what is left neither starts nor ends with it. */
  lemma StripSpaces(s: string)
    ensures OnlySpaces(s[..StripStart(s)]) && OnlySpaces(s[StripStart(s) + |Strip(s)|..])
    ensures Strip(s) == [] || (!IsSpace(Strip(s)[0]) && !IsSpace(Strip(s)[|Strip(s)| - 1]))
  {
    var t := TrimLeft(s);
    var a, r := |s| - |t|, TrimRight(t);
    assert StripStart(s) == a && Strip(s) == r;
    assert OnlySpaces(s[..a]) by {
      TrimLeftSpaces(s);
    }
    assert OnlySpaces(s[a + |r|..]) by {
      TrimRightSpaces(t);
      assert t == s[a..];
      DropDrop(s, a, |r|);
    }
    if r != [] {
      assert !IsSpace(r[|r| - 1]) by {
        TrimRightSpaces(t);
      }
      assert r[0] == t[0] by {
        TrimRightPrefix(t);
      }
      assert !IsSpace(t[0]) by {
        TrimLeftSpaces(s);
      }
    }
  }

  lemma TrimRightPrefix(t: string)
    ensures TrimRight(t) == [] || TrimRight(t)[0] == t[0]
  {
  }

  /** A line with a non-whitespace character has a non-empty stripped text. */
  lemma StripNonEmpty(s: string, k: nat)
    requires k < |s| && !IsSpace(s[k])
    ensures Strip(s) != [] && StripStart(s) <= k < StripStart(s) + |Strip(s)|
  {
    StripSpaces(s);
  }

  /** Text that neither starts nor ends with whitespace is its own strip. */
  lemma StripTight(s: string)
    requires s == [] || (!IsSpace(s[0]) && !IsSpace(s[|s| - 1]))
    ensures Strip(s) == s
  {
  }

  /** Indentation in front of tight text is what stripping removes. */
  lemma {:induction false} StripIndented(pad: string, s: string)
    requires OnlySpaces(pad) && s != [] && !IsSpace(s[0]) && !IsSpace(s[|s| - 1])
    ensures Strip(pad + s) == s
  {
    if pad == [] {
      assert pad + s == s;
    } else {
      ConsAppend(pad, s);
      StripIndented(pad[1..], s);
    }
  }

  // ---------------------------------------------------------------- ink

  /** The non-whitespace characters of `s`, in order. */
  function NonSpace(s: string): (r: string)
    ensures |r| <= |s|
  {
    if s == [] then [] else (if IsSpace(s[0]) then [] else [s[0]]) + NonSpace(s[1..])
  }

  /** The ink of a line holds no whitespace. */
  lemma {:induction false} NonSpaceHasNoSpace(s: string)
    ensures forall k :: 0 <= k < |NonSpace(s)| ==> !IsSpace(NonSpace(s)[k])
  {
    if s != [] {
      NonSpaceHasNoSpace(s[1..]);
      var h: string := if IsSpace(s[0]) then [] else [s[0]];
      forall k | 0 <= k < |NonSpace(s)| ensures !IsSpace(NonSpace(s)[k]) {
        if k >= |h| {
          assert NonSpace(s)[k] == NonSpace(s[1..])[k - |h|];
        }
      }
    }
  }

  lemma {:induction false} NonSpaceAppend(a: string, b: string)
    ensures NonSpace(a + b) == NonSpace(a) + NonSpace(b)
  {
    if a == [] {
      assert a + b == b;
    } else {
      var h: string := if IsSpace(a[0]) then [] else [a[0]];
      ConsAppend(a, b);
      calc {
        NonSpace(a + b);
        h + NonSpace(a[1..] + b);
        { NonSpaceAppend(a[1..], b); }
        h + (NonSpace(a[1..]) + NonSpace(b));
        (h + NonSpace(a[1..])) + NonSpace(b);
        NonSpace(a) + NonSpace(b);
      }
    }
  }

  lemma {:induction false} NonSpaceOfSpaces(s: string)
    requires OnlySpaces(s)
    ensures NonSpace(s) == []
  {
    if s != [] {
      NonSpaceOfSpaces(s[1..]);
    }
  }

  /** Stripping a line never loses any of its ink. */
  lemma NonSpaceStrip(s: string)
    ensures NonSpace(Strip(s)) == NonSpace(s)
  {
    var a, r := StripStart(s), Strip(s);
    var pre, post := s[..a], s[a + |r|..];
    StripSpaces(s);
    NonSpaceOfSpaces(pre);
    NonSpaceOfSpaces(post);
    calc {
      NonSpace(s);
      { ThreeSlices(s, a, a + |r|); }
      NonSpace(pre + r + post);
      { NonSpaceAppend(pre + r, post); }
      NonSpace(pre + r) + NonSpace(post);
      { NonSpaceAppend(pre, r); }
      NonSpace(pre) + NonSpace(r) + NonSpace(post);
      { assert [] + NonSpace(r) + [] == NonSpace(r); }
      NonSpace(r);
    }
  }
}
