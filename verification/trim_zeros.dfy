/**
 * `text.replace(/\.?0+$/, "")`, the clean-up applied to `toFixed` output by the unit
 * and percentage calculators.
 *
 * The regular expression matches an optional '.' followed by one or more '0' at the
 * end of the text; `replace` removes the leftmost such match, which is the longest
 * matching suffix.
 */
module TrimZeros {

  /** The number of '0' characters at the end of `s`. */
  function TrailingZeros(s: string): (z: nat)
    ensures z <= |s|
    ensures forall k :: |s| - z <= k < |s| ==> s[k] == '0'
    ensures z < |s| ==> s[|s| - z - 1] != '0'
  {
    if s != [] && s[|s| - 1] == '0' then 1 + TrailingZeros(s[..|s| - 1]) else 0
  }

  function TrimTrailingZeros(s: string): string {
    var z := TrailingZeros(s);
    if z == 0 then s
    else if z < |s| && s[|s| - z - 1] == '.' then s[..|s| - z - 1]
    else s[..|s| - z]
  }

  /** The text is one or more '0'. */
  predicate AllZeros(t: string) {
    t != [] && forall k :: 0 <= k < |t| ==> t[k] == '0'
  }

  /** The regular expression `\.?0+$` matches the suffix of `s` that starts at `i`. */
  predicate MatchesAt(s: string, i: int) {
    0 <= i < |s| && (AllZeros(s[i..]) || (s[i] == '.' && AllZeros(s[i + 1..])))
  }

  /** The trim is exactly the regular-expression replacement: it cuts `s` at the leftmost
      match, and leaves `s` whole when nothing matches. */
  lemma LeftmostMatch(s: string)
    ensures var r := TrimTrailingZeros(s);
      && |r| <= |s| && r == s[..|r|]
      && (r != s ==> MatchesAt(s, |r|))
      && (forall j :: 0 <= j < |r| ==> !MatchesAt(s, j))
      && (r == s ==> forall j :: !MatchesAt(s, j))
  {
    var z := TrailingZeros(s);
    var r := TrimTrailingZeros(s);
    forall j | 0 <= j < |r| ensures !MatchesAt(s, j) {
      NoMatchBefore(s, z, j);
    }
    if r == s {
      forall j | 0 <= j < |s| ensures !MatchesAt(s, j) {
        NoMatchBefore(s, z, j);
      }
    } else {
      assert AllZeros(s[|s| - z..]);
      if z < |s| && s[|s| - z - 1] == '.' {
        assert s[|s| - z - 1 + 1..] == s[|s| - z..];
      }
    }
  }

  /** No match starts before the run of trailing zeros, except at a '.' just before it. */
  lemma NoMatchBefore(s: string, z: nat, j: int)
    requires z == TrailingZeros(s) && 0 <= j < |s|
    requires j < |s| - z - 1 || (j == |s| - z - 1 && s[j] != '.') || z == 0
    ensures !MatchesAt(s, j)
  {
    if z == 0 {
      assert s[|s| - 1] != '0';
      assert s[j..][|s| - 1 - j] == s[|s| - 1];
      if j + 1 < |s| {
        assert s[j + 1..][|s| - 2 - j] == s[|s| - 1];
      }
    } else {
      assert s[j..][|s| - z - 1 - j] == s[|s| - z - 1];
      if j + 1 < |s| - z {
        assert s[j + 1..][|s| - z - 2 - j] == s[|s| - z - 1];
      }
    }
  }

  /** A character other than '0' stops the count of trailing zeros. */
  lemma {:induction false} TrailingZerosAfter(a: string, fp: string)
    requires a != [] && a[|a| - 1] != '0'
    ensures TrailingZeros(a + fp) == TrailingZeros(fp)
  {
    if fp != [] && fp[|fp| - 1] == '0' {
      assert (a + fp)[..|a + fp| - 1] == a + fp[..|fp| - 1];
      TrailingZerosAfter(a, fp[..|fp| - 1]);
    }
  }

  /** The fractional digits without their trailing zeros. */
  function StripZeros(fp: string): string {
    fp[..|fp| - TrailingZeros(fp)]
  }

  /** On toFixed output "ip.fp" the trim drops only trailing fractional zeros, and the
      '.' when no fractional digit is left; the integer part is never touched. */
  lemma OnFixedText(ip: string, fp: string)
    requires ip != [] && fp != [] && '.' !in fp
    ensures TrimTrailingZeros(ip + "." + fp)
      == ip + (if StripZeros(fp) == "" then "" else "." + StripZeros(fp))
  {
    var a := ip + ".";
    var s := a + fp;
    assert ip + "." + fp == s;
    TrailingZerosAfter(a, fp);
    var z := TrailingZeros(fp);
    assert TrailingZeros(s) == z;
    if z == |fp| {
      assert s[|s| - z - 1] == '.';
      assert s[..|s| - z - 1] == ip;
    } else if z > 0 {
      assert s[|s| - z - 1] == fp[|fp| - z - 1] != '.';
      assert StripZeros(fp) == fp[..|fp| - z] != "";
      assert s[..|s| - z] == ip + "." + fp[..|fp| - z];
    } else {
      assert StripZeros(fp) == fp;
    }
  }

  /** Without a '.', the trim eats integer digits: "100" becomes "1". */
  lemma EatsIntegerZeros()
    ensures TrimTrailingZeros("100") == "1"
  {
    assert TrailingZeros("10") == 1 by {
      assert "10"[..1] == "1";
    }
    assert "100"[..2] == "10";
    assert "100"[..1] == "1";
  }
}
