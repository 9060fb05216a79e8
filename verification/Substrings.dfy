/** Substring search, as in strings.Contains. */
module Substrings {

  predicate ContainsAt(s: string, sub: string, i: int) {
    0 <= i && i + |sub| <= |s| && s[i..i + |sub|] == sub
  }

  predicate Contains(s: string, sub: string) {
    exists i :: 0 <= i <= |s| && ContainsAt(s, sub, i)
  }

  lemma MatchedChar(s: string, sub: string, i: int)
    requires ContainsAt(s, sub, i)
    ensures forall k {:trigger s[k]} :: i <= k < i + |sub| ==> s[k] == sub[k - i]
  {
  }

  lemma Mismatch(s: string, sub: string, i: int, k: nat)
    requires 0 <= i && i + |sub| <= |s| && k < |sub| && s[i + k] != sub[k]
    ensures !ContainsAt(s, sub, i)
  {
  }

  lemma ContainedIn(a: string, s: string, b: string, sub: string)
    requires Contains(s, sub)
    ensures Contains(a + s + b, sub)
  {
    var i :| 0 <= i <= |s| && ContainsAt(s, sub, i);
    assert (a + s + b)[|a| + i..|a| + i + |sub|] == sub;
    assert ContainsAt(a + s + b, sub, |a| + i);
  }

  /** A character that does not occur in the pattern separates the text. */
  lemma SeparatedBy(a: string, c: char, b: string, sub: string)
    requires sub != "" && c !in sub
    ensures Contains(a + [c] + b, sub) <==> Contains(a, sub) || Contains(b, sub)
  {
    var s := a + [c] + b;
    if Contains(s, sub) {
      var i :| 0 <= i <= |s| && ContainsAt(s, sub, i);
      MatchedChar(s, sub, i);
      assert s[|a|] == c && !(i <= |a| < i + |sub|);
      if i + |sub| <= |a| {
        assert a[i..i + |sub|] == sub;
        assert ContainsAt(a, sub, i);
      } else {
        var j := i - |a| - 1;
        assert b[j..j + |sub|] == sub;
        assert ContainsAt(b, sub, j);
      }
    }
    if Contains(a, sub) {
      ContainedIn("", a, [c] + b, sub);
      assert "" + a + ([c] + b) == s;
    }
    if Contains(b, sub) {
      ContainedIn(a + [c], b, "", sub);
      assert a + [c] + b + "" == s;
    }
  }

  /** Text without the pattern's last character adds no match at the end. */
  lemma NoMatchAdded(a: string, b: string, sub: string)
    requires sub != "" && sub[|sub| - 1] !in b
    ensures Contains(a + b, sub) <==> Contains(a, sub)
  {
    var s := a + b;
    if Contains(s, sub) {
      var i :| 0 <= i <= |s| && ContainsAt(s, sub, i);
      MatchedChar(s, sub, i);
      assert s[i + |sub| - 1] == sub[|sub| - 1];
      assert a[i..i + |sub|] == sub;
      assert ContainsAt(a, sub, i);
    }
    if Contains(a, sub) {
      ContainedIn("", a, b, sub);
      assert "" + a + b == s;
    }
  }

  /** One more character completes a match only after the rest of the pattern. */
  lemma NoMatchCompleted(a: string, c: char, sub: string, k: nat)
    requires |sub| <= |a| + 1 && 1 < k <= |sub|
    requires a[|a| + 1 - k] != sub[|sub| - k]
    ensures Contains(a + [c], sub) <==> Contains(a, sub)
  {
    var s := a + [c];
    if Contains(s, sub) {
      var i :| 0 <= i <= |s| && ContainsAt(s, sub, i);
      MatchedChar(s, sub, i);
      assert s[|s| - k] == a[|a| + 1 - k];
      assert a[i..i + |sub|] == sub;
      assert ContainsAt(a, sub, i);
    }
    if Contains(a, sub) {
      ContainedIn("", a, [c], sub);
      assert "" + a + [c] == s;
    }
  }
}
