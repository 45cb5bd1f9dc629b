/** The few operations of Python's `str` that the chatbot uses: `isspace`,
    `strip`, `split()`, `in`, `replace` and `sep.join`, with Python's
    semantics written out. */
module Strings {

  /** Python's `str.isspace()` on one character: the ASCII controls TAB to CR,
      the four information separators, SPACE, and the Unicode white-space
      characters. `strip()` and `split()` with no argument use this set. */
  predicate IsSpace(c: char) {
    ('\t' <= c <= '\r') || ('\U{1C}' <= c <= '\U{1F}') || c == ' '
    || c == '\U{85}' || c == '\U{A0}' || c == '\U{1680}'
    || ('\U{2000}' <= c <= '\U{200A}') || c == '\U{2028}' || c == '\U{2029}'
    || c == '\U{202F}' || c == '\U{205F}' || c == '\U{3000}'
  }

  /** No leading and no trailing white space. */
  predicate IsStripped(s: string) {
    s == [] || (!IsSpace(s[0]) && !IsSpace(s[|s| - 1]))
  }

  /** Every character is white space (Python: `not s.strip()`). */
  predicate AllSpace(s: string) {
    forall i :: 0 <= i < |s| ==> IsSpace(s[i])
  }

  /** The number of white-space characters at the front of `s`: what
      Python's `s.lstrip()` drops. */
  function LeadingSpaces(s: string): (n: nat)
    ensures n <= |s|
    ensures forall i :: 0 <= i < n ==> IsSpace(s[i])
    ensures n < |s| ==> !IsSpace(s[n])
    decreases |s|
  {
    if s == [] || !IsSpace(s[0]) then 0 else 1 + LeadingSpaces(s[1..])
  }

  /** The number of white-space characters at the end of `s`: what
      Python's `s.rstrip()` drops. */
  function TrailingSpaces(s: string): (n: nat)
    ensures n <= |s|
    ensures forall i :: |s| - n <= i < |s| ==> IsSpace(s[i])
    ensures n < |s| ==> !IsSpace(s[|s| - n - 1])
    decreases |s|
  {
    if s == [] || !IsSpace(s[|s| - 1]) then 0 else 1 + TrailingSpaces(s[..|s| - 1])
  }

  /** Python's `s.strip()`: `s` without its leading and trailing white space. */
  function Strip(s: string): string {
    var a := LeadingSpaces(s);
    s[a..|s| - TrailingSpaces(s[a..])]
  }

  /** A string that is already stripped is its own strip. */
  lemma StripStripped(s: string)
    requires IsStripped(s)
    ensures Strip(s) == s
  {
    if s != [] {
      assert LeadingSpaces(s) == 0;
      assert TrailingSpaces(s) == 0;
    }
  }

  /** Python's truth test on `s.strip()` fails exactly on the strings made
      of white space only. */
  lemma StripEmptyIff(s: string)
    ensures Strip(s) == "" <==> AllSpace(s)
  {
    var a := LeadingSpaces(s);
    var t := s[a..];
    if a < |s| {
      assert !IsSpace(t[0]);
      assert TrailingSpaces(t) < |t|;
      assert !IsSpace(s[a]);
    } else {
      assert t == [];
    }
  }

  /** The length of the run of non-space characters at the front of `s`. */
  function WordLength(s: string): (n: nat)
    ensures n <= |s|
    ensures forall i :: 0 <= i < n ==> !IsSpace(s[i])
    ensures n < |s| ==> IsSpace(s[n])
    decreases |s|
  {
    if s == [] || IsSpace(s[0]) then 0 else 1 + WordLength(s[1..])
  }

  /** Python's `s.split()`: the maximal runs of non-space characters, in order. */
  function Split(s: string): (words: seq<string>)
    ensures forall k :: 0 <= k < |words| ==> words[k] != [] && !exists i :: 0 <= i < |words[k]| && IsSpace(words[k][i])
    decreases |s|
  {
    var t := s[LeadingSpaces(s)..];
    if t == [] then []
    else
      var n := WordLength(t);
      [t[..n]] + Split(t[n..])
  }

  /** `split()` finds no word exactly when the string is blank, so a blank
      prompt counts as zero tokens. */
  lemma SplitEmptyIff(s: string)
    ensures Split(s) == [] <==> AllSpace(s)
  {
  }

  /** Python's `sub in s` for strings. */
  predicate Contains(s: string, sub: string)
    decreases |s|
  {
    sub <= s || (s != [] && Contains(s[1..], sub))
  }

  /** `Contains` finds exactly the occurrences at some index. */
  lemma {:induction false} ContainsAt(s: string, sub: string, i: nat)
    requires i + |sub| <= |s| && s[i..i + |sub|] == sub
    ensures Contains(s, sub)
    decreases i
  {
    if i == 0 {
      assert sub <= s;
    } else {
      assert s[1..][i - 1..i - 1 + |sub|] == s[i..i + |sub|];
      ContainsAt(s[1..], sub, i - 1);
    }
  }

  /** Python's `s.replace("", rep)`: `rep` before every character and at the end. */
  function InsertEverywhere(s: string, rep: string): (r: string)
    ensures |r| == |s| + (|s| + 1) * |rep|
    decreases |s|
  {
    if s == [] then rep else rep + [s[0]] + InsertEverywhere(s[1..], rep)
  }

  /** Python's `s.replace(pat, rep)`: scanning left to right, every
      occurrence of `pat` that does not overlap an earlier replaced one is
      replaced by `rep`; the replacement text is not scanned again. */
  function ReplaceAll(s: string, pat: string, rep: string): string
    decreases |s|
  {
    if pat == [] then InsertEverywhere(s, rep)
    else if pat <= s then rep + ReplaceAll(s[|pat|..], pat, rep)
    else if s == [] then []
    else [s[0]] + ReplaceAll(s[1..], pat, rep)
  }

  /** Replacing a pattern by itself changes nothing, for every pattern,
      the empty one included. */
  lemma {:induction false} ReplaceBySelf(s: string, pat: string)
    ensures ReplaceAll(s, pat, pat) == s
    decreases |s|
  {
    if pat == [] {
      InsertEmpty(s);
    } else if pat <= s {
      ReplaceBySelf(s[|pat|..], pat);
      assert s == pat + s[|pat|..];
    } else if s != [] {
      ReplaceBySelf(s[1..], pat);
      assert s == [s[0]] + s[1..];
    }
  }

  lemma {:induction false} InsertEmpty(s: string)
    ensures InsertEverywhere(s, "") == s
    decreases |s|
  {
    if s != [] {
      InsertEmpty(s[1..]);
      assert s == [s[0]] + s[1..];
    }
  }

  /** Deleting a non-empty pattern never lengthens the string. */
  lemma {:induction false} RemoveShrinks(s: string, pat: string)
    requires pat != []
    ensures |ReplaceAll(s, pat, "")| <= |s|
    decreases |s|
  {
    if pat <= s {
      RemoveShrinks(s[|pat|..], pat);
    } else if s != [] {
      RemoveShrinks(s[1..], pat);
    }
  }

  /** Deleting a non-empty pattern leaves the string as it was exactly when
      the pattern does not occur in it. */
  lemma {:induction false} RemoveUnchangedIff(s: string, pat: string)
    requires pat != []
    ensures ReplaceAll(s, pat, "") == s <==> !Contains(s, pat)
    decreases |s|
  {
    if pat <= s {
      RemoveShrinks(s[|pat|..], pat);
      assert |ReplaceAll(s, pat, "")| < |s|;
    } else if s != [] {
      RemoveUnchangedIff(s[1..], pat);
      var rest := ReplaceAll(s[1..], pat, "");
      assert ReplaceAll(s, pat, "") == [s[0]] + rest;
      if rest != s[1..] {
        assert ([s[0]] + rest)[1..] == rest;
      } else {
        assert s == [s[0]] + s[1..];
      }
    }
  }

  /** A string in which no suffix starts with `pat` does not contain it. */
  lemma {:induction false} NoMatchNotContains(c: string, pat: string)
    requires pat != []
    requires forall i :: 0 <= i < |c| ==> !(pat <= c[i..])
    ensures !Contains(c, pat)
    decreases |c|
  {
    if c != [] {
      assert c[0..] == c;
      forall i | 0 <= i < |c[1..]| ensures !(pat <= c[1..][i..]) {
        assert c[1..][i..] == c[i + 1..];
      }
      NoMatchNotContains(c[1..], pat);
    }
  }

  /** A prefix `a` in which no occurrence of `pat` starts is copied
      through unchanged by a deletion of `pat`. */
  lemma {:induction false} SkipUnmatched(a: string, rest: string, pat: string)
    requires pat != []
    requires forall i :: 0 <= i < |a| ==> !(pat <= (a + rest)[i..])
    ensures ReplaceAll(a + rest, pat, "") == a + ReplaceAll(rest, pat, "")
    decreases |a|
  {
    if a != [] {
      assert !(pat <= (a + rest)[0..]);
      assert (a + rest)[0..] == a + rest;
      assert (a + rest)[1..] == a[1..] + rest;
      forall i | 0 <= i < |a[1..]| ensures !(pat <= (a[1..] + rest)[i..]) {
        assert (a[1..] + rest)[i..] == (a + rest)[i + 1..];
      }
      SkipUnmatched(a[1..], rest, pat);
      assert a == [a[0]] + a[1..];
    }
  }

  /** Deleting a pattern that occurs once, after `a`, removes just that
      occurrence and closes nothing up. */
  lemma RemoveOnly(a: string, pat: string, c: string)
    requires pat != []
    requires forall i :: 0 <= i < |a| ==> !(pat <= (a + (pat + c))[i..])
    requires !Contains(c, pat)
    ensures ReplaceAll(a + pat + c, pat, "") == a + c
  {
    assert a + pat + c == a + (pat + c);
    SkipUnmatched(a, pat + c, pat);
    assert ReplaceAll(pat + c, pat, "") == ReplaceAll(c, pat, "") by {
      assert pat <= pat + c;
      assert (pat + c)[|pat|..] == c;
    }
    RemoveUnchangedIff(c, pat);
  }

  /** Python's `sep.join(xs)`. */
  function Join(xs: seq<string>, sep: string): string
    decreases |xs|
  {
    if xs == [] then ""
    else if |xs| == 1 then xs[0]
    else xs[0] + sep + Join(xs[1..], sep)
  }

  /** The joined string starts with the first piece and ends with the last. */
  lemma {:induction false} JoinEnds(xs: seq<string>, sep: string)
    requires xs != []
    ensures xs[0] <= Join(xs, sep)
    ensures var r, last := Join(xs, sep), xs[|xs| - 1];
            |last| <= |r| && r[|r| - |last|..] == last
    decreases |xs|
  {
    if |xs| > 1 {
      JoinEnds(xs[1..], sep);
      var rest := Join(xs[1..], sep);
      assert Join(xs, sep) == (xs[0] + sep) + rest;
      assert xs[1..][|xs[1..]| - 1] == xs[|xs| - 1];
    }
  }

  /** Joining stripped, non-empty pieces gives a stripped string, so a later
      `strip()` of it changes nothing. */
  lemma JoinStripped(xs: seq<string>, sep: string)
    requires forall k :: 0 <= k < |xs| ==> xs[k] != [] && IsStripped(xs[k])
    ensures IsStripped(Join(xs, sep))
  {
    if xs != [] {
      JoinEnds(xs, sep);
      var r := Join(xs, sep);
      var last := xs[|xs| - 1];
      assert r[0] == xs[0][0];
      assert r[|r| - 1] == r[|r| - |last|..][|last| - 1] == last[|last| - 1];
    }
  }
}
