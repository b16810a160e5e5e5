/**
 * The two Python string operations the router relies on: `str.lower()`
 * (restricted to ASCII letters) and the substring test `needle in hay`.
 */
module Text {

  predicate IsUpper(c: char) {
    'A' <= c <= 'Z'
  }

  /** Lower-cases one character; only the ASCII capitals change. */
  function LowerChar(c: char): (r: char)
    ensures !IsUpper(r)
    ensures !IsUpper(c) ==> r == c
  {
    if IsUpper(c) then (c as int + ('a' as int - 'A' as int)) as char else c
  }

  /** A capital folds to the small letter at the same position of the alphabet. */
  lemma LowerCharOfCapital(c: char)
    requires IsUpper(c)
    ensures 'a' <= LowerChar(c) <= 'z'
    ensures LowerChar(c) as int - 'a' as int == c as int - 'A' as int
  {
  }

  /** Python's `s.lower()` on ASCII text. */
  function Lower(s: string): (r: string)
    ensures |r| == |s|
  {
    if s == [] then [] else [LowerChar(s[0])] + Lower(s[1..])
  }

  /** Lower-casing folds each character in place. */
  lemma {:induction false} LowerAt(s: string, i: int)
    requires 0 <= i < |s|
    ensures Lower(s)[i] == LowerChar(s[i])
  {
    if i > 0 {
      LowerAt(s[1..], i - 1);
    }
  }

  /** Folding twice is folding once. */
  lemma LowerIdempotent(s: string)
    ensures Lower(Lower(s)) == Lower(s)
  {
  }

  /** Text with no capitals is its own lower-cased form. */
  lemma {:induction false} LowerOfLowerCase(s: string)
    requires forall i :: 0 <= i < |s| ==> !IsUpper(s[i])
    ensures Lower(s) == s
  {
    if s != [] {
      LowerOfLowerCase(s[1..]);
    }
  }

  /** Lower-casing works character by character, so it distributes over concatenation. */
  lemma LowerConcat(a: string, b: string)
    ensures Lower(a + b) == Lower(a) + Lower(b)
  {
    forall i | 0 <= i < |a + b|
      ensures Lower(a + b)[i] == (Lower(a) + Lower(b))[i]
    {
      LowerAt(a + b, i);
      if i < |a| {
        LowerAt(a, i);
      } else {
        LowerAt(b, i - |a|);
      }
    }
  }

  /** `hay` begins with `needle`, compared character by character. */
  predicate StartsWith(hay: string, needle: string)
    ensures needle == [] ==> StartsWith(hay, needle)
    ensures StartsWith(hay, needle) ==> |needle| <= |hay|
    decreases |needle|
  {
    needle == [] || (hay != [] && hay[0] == needle[0] && StartsWith(hay[1..], needle[1..]))
  }

  /** The character-by-character comparison is the prefix relation. */
  lemma {:induction false} StartsWithIsPrefix(hay: string, needle: string)
    ensures StartsWith(hay, needle) <==> needle <= hay
    decreases |needle|
  {
    if needle != [] && hay != [] {
      StartsWithIsPrefix(hay[1..], needle[1..]);
      if needle[1..] <= hay[1..] && hay[0] == needle[0] {
        assert needle == [needle[0]] + needle[1..];
        assert hay == [hay[0]] + hay[1..];
      }
    }
  }

  /** Python's `needle in hay` for strings: some suffix of `hay` starts with `needle`. */
  predicate Contains(hay: string, needle: string)
    ensures needle == [] ==> Contains(hay, needle)
    ensures Contains(hay, needle) ==> |needle| <= |hay|
    decreases |hay|
  {
    StartsWith(hay, needle) || (hay != [] && Contains(hay[1..], needle))
  }

  /** `needle` appears in `hay` starting at index `i`. */
  ghost predicate OccursAt(hay: string, needle: string, i: int) {
    0 <= i && i + |needle| <= |hay| && hay[i..i + |needle|] == needle
  }

  /** The suffix scan agrees with the positional definition of "is a substring of". */
  lemma {:induction false} ContainsIffOccurs(hay: string, needle: string)
    ensures Contains(hay, needle) <==> exists i :: OccursAt(hay, needle, i)
    decreases |hay|
  {
    StartsWithIsPrefix(hay, needle);
    if OccursAt(hay, needle, 0) {
      assert hay[..|needle|] == needle;
    }
    if needle <= hay {
      assert OccursAt(hay, needle, 0);
    } else if hay != [] {
      ContainsIffOccurs(hay[1..], needle);
      forall i | 0 < i && OccursAt(hay, needle, i)
        ensures OccursAt(hay[1..], needle, i - 1)
      {
        assert hay[1..][i - 1..i - 1 + |needle|] == hay[i..i + |needle|];
      }
      if Contains(hay[1..], needle) {
        var i :| OccursAt(hay[1..], needle, i);
        assert hay[i + 1..i + 1 + |needle|] == hay[1..][i..i + |needle|];
        assert OccursAt(hay, needle, i + 1);
      }
    }
  }

  /** A substring of a substring is a substring. */
  lemma ContainsTransitive(a: string, b: string, c: string)
    requires Contains(a, b) && Contains(b, c)
    ensures Contains(a, c)
  {
    ContainsIffOccurs(a, b);
    ContainsIffOccurs(b, c);
    var i :| OccursAt(a, b, i);
    var j :| OccursAt(b, c, j);
    forall k | 0 <= k < |c|
      ensures a[i + j + k] == c[k]
    {
      assert c[k] == b[j + k] == a[i + j + k];
    }
    assert a[i + j..i + j + |c|] == c;
    assert OccursAt(a, c, i + j);
    ContainsIffOccurs(a, c);
  }

  /** Every character of a contained needle occurs in the haystack. */
  lemma ContainsChar(hay: string, needle: string, k: int)
    requires Contains(hay, needle) && 0 <= k < |needle|
    ensures needle[k] in hay
  {
    ContainsIffOccurs(hay, needle);
    var i :| OccursAt(hay, needle, i);
    assert hay[i + k] == needle[k];
  }

  /** Substring tests see through surrounding text: `needle` is in `pre + needle + post`. */
  lemma ContainsInfix(pre: string, needle: string, post: string)
    ensures Contains(pre + needle + post, needle)
  {
    var hay := pre + needle + post;
    assert hay[|pre|..|pre| + |needle|] == needle;
    assert OccursAt(hay, needle, |pre|);
    ContainsIffOccurs(hay, needle);
  }
}
