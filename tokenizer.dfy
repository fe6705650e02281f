/**
 * The substring tokenizer shared by the kill-line parsers: `String.indexOf` and
 * `extractValue`, which returns the text between a start token and the next end token.
 */
module Tokenizer {

  /** `token` occurs in `text` starting at index `i`. */
  predicate OccursAt(text: string, token: string, i: int)
  {
    0 <= i && i + |token| <= |text| && text[i..i + |token|] == token
  }

  /** No occurrence of `token` starts at or after `from`. */
  ghost predicate Absent(text: string, token: string, from: int)
  {
    forall i :: from <= i ==> !OccursAt(text, token, i)
  }

  /** `i` is the first index at or after `from` where `token` occurs. */
  ghost predicate FirstAt(text: string, token: string, from: int, i: int)
  {
    from <= i && OccursAt(text, token, i) && forall j :: from <= j < i ==> !OccursAt(text, token, j)
  }

  /** `text.indexOf(token, from)`: the first occurrence at or after `from`, or -1. */
  function IndexOf(text: string, token: string, from: nat): (r: int)
    requires from <= |text|
    ensures r == -1 ==> Absent(text, token, from)
    ensures r != -1 ==> FirstAt(text, token, from, r)
    decreases |text| - from
  {
    if from + |token| > |text| then -1
    else if text[from..from + |token|] == token then from
    else IndexOf(text, token, from + 1)
  }

  /** `text.contains(token)`. */
  predicate Contains(text: string, token: string)
  {
    IndexOf(text, token, 0) != -1
  }

  lemma ContainsMeansOccurs(text: string, token: string)
    ensures Contains(text, token) <==> !Absent(text, token, 0)
  {
    var r := IndexOf(text, token, 0);
    if r != -1 {
      assert OccursAt(text, token, r);
    }
  }

  /**
   * `extractValue(text, startToken, endToken)`: empty when `startToken` does not occur,
   * empty when `endToken` does not occur at or after the end of the first `startToken`,
   * and otherwise exactly the text between those two occurrences, which then holds no
   * occurrence of a non-empty `endToken`.
   */
  function ExtractValue(text: string, startToken: string, endToken: string): (r: string)
    ensures Absent(text, startToken, 0) ==> r == ""
    ensures forall s, b {:trigger FirstAt(text, startToken, 0, s), Absent(text, endToken, b)} ::
              FirstAt(text, startToken, 0, s) && b == s + |startToken| && Absent(text, endToken, b) ==> r == ""
    ensures forall s, b, e {:trigger FirstAt(text, startToken, 0, s), FirstAt(text, endToken, b, e)} ::
              FirstAt(text, startToken, 0, s) && b == s + |startToken| && FirstAt(text, endToken, b, e) ==> r == text[b..e]
    ensures |endToken| > 0 ==> Absent(r, endToken, 0)
  {
    var s := IndexOf(text, startToken, 0);
    if s == -1 then ""
    else
      var b := s + |startToken|;
      var e := IndexOf(text, endToken, b);
      if e == -1 then ""
      else
        (if |endToken| > 0 then NoTokenBeforeFirst(text, endToken, b, e); text[b..e] else text[b..e])
  }

  /** Between `b` and the first occurrence of a non-empty token after `b`, the token does not occur. */
  lemma NoTokenBeforeFirst(text: string, token: string, b: int, e: int)
    requires 0 <= b && FirstAt(text, token, b, e) && |token| > 0
    ensures Absent(text[b..e], token, 0)
  {
    forall j | 0 <= j
      ensures !OccursAt(text[b..e], token, j)
    {
      if j + |token| <= e - b {
        assert e + |token| <= |text|;
        var inner, outer := text[b..e][j..j + |token|], text[b + j..b + j + |token|];
        forall k | 0 <= k < |token|
          ensures inner[k] == outer[k]
        {
          assert text[b..e][j + k] == text[b + j + k];
        }
        assert inner == outer;
        assert !OccursAt(text, token, b + j);
      }
    }
  }

  /** Occurrences that end inside a prefix are the prefix's own occurrences. */
  lemma OccursInPrefix(text: string, prefix: string, token: string, i: int)
    requires |prefix| <= |text| && prefix == text[..|prefix|] && i + |token| <= |prefix|
    ensures OccursAt(text, token, i) <==> OccursAt(prefix, token, i)
  {
    if 0 <= i {
      assert text[i..i + |token|] == prefix[i..i + |token|];
    }
  }

  /** Occurrences in a suffix are occurrences in the whole text, shifted. */
  lemma OccursInSuffix(text: string, offset: nat, token: string, j: int)
    requires offset <= |text|
    ensures OccursAt(text[offset..], token, j) <==> (0 <= j && OccursAt(text, token, offset + j))
  {
    if 0 <= j && offset + j + |token| <= |text| {
      assert text[offset..][j..j + |token|] == text[offset + j..offset + j + |token|];
    }
  }

  /**
   * The round trip of the tokenizer: framing a value with the two tokens and extracting it
   * gives the value back, provided `startToken` does not occur earlier and `endToken` does
   * not occur before the end of the value (not even overlapping its tail).
   */
  lemma {:induction false} ExtractValueRoundTrip(p: string, startToken: string, v: string, endToken: string, q: string)
    requires forall i :: 0 <= i < |p| ==> !OccursAt(p + startToken, startToken, i)
    requires forall j :: 0 <= j < |v| ==> !OccursAt(v + endToken, endToken, j)
    ensures ExtractValue(p + startToken + v + endToken + q, startToken, endToken) == v
  {
    var text := p + startToken + v + endToken + q;
    var b := |p| + |startToken|;
    var e := b + |v|;
    assert text[..b] == p + startToken;
    assert text[|p|..b] == startToken;
    forall i | 0 <= i < |p|
      ensures !OccursAt(text, startToken, i)
    {
      OccursInPrefix(text, p + startToken, startToken, i);
    }
    assert FirstAt(text, startToken, 0, |p|);
    var tail := text[b..];
    assert tail[..|v| + |endToken|] == v + endToken;
    assert text[e..e + |endToken|] == endToken;
    forall j | b <= j < e
      ensures !OccursAt(text, endToken, j)
    {
      OccursInSuffix(text, b, endToken, j - b);
      OccursInPrefix(tail, v + endToken, endToken, j - b);
    }
    assert FirstAt(text, endToken, b, e);
    assert text[b..e] == v;
  }

  /** The documented example: `extract("A[Class B]C", "[Class ", "]") == "B"`. */
  lemma ExtractValueExample()
    ensures ExtractValue("A[Class B]C", "[Class ", "]") == "B"
  {
    var text := "A[Class B]C";
    assert text[0..7] != "[Class " by { assert text[0..7][0] == 'A'; }
    assert text[1..8] == "[Class ";
    assert IndexOf(text, "[Class ", 0) == 1;
    assert text[8..9] != "]" by { assert text[8..9][0] == 'B'; }
    assert text[9..10] == "]";
    assert IndexOf(text, "]", 8) == 9;
    assert text[8..9] == "B";
  }
}
