/** Text handling used when a pending text group is flushed:
    Python's `" ".join(fragments).strip()`. */
module Strings {

  /** The characters Python's `str.strip()` removes (those for which
      `str.isspace()` holds). */
  predicate IsWhitespace(c: char)
  {
    ('\t' <= c <= '\r') || ('\U{1C}' <= c <= ' ') || c == '\U{85}' || c == '\U{A0}' ||
    c == '\U{1680}' || ('\U{2000}' <= c <= '\U{200A}') || c == '\U{2028}' ||
    c == '\U{2029}' || c == '\U{202F}' || c == '\U{205F}' || c == '\U{3000}'
  }

  /** Nothing but whitespace (the empty string included). */
  predicate Blank(s: string)
  {
    forall i :: 0 <= i < |s| ==> IsWhitespace(s[i])
  }

  /** Python's `" ".join(parts)`: the parts separated by single spaces. */
  function Join(parts: seq<string>): string
  {
    if parts == [] then ""
    else if |parts| == 1 then parts[0]
    else Join(parts[..|parts| - 1]) + " " + parts[|parts| - 1]
  }

  /** The first index at or after `i` that does not hold whitespace, or
      `|s|`: where Python's `strip` starts keeping characters. */
  function SkipLeading(s: string, i: nat): (k: nat)
    requires i <= |s|
    ensures i <= k <= |s|
    decreases |s| - i
  {
    if i < |s| && IsWhitespace(s[i]) then SkipLeading(s, i + 1) else i
  }

  /** The index just past the last non-whitespace character in `s[i..j]`,
      or `i`: where Python's `strip` stops keeping characters. */
  function SkipTrailing(s: string, i: nat, j: nat): (k: nat)
    requires i <= j <= |s|
    ensures i <= k <= j
    decreases j
  {
    if i < j && IsWhitespace(s[j - 1]) then SkipTrailing(s, i, j - 1) else j
  }

  /** Everything `SkipLeading` passes over is whitespace, and it stops on
      a non-whitespace character or at the end. */
  lemma {:induction false} SkipLeadingBlank(s: string, i: nat)
    requires i <= |s|
    ensures forall k :: i <= k < SkipLeading(s, i) ==> IsWhitespace(s[k])
    ensures SkipLeading(s, i) < |s| ==> !IsWhitespace(s[SkipLeading(s, i)])
    decreases |s| - i
  {
    if i < |s| && IsWhitespace(s[i]) {
      SkipLeadingBlank(s, i + 1);
    }
  }

  /** Everything `SkipTrailing` passes over is whitespace, and it stops
      after a non-whitespace character or at `i`. */
  lemma {:induction false} SkipTrailingBlank(s: string, i: nat, j: nat)
    requires i <= j <= |s|
    ensures forall k :: SkipTrailing(s, i, j) <= k < j ==> IsWhitespace(s[k])
    ensures i < SkipTrailing(s, i, j) ==> !IsWhitespace(s[SkipTrailing(s, i, j) - 1])
    decreases j
  {
    if i < j && IsWhitespace(s[j - 1]) {
      SkipTrailingBlank(s, i, j - 1);
    }
  }

  /** The characters of `s` from index `i` up to, not including, `j`. */
  function Between(s: string, i: nat, j: nat): (r: string)
    requires i <= j <= |s|
    ensures |r| == j - i
    decreases j
  {
    if i == j then [] else Between(s, i, j - 1) + [s[j - 1]]
  }

  lemma {:induction false} BetweenSlice(s: string, i: nat, j: nat)
    requires i <= j <= |s|
    ensures Between(s, i, j) == s[i..j]
    decreases j
  {
    if i < j {
      BetweenSlice(s, i, j - 1);
      assert s[i..j] == s[i..j - 1] + [s[j - 1]];
    }
  }

  /** Python's `s.strip()`: `s` without its leading and trailing whitespace. */
  function Strip(s: string): (r: string)
    ensures |r| <= |s|
  {
    var i := SkipLeading(s, 0);
    Between(s, i, SkipTrailing(s, i, |s|))
  }

  /** The strip begins and ends with a non-whitespace character. */
  lemma {:induction false} StripEnds(s: string)
    ensures var r := Strip(s);
      r != [] ==> !IsWhitespace(r[0]) && !IsWhitespace(r[|r| - 1])
  {
    var i := SkipLeading(s, 0);
    SkipLeadingBlank(s, 0);
    SkipTrailingBlank(s, i, |s|);
    BetweenSlice(s, i, SkipTrailing(s, i, |s|));
  }

  /** The strip is the middle of `s`, with only whitespace cut from either
      end. */
  lemma {:induction false} StripSlice(s: string)
    ensures exists i, j :: 0 <= i <= j <= |s| && Strip(s) == s[i..j] && Blank(s[..i]) && Blank(s[j..])
  {
    var i := SkipLeading(s, 0);
    var j := SkipTrailing(s, i, |s|);
    SkipLeadingBlank(s, 0);
    SkipTrailingBlank(s, i, |s|);
    BetweenSlice(s, i, j);
    assert forall k :: 0 <= k < i ==> s[..i][k] == s[k];
    assert forall k :: 0 <= k < |s| - j ==> s[j..][k] == s[j + k];
    assert Blank(s[..i]) && Blank(s[j..]);
  }

  lemma {:induction false} BlankConcat(a: string, b: string)
    ensures Blank(a + b) <==> Blank(a) && Blank(b)
  {
    assert forall k :: 0 <= k < |a| ==> (a + b)[k] == a[k];
    assert forall k :: 0 <= k < |b| ==> (a + b)[|a| + k] == b[k];
  }

  /** Stripping leaves nothing exactly when the text is all whitespace. */
  lemma {:induction false} StripEmptyIff(s: string)
    ensures Strip(s) == [] <==> Blank(s)
  {
    var i := SkipLeading(s, 0);
    var j := SkipTrailing(s, i, |s|);
    SkipLeadingBlank(s, 0);
    if i == j {
      SkipTrailingBlank(s, i, |s|);
    }
  }

  /** A string that begins and ends with non-whitespace is its own strip. */
  lemma {:induction false} StripIdentity(s: string)
    requires s != [] && !IsWhitespace(s[0]) && !IsWhitespace(s[|s| - 1])
    ensures Strip(s) == s
  {
    assert SkipLeading(s, 0) == 0;
    assert SkipTrailing(s, 0, |s|) == |s|;
    BetweenSlice(s, 0, |s|);
    assert s[0..|s|] == s;
  }

  /** The joined text is all whitespace exactly when every fragment is:
      the separators are spaces. */
  lemma {:induction false} JoinBlankIff(parts: seq<string>)
    ensures Blank(Join(parts)) <==> forall i :: 0 <= i < |parts| ==> Blank(parts[i])
  {
    if |parts| > 1 {
      var n := |parts| - 1;
      JoinBlankIff(parts[..n]);
      BlankConcat(Join(parts[..n]) + " ", parts[n]);
      BlankConcat(Join(parts[..n]), " ");
      assert forall i :: 0 <= i < n ==> parts[..n][i] == parts[i];
    }
  }

  /** A text group yields content exactly when some fragment has a
      non-whitespace character. */
  lemma {:induction false} GroupContentIff(parts: seq<string>)
    ensures Strip(Join(parts)) != [] <==> exists i :: 0 <= i < |parts| && !Blank(parts[i])
  {
    StripEmptyIff(Join(parts));
    JoinBlankIff(parts);
  }

  /** Empty fragments are kept: each contributes its own separator. */
  lemma {:induction false} JoinKeepsEmptyFragments()
    ensures Strip(Join(["Hello", "", "world"])) == "Hello  world"
  {
    var parts := ["Hello", "", "world"];
    assert parts[..2][..1] == ["Hello"];
    assert Join(parts) == "Hello  world";
    var s := "Hello  world";
    assert !IsWhitespace(s[0]) && !IsWhitespace(s[|s| - 1]);
    StripIdentity(s);
  }
}
