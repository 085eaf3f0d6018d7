/** The results screen: the overall verdict, the per-check verdicts, the
    collapsible detail sections, and the labels made from camel-case keys. */
module AIResults {
  import opened Collections
  import opened Text

  /** `key.replace(/([A-Z])/g, ' $1')`: a space before every upper-case letter.
      Exactly one character is inserted per upper-case letter; with
      `InsertSpacesOnlyAddsSpaces` and `InsertSpacesBeforeUpper`, the inserted
      characters are the spaces before the upper-case letters and nothing else. */
  function InsertSpaces(key: string): (r: string)
    ensures |r| == |key| + |Filter(key, IsUpper)|
  {
    if key == [] then []
    else if IsUpper(key[0]) then [' ', key[0]] + InsertSpaces(key[1..])
    else [key[0]] + InsertSpaces(key[1..])
  }

  /** The title of a detail section and the caption of a photo: the spaced key
      with no whitespace left at either end. */
  function Label(key: string): (r: string)
    ensures r == [] || (!IsWhitespace(r[0]) && !IsWhitespace(r[|r| - 1]))
  {
    Trim(InsertSpaces(key))
  }

  /** In the spaced text every upper-case letter after the first position has a
      space right before it. */
  lemma {:induction false} InsertSpacesBeforeUpper(key: string)
    ensures var r := InsertSpaces(key);
      forall i :: 0 < i < |r| && IsUpper(r[i]) ==> r[i - 1] == ' '
    ensures InsertSpaces(key) != [] ==> !IsUpper(InsertSpaces(key)[0])
  {
    if key != [] {
      var rest := InsertSpaces(key[1..]);
      InsertSpacesBeforeUpper(key[1..]);
      var r := InsertSpaces(key);
      var n := if IsUpper(key[0]) then 2 else 1;
      assert r == r[..n] + rest;
      forall i | 0 < i < |r| && IsUpper(r[i]) ensures r[i - 1] == ' ' {
        if i > n {
          assert r[i] == rest[i - n] && r[i - 1] == rest[i - n - 1];
        }
      }
    }
  }

  /** Every upper-case letter of `s` after the first position follows a space. */
  predicate UpperAfterSpace(s: string) {
    forall i :: 0 < i < |s| && IsUpper(s[i]) ==> s[i - 1] == ' '
  }

  /** A slice of a spaced text is spaced. */
  lemma UpperAfterSpaceSlice(s: string, lo: nat, hi: nat)
    requires lo <= hi <= |s| && UpperAfterSpace(s)
    ensures UpperAfterSpace(s[lo..hi])
  {
    var t := s[lo..hi];
    forall i | 0 < i < |t| && IsUpper(t[i]) ensures t[i - 1] == ' ' {
      assert t[i] == s[lo + i] && t[i - 1] == s[lo + i - 1];
    }
  }

  /** Every upper-case letter of a label, except one at its very start, follows a
      space: the camel-case words are separated. */
  lemma LabelSeparatesWords(key: string)
    ensures var l := Label(key);
      forall i :: 0 < i < |l| && IsUpper(l[i]) ==> l[i - 1] == ' '
  {
    var s := InsertSpaces(key);
    InsertSpacesBeforeUpper(key);
    UpperAfterSpaceSlice(s, LeadingSpaces(s), TrimEndIndex(s));
  }

  /** Inserting spaces adds only whitespace. */
  lemma {:induction false} InsertSpacesOnlyAddsSpaces(key: string)
    ensures RemoveWhitespace(InsertSpaces(key)) == RemoveWhitespace(key)
  {
    if key != [] {
      InsertSpacesOnlyAddsSpaces(key[1..]);
      var rest := InsertSpaces(key[1..]);
      if IsUpper(key[0]) {
        FilterAppend([' ', key[0]], rest, IsNotWhitespace);
        assert Filter([' ', key[0]], IsNotWhitespace) == [key[0]] by {
          assert [' ', key[0]][1..] == [key[0]];
        }
      } else {
        FilterAppend([key[0]], rest, IsNotWhitespace);
      }
    }
  }

  /** Trimming removes only whitespace. */
  lemma TrimOnlyRemovesWhitespace(s: string)
    ensures RemoveWhitespace(Trim(s)) == RemoveWhitespace(s)
  {
    var k := LeadingSpaces(s);
    FilterMiddle(s, k, k + |Trim(s)|, IsNotWhitespace);
  }

  /** For a key without whitespace, deleting the spaces from its label gives the
      key back, so the key's characters all appear in the label in order. */
  lemma LabelRoundTrip(key: string)
    requires forall i :: 0 <= i < |key| ==> !IsWhitespace(key[i])
    ensures RemoveWhitespace(Label(key)) == key
    ensures IsSubsequence(key, Label(key))
  {
    TrimOnlyRemovesWhitespace(InsertSpaces(key));
    InsertSpacesOnlyAddsSpaces(key);
    FilterKeepsAll(key, IsNotWhitespace);
  }

  /** A key without upper-case letters is only trimmed. */
  lemma {:induction false} LabelWithoutUpper(key: string)
    requires forall i :: 0 <= i < |key| ==> !IsUpper(key[i])
    ensures InsertSpaces(key) == key
    ensures Label(key) == Trim(key)
  {
    if key != [] {
      LabelWithoutUpper(key[1..]);
    }
  }

  /** The overall verdict: authentic exactly when the status is `Authentic`. */
  predicate IsAuthentic(status: string) {
    status == "Authentic"
  }

  /** The risk badge. */
  function RiskText(status: string): (t: string)
    ensures t == "Low Risk" <==> IsAuthentic(status)
    ensures t == "High Risk" <==> !IsAuthentic(status)
  {
    if IsAuthentic(status) then "Low Risk" else "High Risk"
  }

  /** A detail check passes exactly when its status is `Pass`. */
  predicate Passes(status: string) {
    status == "Pass"
  }

  /** One collapsible detail section. */
  class DetailSection {
    const title: string
    const status: string
    var expanded: bool

    constructor (key: string, statusParam: string)
      ensures title == Label(key) && status == statusParam && !expanded
    {
      title := Label(key);
      status := statusParam;
      expanded := false;
    }

    /** Pressing the header flips the section open or closed. */
    method Press()
      modifies this`expanded
      ensures expanded == !old(expanded)
    {
      expanded := !expanded;
    }
  }
}
