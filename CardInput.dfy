/** The card-entry formatters shared by the package-selection and payment
    screens: the card number grouped in fours, the `MM/YY` expiry, the digits-only
    CVV, and the length guards of the `onChangeText` handlers. */
module CardInput {
  import opened Collections
  import opened Text

  function Min(a: int, b: int): int { if a <= b then a else b }

  predicate AllDigits(s: string) {
    forall i :: 0 <= i < |s| ==> IsDigit(s[i])
  }

  /** Every character is a digit or whitespace: what a numeric keypad produces. */
  predicate DigitsAndWhitespace(s: string) {
    forall i :: 0 <= i < |s| ==> IsDigit(s[i]) || IsWhitespace(s[i])
  }

  /** Length of the run of digits at the head of `s`, capped at `max`. */
  function DigitRun(s: string, max: nat): (k: nat)
    ensures k <= max && k <= |s|
    ensures forall i :: 0 <= i < k ==> IsDigit(s[i])
    ensures k < max && k < |s| ==> !IsDigit(s[k])
  {
    if max == 0 || s == [] || !IsDigit(s[0]) then 0 else 1 + DigitRun(s[1..], max - 1)
  }

  /** `s.match(/\d{1,4}/g) || []`: scanning left to right, every match is the next
      digit together with up to three digits right after it. */
  function DigitGroups(s: string): (gs: seq<string>)
    ensures forall i :: 0 <= i < |gs| ==> DigitGroup(gs[i])
    decreases |s|
  {
    if s == [] then []
    else if !IsDigit(s[0]) then DigitGroups(s[1..])
    else
      var k := DigitRun(s, 4);
      [s[..k]] + DigitGroups(s[k..])
  }

  /** The matches, joined without separator, are exactly the digits of `s`. */
  lemma {:induction false} DigitGroupsConcat(s: string)
    ensures Concat(DigitGroups(s)) == Digits(s)
    decreases |s|
  {
    if s == [] {
    } else if !IsDigit(s[0]) {
      DigitGroupsConcat(s[1..]);
    } else {
      var k := DigitRun(s, 4);
      var rest := DigitGroups(s[k..]);
      DigitGroupsConcat(s[k..]);
      assert ([s[..k]] + rest)[1..] == rest;
      assert s == s[..k] + s[k..];
      FilterAppend(s[..k], s[k..], IsDigit);
      FilterKeepsAll(s[..k], IsDigit);
    }
  }

  /** `formatCardNumber(text)`: whitespace removed, then the digit matches joined by
      single spaces (non-digits other than whitespace split the groups and vanish).
      The result is always laid out as groups of one to four digits. */
  function FormatCardNumber(text: string): (r: string)
    ensures CardLayout(r)
  {
    JoinGroupsLayout(DigitGroups(RemoveWhitespace(text)));
    Join(DigitGroups(RemoveWhitespace(text)), ' ')
  }

  predicate DigitsOrSpaces(r: string) {
    forall i :: 0 <= i < |r| ==> IsDigit(r[i]) || r[i] == ' '
  }

  predicate SpaceBeforeDigit(r: string) {
    forall i :: 0 <= i < |r| - 1 && r[i] == ' ' ==> IsDigit(r[i + 1])
  }

  /** The five characters from position `i` include a space. */
  predicate SpaceInFive(r: string, i: nat)
    requires i + 5 <= |r|
  {
    ' ' in r[i..i + 5]
  }

  predicate NoFiveDigitRun(r: string) {
    forall i: nat :: i + 5 <= |r| ==> SpaceInFive(r, i)
  }

  /** The shape of a formatted card number: digits and spaces only, a digit at
      either end, a digit after every space and never five digits in a row. */
  predicate CardLayout(r: string) {
    && DigitsOrSpaces(r)
    && (r == [] || (IsDigit(r[0]) && IsDigit(r[|r| - 1])))
    && SpaceBeforeDigit(r)
    && NoFiveDigitRun(r)
  }

  /** A group of one to four digits. */
  predicate DigitGroup(g: string) {
    1 <= |g| <= 4 && AllDigits(g)
  }

  lemma NoFiveDigitRunCons(g: string, rest: string)
    requires DigitGroup(g) && NoFiveDigitRun(rest)
    ensures NoFiveDigitRun(g + [' '] + rest)
  {
    var r := g + [' '] + rest;
    var n := |g|;
    forall i: nat | i + 5 <= |r| ensures SpaceInFive(r, i) {
      if i > n {
        var j := i - n - 1;
        assert r[i..i + 5] == rest[j..j + 5];
        assert SpaceInFive(rest, j);
      } else {
        assert r[i..i + 5][n - i] == ' ';
      }
    }
  }

  lemma SpaceBeforeDigitCons(g: string, rest: string)
    requires DigitGroup(g) && rest != [] && IsDigit(rest[0]) && SpaceBeforeDigit(rest)
    ensures SpaceBeforeDigit(g + [' '] + rest)
  {
    var r := g + [' '] + rest;
    var n := |g|;
    forall i | 0 <= i < |r| - 1 && r[i] == ' ' ensures IsDigit(r[i + 1]) {
      if i > n {
        assert r[i] == rest[i - n - 1] && r[i + 1] == rest[i - n];
      } else if i == n {
        assert r[i + 1] == rest[0];
      }
    }
  }

  /** One more group in front of a well laid-out, non-empty number keeps the layout. */
  lemma LayoutCons(g: string, rest: string)
    requires DigitGroup(g) && rest != [] && CardLayout(rest)
    ensures CardLayout(g + [' '] + rest)
  {
    var r := g + [' '] + rest;
    NoFiveDigitRunCons(g, rest);
    SpaceBeforeDigitCons(g, rest);
    assert DigitsOrSpaces(r) by {
      forall i | 0 <= i < |r| ensures IsDigit(r[i]) || r[i] == ' ' {
        if i > |g| { assert r[i] == rest[i - |g| - 1]; }
      }
    }
    assert r[0] == g[0] && r[|r| - 1] == rest[|rest| - 1];
  }

  lemma {:induction false} JoinGroupsLayout(gs: seq<string>)
    requires forall i :: 0 <= i < |gs| ==> DigitGroup(gs[i])
    ensures CardLayout(Join(gs, ' '))
  {
    if |gs| == 1 {
      assert DigitGroup(gs[0]);
    } else if |gs| > 1 {
      var rest := Join(gs[1..], ' ');
      JoinGroupsLayout(gs[1..]);
      assert DigitGroup(gs[1..][0]);
      assert |rest| > 0;
      LayoutCons(gs[0], rest);
    }
  }

  /** Joining digit groups by spaces and then keeping the digits undoes the join. */
  lemma {:induction false} DigitsOfJoin(gs: seq<string>)
    requires forall i :: 0 <= i < |gs| ==> AllDigits(gs[i])
    ensures Digits(Join(gs, ' ')) == Concat(gs)
  {
    if gs == [] {
    } else if |gs| == 1 {
      FilterKeepsAll(gs[0], IsDigit);
      assert Concat(gs) == gs[0] + Concat(gs[1..]);
    } else {
      var g, tail := gs[0], Join(gs[1..], ' ');
      assert Join(gs, ' ') == (g + [' ']) + tail;
      assert Concat(gs) == g + Concat(gs[1..]);
      DigitsOfJoin(gs[1..]);
      DigitsSkipSpace(g, tail);
    }
  }

  /** A digit group and the space after it contribute the group. */
  lemma DigitsSkipSpace(g: string, tail: string)
    requires AllDigits(g)
    ensures Digits((g + [' ']) + tail) == g + Digits(tail)
  {
    FilterKeepsAll(g, IsDigit);
    FilterAppend(g + [' '], tail, IsDigit);
    FilterAppend(g, [' '], IsDigit);
    assert Filter([' '], IsDigit) == [];
  }

  /** The digits survive formatting, in order: nothing is invented or lost. */
  lemma CardNumberKeepsDigits(text: string)
    ensures Digits(FormatCardNumber(text)) == Digits(text)
  {
    var gs := DigitGroups(RemoveWhitespace(text));
    DigitsOfJoin(gs);
    DigitGroupsConcat(RemoveWhitespace(text));
    DigitsIgnoreWhitespace(text);
  }

  predicate IsNotSpace(c: char) { c != ' ' }

  /** Removing the spaces from the formatted number gives exactly the input's digits. */
  lemma CardNumberSpacesOnly(text: string)
    ensures Filter(FormatCardNumber(text), IsNotSpace) == Digits(text)
  {
    var r := FormatCardNumber(text);
    CardNumberKeepsDigits(text);
    FilterAgree(r, IsNotSpace, IsDigit);
  }

  /** The formatted number is empty exactly when the input has no digit. */
  lemma CardNumberEmptyIff(text: string)
    ensures FormatCardNumber(text) == [] <==> Digits(text) == []
  {
    var r := FormatCardNumber(text);
    CardNumberKeepsDigits(text);
    if r != [] {
      assert IsDigit(r[0]);
      assert r[0] in Digits(r);
    }
  }

  /** Consecutive blocks of four, the last one possibly shorter. */
  function Chunk4(d: string): (cs: seq<string>)
    ensures forall i :: 0 <= i < |cs| ==> 1 <= |cs[i]| <= 4
    ensures forall i :: 0 <= i < |cs| - 1 ==> |cs[i]| == 4
    ensures Concat(cs) == d
    decreases |d|
  {
    if d == [] then []
    else if |d| <= 4 then
      assert Concat([d]) == d + Concat([]);
      [d]
    else
      var rest := Chunk4(d[4..]);
      assert ([d[..4]] + rest)[1..] == rest;
      assert d == d[..4] + d[4..];
      [d[..4]] + rest
  }

  /** On a string of digits the matches are the blocks of four. */
  lemma {:induction false} DigitGroupsOfDigits(d: string)
    requires AllDigits(d)
    ensures DigitGroups(d) == Chunk4(d)
    decreases |d|
  {
    if d != [] {
      var k := DigitRun(d, 4);
      assert k == Min(4, |d|);
      assert DigitGroups(d) == [d[..k]] + DigitGroups(d[k..]);
      if |d| <= 4 {
        assert d[..k] == d && d[k..] == [];
      } else {
        DigitGroupsOfDigits(d[k..]);
      }
    }
  }

  /** On keypad input the number is the digits in blocks of four, whatever
      whitespace the user typed. */
  lemma CardNumberGroupsOfFour(text: string)
    requires DigitsAndWhitespace(text)
    ensures FormatCardNumber(text) == Join(Chunk4(Digits(text)), ' ')
  {
    FilterAgree(text, IsNotWhitespace, IsDigit);
    DigitsAreDigits(text);
    DigitGroupsOfDigits(Digits(text));
  }

  /** Re-formatting what is already on screen changes nothing, for keypad input. */
  lemma CardNumberIdempotent(text: string)
    requires DigitsAndWhitespace(text)
    ensures FormatCardNumber(FormatCardNumber(text)) == FormatCardNumber(text)
  {
    var r := FormatCardNumber(text);
    CardNumberKeepsDigits(text);
    CardNumberGroupsOfFour(text);
    CardNumberGroupsOfFour(r);
  }

  lemma {:induction false} JoinChunk4Length(d: string)
    ensures |Join(Chunk4(d), ' ')| == if d == [] then 0 else |d| + (|d| - 1) / 4
    decreases |d|
  {
    if |d| > 4 {
      JoinChunk4Length(d[4..]);
      assert Chunk4(d)[1..] == Chunk4(d[4..]);
    }
  }

  /** A keypad entry passes the 19-character guard exactly when it has at most 16
      digits. */
  lemma CardNumberFitsIff(text: string)
    requires DigitsAndWhitespace(text)
    ensures |FormatCardNumber(text)| <= 19 <==> |Digits(text)| <= 16
  {
    CardNumberGroupsOfFour(text);
    JoinChunk4Length(Digits(text));
  }

  /** The card-number `onChangeText`: the formatted text replaces the field only
      when it is at most 19 characters long. */
  function StoreCardNumber(current: string, typed: string): (r: string)
    ensures |FormatCardNumber(typed)| <= 19 ==> r == FormatCardNumber(typed)
    ensures |FormatCardNumber(typed)| > 19 ==> r == current
  {
    var formatted := FormatCardNumber(typed);
    if |formatted| <= 19 then formatted else current
  }

  /** The field never holds more than 19 characters and is always well laid out. */
  lemma StoreCardNumberKeeps(current: string, typed: string)
    requires |current| <= 19 && CardLayout(current)
    ensures |StoreCardNumber(current, typed)| <= 19
    ensures CardLayout(StoreCardNumber(current, typed))
  {
  }

    /** `formatExpiryDate(text)`: the digits, with a slash after the first two and at
      most two more digits after it. */
  function FormatExpiryDate(text: string): (r: string)
    ensures |r| <= 5
    ensures |Digits(text)| < 2 ==> r == Digits(text)
    ensures |Digits(text)| >= 2 ==>
      && |r| >= 3 && r[2] == '/'
      && r[..2] + r[3..] == Digits(text)[..Min(4, |Digits(text)|)]
  {
    var cleaned := Digits(text);
    if |cleaned| >= 2 then
      var r := cleaned[..2] + "/" + cleaned[2..Min(4, |cleaned|)];
      assert r[..2] + r[3..] == cleaned[..Min(4, |cleaned|)];
      r
    else cleaned
  }

  /** Formatting an already formatted expiry gives it back. */
  lemma ExpiryIdempotent(text: string)
    ensures FormatExpiryDate(FormatExpiryDate(text)) == FormatExpiryDate(text)
  {
    var d := Digits(text);
    var r := FormatExpiryDate(text);
    DigitsAreDigits(text);
    if |d| >= 2 {
      var m := Min(4, |d|);
      assert r == d[..2] + "/" + d[2..m];
      FilterAppend(d[..2] + "/", d[2..m], IsDigit);
      FilterAppend(d[..2], "/", IsDigit);
      FilterKeepsAll(d[..2], IsDigit);
      FilterKeepsAll(d[2..m], IsDigit);
      assert Digits(r) == d[..2] + d[2..m];
      assert d[..2] + d[2..m] == d[..m];
    } else {
      FilterKeepsAll(d, IsDigit);
    }
  }

  /** The expiry `onChangeText`: the guard is at 5 characters. */
  function StoreExpiry(current: string, typed: string): string {
    var formatted := FormatExpiryDate(typed);
    if |formatted| <= 5 then formatted else current
  }

  /** The 5-character guard never rejects: the field always takes the formatted text. */
  lemma StoreExpiryAlwaysAccepts(current: string, typed: string)
    ensures StoreExpiry(current, typed) == FormatExpiryDate(typed)
  {
  }

  /** The CVV `onChangeText` of the package screen: the digits only, each kept as
      often as it was typed, in order. */
  function FilterCvv(text: string): (r: string)
    ensures AllDigits(r)
    ensures IsSubsequence(r, text)
    ensures forall i :: 0 <= i < |text| && IsDigit(text[i]) ==> text[i] in r
    ensures forall c :: multiset(r)[c] == if IsDigit(c) then multiset(text)[c] else 0
  {
    DigitsAreDigits(text);
    FilterComplete(text, IsDigit);
    FilterCount(text, IsDigit);
    Digits(text)
  }

  /** Filtering the CVV twice is filtering it once. */
  lemma CvvIdempotent(text: string)
    ensures FilterCvv(FilterCvv(text)) == FilterCvv(text)
  {
    FilterKeepsAll(FilterCvv(text), IsDigit);
  }

  /** The four card fields all hold something besides whitespace. */
  predicate CardDetailsFilled(cardNumber: string, expiryDate: string, cvv: string, cardName: string) {
    Trim(cardNumber) != [] && Trim(expiryDate) != [] && Trim(cvv) != [] && Trim(cardName) != []
  }

  predicate HasNonWhitespace(s: string) {
    exists i :: 0 <= i < |s| && !IsWhitespace(s[i])
  }

  /** The card check of both screens fails exactly when some field is blank. */
  lemma CardDetailsFilledIff(cardNumber: string, expiryDate: string, cvv: string, cardName: string)
    ensures CardDetailsFilled(cardNumber, expiryDate, cvv, cardName) <==>
      HasNonWhitespace(cardNumber) && HasNonWhitespace(expiryDate) && HasNonWhitespace(cvv) && HasNonWhitespace(cardName)
  {
    TrimEmptyIff(cardNumber);
    TrimEmptyIff(expiryDate);
    TrimEmptyIff(cvv);
    TrimEmptyIff(cardName);
  }
}
