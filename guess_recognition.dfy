/** How the decryption puzzle tells a guess from a chat message: a line is a
    guess when it holds exactly `MaxSequence` digits and the `MaxSequence`
    characters from its first digit on read as a number. */
module GuessRecognition {

  /** Length of the code to be guessed (`GameState.maxSequence`: four). */
  const MaxSequence: nat := 4

  /** A result that may be missing: `None` stands for a Java exception
      thrown before a result exists, `substring` or `charAt` past the end of
      the string. */
  datatype Option<T> = None | Some(value: T)

  /** A decimal digit; only ASCII digits are modelled. */
  predicate IsDigit(c: char) {
    '0' <= c <= '9'
  }

  predicate AllDigits(s: string) {
    forall k :: 0 <= k < |s| ==> IsDigit(s[k])
  }

  predicate NoDigits(s: string) {
    forall k :: 0 <= k < |s| ==> !IsDigit(s[k])
  }

  /** How many digit characters `s` holds. */
  function DigitCount(s: string): (n: nat)
    ensures n <= |s|
    ensures n == 0 <==> NoDigits(s)
    ensures n == |s| <==> AllDigits(s)
  {
    if |s| == 0 then 0
    else DigitCount(s[..|s| - 1]) + (if IsDigit(s[|s| - 1]) then 1 else 0)
  }

  /** Digits are counted separately in the two halves of a string. */
  lemma {:induction false} DigitCountAppend(a: string, b: string)
    ensures DigitCount(a + b) == DigitCount(a) + DigitCount(b)
  {
    if b != [] {
      var b' := b[..|b| - 1];
      assert (a + b)[..|a + b| - 1] == a + b';
      DigitCountAppend(a, b');
    } else {
      assert a + b == a;
    }
  }

  /** Where the scan for the first digit stops: the index of the first digit,
      or the length of `s` when it has none. */
  function FirstDigit(s: string): (p: nat)
    ensures p <= |s|
    ensures forall k :: 0 <= k < p ==> !IsDigit(s[k])
    ensures p < |s| ==> IsDigit(s[p])
  {
    if |s| == 0 || IsDigit(s[0]) then 0 else 1 + FirstDigit(s[1..])
  }

  /** All the digits of `s` lie at or after its first digit, so the first
      digit is followed by at least as many characters as `s` has digits. */
  lemma WindowInBounds(s: string)
    ensures FirstDigit(s) + DigitCount(s) <= |s|
  {
    var p := FirstDigit(s);
    var before, rest := s[..p], s[p..];
    assert s == before + rest;
    assert forall k :: 0 <= k < |before| ==> before[k] == s[k];
    assert DigitCount(before) == 0;
    DigitCountAppend(before, rest);
  }

  /** The `MaxSequence` characters that `substring(position, position +
      maxSequence)` takes from the first digit on, if the string is long
      enough: then it follows the digit-free prefix of `s` and starts with a
      digit. */
  function Window(s: string): (r: Option<string>)
    ensures r.Some? <==> FirstDigit(s) + MaxSequence <= |s|
    ensures r.Some? ==>
      |r.value| == MaxSequence && IsDigit(r.value[0]) &&
      NoDigits(s[..FirstDigit(s)]) && s[..FirstDigit(s)] + r.value <= s
  {
    var p := FirstDigit(s);
    if p + MaxSequence <= |s| then Some(s[p..p + MaxSequence]) else None
  }

  /** Once the digit count is `MaxSequence`, the substring is in bounds, and
      the window starts at the input's first digit. */
  lemma WindowOfFourDigits(s: string)
    requires DigitCount(s) == MaxSequence
    ensures Window(s).Some?
    ensures |Window(s).value| == MaxSequence
    ensures Window(s).value[0] == s[FirstDigit(s)] && IsDigit(Window(s).value[0])
  {
    WindowInBounds(s);
  }

  /** How many digits `u` starts with. */
  function LeadingDigits(u: string): (k: nat)
    ensures k <= |u|
    ensures forall i :: 0 <= i < k ==> IsDigit(u[i])
    ensures k < |u| ==> !IsDigit(u[k])
  {
    if |u| == 0 || !IsDigit(u[0]) then 0 else 1 + LeadingDigits(u[1..])
  }

  /** `userSequence.matches("-?\\d+(\\.\\d+)?")`, read left to right: an
      optional minus, a run of digits, then either the end or a dot followed
      by a non-empty run of digits that reaches the end. An accepted string
      starts with a minus or a digit and ends with a digit. */
  function IsUserSequenceNumeric(w: string): (r: bool)
    ensures r ==> |w| > 0 && (w[0] == '-' || IsDigit(w[0])) && IsDigit(w[|w| - 1])
  {
    var sign := if |w| > 0 && w[0] == '-' then 1 else 0;
    var u := w[sign..];
    var k := LeadingDigits(u);
    k > 0 && (k == |u| || (u[k] == '.' && k + 1 < |u| && AllDigits(u[k + 1..])))
  }

  /** The regular expression `-?\d+(\.\d+)?` matched against the whole of
      `w`: `w[..i]` is the optional sign, `w[i..j]` the integer digits and
      `w[j..]` the optional fraction. */
  ghost predicate MatchesNumberPattern(w: string) {
    exists i, j :: 0 <= i <= 1 && i < j <= |w| && (i == 1 ==> w[0] == '-') &&
      AllDigits(w[i..j]) &&
      (j == |w| || (w[j] == '.' && j + 1 < |w| && AllDigits(w[j + 1..])))
  }

  /** An accepted string has a full match: the sign, the leading digits and
      the rest of the reading give the split points. */
  lemma NumericHasMatch(w: string)
    requires IsUserSequenceNumeric(w)
    ensures MatchesNumberPattern(w)
  {
    var sign := if |w| > 0 && w[0] == '-' then 1 else 0;
    var u := w[sign..];
    var k := LeadingDigits(u);
    var j := sign + k;
    assert w[sign..j] == u[..k];
    if j < |w| {
      assert w[j] == u[k];
      assert w[j + 1..] == u[k + 1..];
    }
    assert AllDigits(w[sign..j]);
  }

  /** A full match is accepted: its integer digits are exactly the leading
      digits after the sign. */
  lemma MatchIsNumeric(w: string)
    requires MatchesNumberPattern(w)
    ensures IsUserSequenceNumeric(w)
  {
    var i, j :| 0 <= i <= 1 && i < j <= |w| && (i == 1 ==> w[0] == '-') &&
      AllDigits(w[i..j]) &&
      (j == |w| || (w[j] == '.' && j + 1 < |w| && AllDigits(w[j + 1..])));
    if i == 0 {
      assert w[i..j][0] == w[0];
    }
    SplitIsNumeric(w, i, j);
  }

  /** A full match whose sign part is the one the reading skips: the integer
      digits `w[i..j]` are exactly the leading digits after the sign. */
  lemma SplitIsNumeric(w: string, i: nat, j: nat)
    requires i == (if |w| > 0 && w[0] == '-' then 1 else 0) && i < j <= |w|
    requires AllDigits(w[i..j])
    requires j == |w| || (w[j] == '.' && j + 1 < |w| && AllDigits(w[j + 1..]))
    ensures IsUserSequenceNumeric(w)
  {
    var u := w[i..];
    var k := LeadingDigits(u);
    assert forall m :: 0 <= m < j - i ==> u[m] == w[i..j][m];
    assert k >= j - i;
    if j < |w| {
      assert u[j - i] == w[j];
      assert k == j - i;
      assert u[k + 1..] == w[j + 1..];
    }
  }

  /** The left-to-right reading accepts exactly what the regular expression
      matches. */
  lemma NumericMatchesPattern(w: string)
    ensures IsUserSequenceNumeric(w) <==> MatchesNumberPattern(w)
  {
    if IsUserSequenceNumeric(w) {
      NumericHasMatch(w);
    }
    if MatchesNumberPattern(w) {
      MatchIsNumeric(w);
    }
  }

  /** A line is a guess when it holds exactly `MaxSequence` digits and its
      window is numeric (`isUserInputSequence`); the window of a guess is
      then in bounds and runs from its first digit to a digit. */
  function IsGuess(s: string): (r: bool)
    ensures r ==> (DigitCount(s) == MaxSequence && Window(s).Some? &&
                   IsDigit(Window(s).value[0]) && IsDigit(Window(s).value[MaxSequence - 1]))
  {
    DigitCount(s) == MaxSequence && Window(s).Some? && IsUserSequenceNumeric(Window(s).value)
  }

  /** What a guess looks like: `MaxSequence` digits in all, and a window of
      `MaxSequence` characters, starting with the first digit, that matches
      `-?\d+(\.\d+)?`; and every line with those properties is a guess. */
  lemma GuessShape(s: string)
    ensures IsGuess(s) <==>
      DigitCount(s) == MaxSequence &&
      FirstDigit(s) + MaxSequence <= |s| &&
      MatchesNumberPattern(s[FirstDigit(s)..FirstDigit(s) + MaxSequence])
  {
    if DigitCount(s) == MaxSequence {
      WindowOfFourDigits(s);
      NumericMatchesPattern(Window(s).value);
    }
  }

  /** A line whose only digits are `MaxSequence` contiguous ones is a guess,
      and its window is exactly those digits. */
  lemma ContiguousDigitsAccepted(before: string, digits: string, after: string)
    requires NoDigits(before) && NoDigits(after)
    requires |digits| == MaxSequence && AllDigits(digits)
    ensures IsGuess(before + digits + after)
    ensures Window(before + digits + after) == Some(digits)
  {
    var s := before + digits + after;
    DigitCountAppend(before, digits);
    DigitCountAppend(before + digits, after);
    var p := FirstDigit(s);
    assert s[|before|] == digits[0];
    assert forall m :: 0 <= m < |before| ==> s[m] == before[m];
    assert p == |before|;
    assert s[p..p + MaxSequence] == digits;
    assert LeadingDigits(digits) == |digits|;
  }

  /** The window is not required to be all digits: "1.234" holds four digits
      and its window "1.23" reads as a number, so it is a guess; "12 34" is
      not, because its window "12 3" does not. */
  lemma WindowMayHoldADot()
    ensures Window("1.234") == Some("1.23") && IsGuess("1.234")
    ensures Window("12 34") == Some("12 3") && !IsGuess("12 34")
  {
    DottedLineIsGuess();
    SpacedLineIsNotGuess();
  }

  /** "1.234": four digits, window "1.23", which reads as a number. */
  lemma DottedLineIsGuess()
    ensures Window("1.234") == Some("1.23") && IsGuess("1.234")
  {
    assert DigitCount("1.234") == 4 by {
      assert "1.234"[..4] == "1.23";
      assert "1.23"[..3] == "1.2";
      assert "1.2"[..2] == "1.";
      assert "1."[..1] == "1";
    }
    assert FirstDigit("1.234") == 0;
    assert Window("1.234") == Some("1.23") by {
      assert "1.234"[0..4] == "1.23";
    }
    assert IsUserSequenceNumeric("1.23") by {
      assert "1.23"[1..] == ".23" && "1.23"[2..] == "23";
      assert LeadingDigits("1.23") == 1;
    }
  }

  /** "12 34": window "12 3", which does not read as a number. */
  lemma SpacedLineIsNotGuess()
    ensures Window("12 34") == Some("12 3") && !IsGuess("12 34")
  {
    assert FirstDigit("12 34") == 0;
    assert Window("12 34") == Some("12 3") by {
      assert "12 34"[0..4] == "12 3";
    }
    assert !IsUserSequenceNumeric("12 3") by {
      assert "12 3"[1..] == "2 3" && "12 3"[1..][1..] == " 3";
      assert LeadingDigits("12 3") == 2;
    }
  }

  /** `isUserSequenceFourDigits`: counts the digit characters of the line. */
  method IsUserSequenceFourDigits(userInput: string) returns (r: bool)
    ensures r <==> DigitCount(userInput) == MaxSequence
  {
    var count := 0;
    for i := 0 to |userInput|
      invariant count == DigitCount(userInput[..i])
    {
      assert userInput[..i + 1][..i] == userInput[..i];
      if IsDigit(userInput[i]) {
        count := count + 1;
      }
    }
    assert userInput[..|userInput|] == userInput;
    r := count == MaxSequence;
  }

  /** The loop that stops at the first digit, shared by `getUserSequence`
      and `isUserSequenceContiguous`. */
  method ScanToFirstDigit(userInput: string) returns (position: nat)
    ensures position == FirstDigit(userInput)
  {
    position := 0;
    while position < |userInput|
      invariant position <= |userInput|
      invariant forall k :: 0 <= k < position ==> !IsDigit(userInput[k])
    {
      if IsDigit(userInput[position]) {
        break;
      }
      position := position + 1;
    }
    assert position < |userInput| ==> IsDigit(userInput[position]);
  }

  /** `getUserSequence`: the `MaxSequence` characters from the first digit
      on; `None` where `substring` would throw. */
  method GetUserSequence(userInput: string) returns (userSequence: Option<string>)
    ensures userSequence == Window(userInput)
    ensures DigitCount(userInput) == MaxSequence ==>
      userSequence.Some? && |userSequence.value| == MaxSequence &&
      userSequence.value[0] == userInput[FirstDigit(userInput)]
  {
    var position := ScanToFirstDigit(userInput);
    if position + MaxSequence <= |userInput| {
      userSequence := Some(userInput[position..position + MaxSequence]);
    } else {
      userSequence := None;
    }
    if DigitCount(userInput) == MaxSequence {
      WindowOfFourDigits(userInput);
    }
  }

  /** `isUserSequenceContiguous`: whether the window is numeric; `None`
      where `substring` would throw, which the digit count rules out. */
  method IsUserSequenceContiguous(userInput: string) returns (r: Option<bool>)
    ensures r == match Window(userInput)
                 case None => None
                 case Some(w) => Some(IsUserSequenceNumeric(w))
    ensures DigitCount(userInput) == MaxSequence ==> r.Some?
  {
    var position := ScanToFirstDigit(userInput);
    if position + MaxSequence <= |userInput| {
      var userSequence := userInput[position..position + MaxSequence];
      r := Some(IsUserSequenceNumeric(userSequence));
    } else {
      r := None;
    }
    if DigitCount(userInput) == MaxSequence {
      WindowOfFourDigits(userInput);
    }
  }

  /** `isUserInputSequence`: the digit count first, then the window; the
      window is only taken once the count has made it safe. */
  method IsUserInputSequence(userInput: string) returns (r: bool)
    ensures r == IsGuess(userInput)
  {
    var fourDigits := IsUserSequenceFourDigits(userInput);
    if !fourDigits {
      return false;
    }
    var contiguous := IsUserSequenceContiguous(userInput);
    r := contiguous.value;
  }
}
