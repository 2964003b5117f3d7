/** The decryption puzzle's state: the code to be guessed, the solved flag,
    the hint index that walks through the code, and the routing of a chat
    line either to the guess check or to the chat. */
module DecryptionPuzzle {
  import opened GuessRecognition

  /** `GameState.Difficulty`; only `Hard` changes what the puzzle does. */
  datatype Difficulty = Easy | Medium | Hard

  /** What `onKeyPressed` does with a key press: nothing, a guess check on
      the extracted window, or a chat message sent on to the assistant. */
  datatype KeyOutcome = Ignored | Guess(userSequence: string) | Chat(message: string)

  /** `String.trim`, first scan: the index of the first character above
      U+0020, or the length when there is none. */
  function TrimStart(s: string): (st: nat)
    ensures st <= |s|
    ensures forall m :: 0 <= m < st ==> s[m] <= ' '
    ensures st < |s| ==> s[st] > ' '
  {
    if |s| == 0 || s[0] > ' ' then 0 else 1 + TrimStart(s[1..])
  }

  /** `String.trim`, second scan: from `len` down, stopping at `st`, the end
      of the last character above U+0020. */
  function TrimEnd(s: string, st: nat, len: nat): (e: nat)
    requires st <= len <= |s|
    ensures st <= e <= len
    ensures forall m :: e <= m < len ==> s[m] <= ' '
    ensures st < e ==> s[e - 1] > ' '
    decreases len
  {
    if st < len && s[len - 1] <= ' ' then TrimEnd(s, st, len - 1) else len
  }

  /** `s[k..k + n]` is framed by characters up to U+0020: everything before
      index `k` and from `k + n` on is blank or a control character. */
  predicate BlankFramed(s: string, k: nat, n: nat) {
    k + n <= |s| &&
    (forall m :: 0 <= m < k ==> s[m] <= ' ') &&
    (forall m :: k + n <= m < |s| ==> s[m] <= ' ')
  }

  /** `String.trim`: the substring between the two scans, i.e. the line
      without leading and trailing blanks and control characters. It is the
      piece of the line between a run of such characters at the start and
      one at the end, and empty exactly when the line holds nothing else. */
  function Trim(s: string): (r: string)
    ensures r == [] <==> forall k :: 0 <= k < |s| ==> s[k] <= ' '
    ensures r == [] || (r[0] > ' ' && r[|r| - 1] > ' ')
    ensures exists k: nat :: BlankFramed(s, k, |r|) && r == s[k..k + |r|]
  {
    var st := TrimStart(s);
    var len := TrimEnd(s, st, |s|);
    assert BlankFramed(s, st, len - st);
    s[st..len]
  }

  /** The hint index after a hint: `(hintIndex + 1) % maxSequence`. The
      index is never negative, where Java's truncating `%` and Dafny's agree. */
  function NextHintIndex(hintIndex: int): (r: int)
    requires 0 <= hintIndex
    ensures 0 <= r < MaxSequence
    ensures 0 <= hintIndex < MaxSequence - 1 ==> r == hintIndex + 1
    ensures hintIndex == MaxSequence - 1 ==> r == 0
  {
    (hintIndex + 1) % MaxSequence
  }

  /** The hint index after `n` hints since the puzzle was initialised. */
  function HintIndexAfter(n: nat): (r: int)
    ensures 0 <= r < MaxSequence
  {
    if n == 0 then 0 else NextHintIndex(HintIndexAfter(n - 1))
  }

  /** The hints walk through the code in order and start over after the
      last digit: the `n`-th hint reads position `n % maxSequence`. */
  lemma {:induction false} HintIndexCycles(n: nat)
    ensures HintIndexAfter(n) == n % MaxSequence
  {
    if n > 0 {
      HintIndexCycles(n - 1);
    }
  }

  class DecryptionPuzzle {
    /** The position of the code the next hint is about. */
    var hintIndex: int
    /** The code of the selected pseudocode (`sequence`). */
    var sequence: string
    /** How often `HintManager.updateHintCounter` has been called. */
    var hintsRequested: nat
    /** `GameState.isDecryptionSolved`. */
    var solved: bool

    ghost predicate Valid()
      reads this
    {
      0 <= hintIndex < MaxSequence
    }

    /** `initializePseudocode` with the selected code given: the hint index
        starts at 0. */
    constructor (sequence: string, solved: bool)
      ensures Valid() && hintIndex == 0 && hintsRequested == 0
      ensures this.sequence == sequence && this.solved == solved
    {
      hintIndex := 0;
      this.sequence := sequence;
      hintsRequested := 0;
      this.solved := solved;
    }

    /** `getUserHint`: counts the hint, reads the code's character at the
        hint index as a line number (its code point, since
        `Integer.valueOf(char)` widens the character) and moves the index
        on. `None`: `charAt` throws when the code is shorter than the
        index, after the hint has been counted. */
    method GetUserHint() returns (lineNumber: Option<int>)
      requires Valid()
      modifies this
      ensures Valid() && hintsRequested == old(hintsRequested) + 1
      ensures sequence == old(sequence) && solved == old(solved)
      ensures old(hintIndex) < |sequence| ==>
        lineNumber == Some(sequence[old(hintIndex)] as int) &&
        hintIndex == NextHintIndex(old(hintIndex))
      ensures old(hintIndex) >= |sequence| ==> lineNumber == None && hintIndex == old(hintIndex)
    {
      hintsRequested := hintsRequested + 1;
      if hintIndex >= |sequence| {
        return None;
      }
      lineNumber := Some(sequence[hintIndex] as int);
      hintIndex := (hintIndex + 1) % MaxSequence;
    }

    /** `onHintClicked`: on HARD nothing happens; otherwise a hint is given,
        or `charAt` fails after the hint has been counted. */
    method OnHintClicked(difficulty: Difficulty) returns (lineNumber: Option<int>)
      requires Valid()
      modifies this
      ensures Valid() && sequence == old(sequence) && solved == old(solved)
      ensures difficulty == Hard ==>
        lineNumber == None && hintIndex == old(hintIndex) && hintsRequested == old(hintsRequested)
      ensures difficulty != Hard ==> hintsRequested == old(hintsRequested) + 1
      ensures difficulty != Hard && old(hintIndex) < |sequence| ==>
        lineNumber == Some(sequence[old(hintIndex)] as int) &&
        hintIndex == NextHintIndex(old(hintIndex))
      ensures difficulty != Hard && old(hintIndex) >= |sequence| ==>
        lineNumber == None && hintIndex == old(hintIndex)
    {
      if difficulty == Hard {
        return None;
      }
      lineNumber := GetUserHint();
    }

    /** `handleCorrectSequence`: the puzzle is solved. */
    method HandleCorrectSequence()
      modifies this
      ensures solved
      ensures hintIndex == old(hintIndex) && sequence == old(sequence)
      ensures hintsRequested == old(hintsRequested)
    {
      solved := true;
    }

    /** `handleUserSequence`, called once the line is known to hold
        `maxSequence` digits: extracts the window and solves the puzzle
        when it equals the code; a wrong guess changes nothing. */
    method HandleUserSequence(userInput: string) returns (userSequence: string)
      requires DigitCount(userInput) == MaxSequence
      modifies this
      ensures Window(userInput) == Some(userSequence)
      ensures solved == (old(solved) || userSequence == sequence)
      ensures hintIndex == old(hintIndex) && sequence == old(sequence)
      ensures hintsRequested == old(hintsRequested)
    {
      var window := GetUserSequence(userInput);
      userSequence := window.value;
      if userSequence == sequence {
        HandleCorrectSequence();
      }
    }

    /** `onKeyPressed`: only ENTER reads the text field; a blank line is
        ignored; a guess is checked only while the puzzle is unsolved; any
        other line goes to the chat. Only a guess can change the state. */
    method OnKeyPressed(enterPressed: bool, fieldText: string) returns (outcome: KeyOutcome)
      requires Valid()
      modifies this
      ensures Valid() && hintIndex == old(hintIndex) && sequence == old(sequence)
      ensures hintsRequested == old(hintsRequested)
      ensures !enterPressed || Trim(fieldText) == [] ==>
        outcome == Ignored && solved == old(solved)
      ensures enterPressed && IsGuess(Trim(fieldText)) && !old(solved) ==>
        outcome.Guess? && Window(Trim(fieldText)) == Some(outcome.userSequence) &&
        solved == (outcome.userSequence == sequence)
      ensures enterPressed && Trim(fieldText) != [] && !(IsGuess(Trim(fieldText)) && !old(solved)) ==>
        outcome == Chat(Trim(fieldText)) && solved == old(solved)
    {
      var userInput := "";
      if enterPressed {
        userInput := fieldText;
      }
      userInput := Trim(userInput);
      if userInput == [] {
        return Ignored;
      }
      var isSequence := IsUserInputSequence(userInput);
      if isSequence && !solved {
        var userSequence := HandleUserSequence(userInput);
        return Guess(userSequence);
      }
      return Chat(userInput);
    }
  }
}
