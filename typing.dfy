/**
 * The typing-session store: the target text, the user's input, the per-character
 * classification derived from them, the scores (correct/incorrect counts, accuracy,
 * words per minute), the adaptive extension of the text and the countdown timer.
 */
module Typing {
  import opened Common

  /** Length of a session in seconds. */
  const TestDuration: int := 60
  /** Characters per word when converting characters to words. */
  const AverageWordLength: int := 5
  /** The text is extended once the input comes this close to its end. */
  const TextBufferThreshold: int := 20
  /** Number of words appended by one extension. */
  const WordsToAddWhenExtending: nat := 10

  // ---------------------------------------------------------------------------
  // Per-character classification and the counts derived from it
  // ---------------------------------------------------------------------------

  /** One position of the target text; `isCorrect` is None (null) while that position is not typed yet. */
  datatype CharState = CharState(ch: char, isCorrect: Option<bool>)

  /** The text split into characters, each compared with the input at the same index. */
  function Chars(text: string, input: string): (cs: seq<CharState>)
    ensures |cs| == |text|
    ensures forall i :: 0 <= i < |text| ==> cs[i].ch == text[i]
    ensures forall i :: 0 <= i < |text| ==> (cs[i].isCorrect.None? <==> i >= |input|)
    ensures forall i :: 0 <= i < |text| && i < |input| ==> cs[i].isCorrect == Some(input[i] == text[i])
    decreases |text|
  {
    if text == [] then []
    else
      var n := |text| - 1;
      Chars(text[..n], input) + [CharState(text[n], if n >= |input| then None else Some(input[n] == text[n]))]
  }

  /** Number of entries of `cs` whose mark is `mark` (`filter(...).length`). */
  function Count(cs: seq<CharState>, mark: Option<bool>): (r: nat)
    ensures r <= |cs|
    decreases |cs|
  {
    if cs == [] then 0
    else Count(cs[..|cs| - 1], mark) + (if cs[|cs| - 1].isCorrect == mark then 1 else 0)
  }

  /** The number of typed positions whose character matches the text; never more than were typed. */
  function CorrectChars(text: string, input: string): (r: nat)
    ensures r <= |input| && r <= |text|
  {
    CountsCoverTyped(text, input);
    Count(Chars(text, input), Some(true))
  }

  /** The number of typed positions whose character differs from the text: the rest of the typed part. */
  function IncorrectChars(text: string, input: string): (r: nat)
    ensures r == Min(|input|, |text|) - CorrectChars(text, input)
  {
    CountsCoverTyped(text, input);
    Count(Chars(text, input), Some(false))
  }

  /** Every typed position inside the text is either correct or incorrect, so the two counts add up to the typed part. */
  lemma {:induction false} CountsCoverTyped(text: string, input: string)
    ensures Count(Chars(text, input), Some(true)) + Count(Chars(text, input), Some(false)) == Min(|input|, |text|)
    decreases |text|
  {
    if text != [] {
      var n := |text| - 1;
      CountsCoverTyped(text[..n], input);
      var cs := Chars(text, input);
      assert cs[..|cs| - 1] == Chars(text[..n], input);
    }
  }

  /** Extending the text leaves the classification of the positions it already had unchanged. */
  lemma CharsOfPrefix(text: string, longer: string, input: string)
    requires text <= longer
    ensures Chars(longer, input)[..|text|] == Chars(text, input)
  {
    var a, b := Chars(longer, input)[..|text|], Chars(text, input);
    assert |a| == |b|;
    forall i | 0 <= i < |text| ensures a[i] == b[i] {
      assert longer[i] == text[i];
    }
  }

  // ---------------------------------------------------------------------------
  // Rounding, accuracy and words per minute
  // ---------------------------------------------------------------------------

  /**
   * `Math.round(a / b)` for a positive denominator: the integer nearest to a/b,
   * halves rounded up (a/b + 1/2, rounded down).
   */
  function RoundDiv(a: int, b: int): (r: int)
    requires b > 0
    ensures (2 * r - 1) * b <= 2 * a < (2 * r + 1) * b
    ensures 0 <= a ==> 0 <= r
  {
    var q := (2 * a + b) / (2 * b);
    assert 2 * a + b == q * (2 * b) + (2 * a + b) % (2 * b);
    assert (2 * q - 1) * b == q * (2 * b) - b;
    assert (2 * q + 1) * b == q * (2 * b) + b;
    q
  }

  /** A quotient of at most `c` rounds to at most `c`. */
  lemma RoundDivAtMost(a: int, b: int, c: int)
    requires b > 0 && a <= c * b
    ensures RoundDiv(a, b) <= c
  {
    var r := RoundDiv(a, b);
    assert (2 * r - 1) * b < (2 * c + 1) * b;
    MulLessCancel(2 * r - 1, 2 * c + 1, b);
  }

  lemma MulLessCancel(x: int, y: int, b: int)
    requires b > 0 && x * b < y * b
    ensures x < y
  {
  }

  /** `Math.round(a / b)` for any non-zero denominator. */
  function RoundRatio(a: int, b: int): (r: int)
    requires b != 0
    ensures b > 0 ==> (2 * r - 1) * b <= 2 * a < (2 * r + 1) * b
    ensures b < 0 ==> (2 * r + 1) * b < 2 * a <= (2 * r - 1) * b
  {
    if b > 0 then RoundDiv(a, b) else RoundDiv(-a, -b)
  }

  /** Percentage of typed characters that are correct; 100 before anything is typed. */
  function Accuracy(text: string, input: string): (r: int)
    ensures |input| == 0 ==> r == 100
    ensures |input| > 0 ==>
      (2 * r - 1) * |input| <= 200 * CorrectChars(text, input) < (2 * r + 1) * |input|
  {
    if |input| == 0 then 100
    else RoundDiv(CorrectChars(text, input) * 100, |input|)
  }

  lemma AccuracyInRange(text: string, input: string)
    ensures 0 <= Accuracy(text, input) <= 100
  {
    CountsCoverTyped(text, input);
    if |input| > 0 {
      RoundDivAtMost(CorrectChars(text, input) * 100, |input|, 100);
    }
  }

  /** When every typed character is correct, the accuracy is exactly 100. */
  lemma AccuracyOfFlawlessInput(text: string, input: string)
    requires CorrectChars(text, input) == |input|
    ensures Accuracy(text, input) == 100
  {
    var n := |input|;
    if n > 0 {
      var r := RoundDiv(n * 100, n);
      RoundDivAtMost(n * 100, n, 100);
      assert 200 * n < (2 * r + 1) * n;
      MulLessCancel(200, 2 * r + 1, n);
      assert Accuracy(text, input) == r;
    }
  }

  /** "hallo" typed against "hello" has one error in five: an accuracy strictly between 0 and 100 (80). */
  lemma AccuracyOfHallo()
    ensures Accuracy("hello", "hallo") == 80
    ensures 0 < Accuracy("hello", "hallo") < 100
  {
    var cs := Chars("hello", "hallo");
    assert cs[0].isCorrect == Some(true);
    assert cs[1].isCorrect == Some(false);
    assert cs[2].isCorrect == Some(true);
    assert cs[3].isCorrect == Some(true);
    assert cs[4].isCorrect == Some(true);
    var c := Some(true);
    assert cs[..1][..0] == [];
    assert Count(cs[..1], c) == 1;
    assert cs[..2][..1] == cs[..1];
    assert Count(cs[..2], c) == 1;
    assert cs[..3][..2] == cs[..2];
    assert Count(cs[..3], c) == 2;
    assert cs[..4][..3] == cs[..3];
    assert Count(cs[..4], c) == 3;
    assert cs[..4] == cs[..|cs| - 1];
    assert Count(cs, c) == 4;
  }

  /**
   * Words per minute: 0 with no correct characters; once finished, the correct
   * characters in words over the whole minute; while running, extrapolated from the
   * seconds elapsed so far (0 before the first second has passed).
   */
  function Wpm(correct: nat, finished: bool, timeLeft: int): (r: int)
    ensures correct == 0 ==> r == 0
    ensures correct > 0 && finished ==>
      (2 * r - 1) * AverageWordLength <= 2 * correct < (2 * r + 1) * AverageWordLength
    ensures !finished && timeLeft == TestDuration ==> r == 0
    ensures correct > 0 && !finished && timeLeft < TestDuration ==>
      var elapsed := TestDuration - timeLeft;
      (2 * r - 1) * (AverageWordLength * elapsed) <= 2 * (correct * TestDuration)
        < (2 * r + 1) * (AverageWordLength * elapsed)
    ensures timeLeft <= TestDuration ==> r >= 0
  {
    if correct == 0 then 0
    else if finished then RoundDiv(correct, AverageWordLength)
    else
      var secondsElapsed := TestDuration - timeLeft;
      if secondsElapsed == 0 then 0
      else RoundRatio(correct * TestDuration, AverageWordLength * secondsElapsed)
  }

  // ---------------------------------------------------------------------------
  // Text extension
  // ---------------------------------------------------------------------------

  /** `s.split(sep)`: the runs between separators, possibly empty; never an empty list. */
  function Split(s: string, sep: char): (words: seq<string>)
    ensures |words| >= 1
    ensures forall k :: 0 <= k < |words| ==> sep !in words[k]
    decreases |s|
  {
    if s == [] then [""]
    else
      var rest := Split(s[1..], sep);
      if s[0] == sep then [""] + rest
      else [[s[0]] + rest[0]] + rest[1..]
  }

  /** `words.join(sep)`. */
  function Join(words: seq<string>, sep: char): (s: string)
    ensures |words| >= 1 ==> words[0] <= s
    ensures |s| + 1 >= |words|
    decreases |words|
  {
    if words == [] then ""
    else if |words| == 1 then words[0]
    else words[0] + [sep] + Join(words[1..], sep)
  }

  /** Joining the pieces of a split with the same separator gives back the string. */
  lemma {:induction false} JoinSplit(s: string, sep: char)
    ensures Join(Split(s, sep), sep) == s
    decreases |s|
  {
    if s != [] {
      JoinSplit(s[1..], sep);
      var rest := Split(s[1..], sep);
      if s[0] == sep {
        assert ([""] + rest)[1..] == rest;
      } else {
        var words := [[s[0]] + rest[0]] + rest[1..];
        if |rest| > 1 {
          assert words[1..] == rest[1..];
        }
      }
    }
  }

  /** Joining the first k pieces gives a prefix of joining all of them. */
  lemma {:induction false} JoinTakeIsPrefix(words: seq<string>, k: nat, sep: char)
    requires 1 <= k <= |words|
    ensures Join(words[..k], sep) <= Join(words, sep)
    decreases k
  {
    if k == |words| {
      assert words[..k] == words;
    } else if k == 1 {
      assert words[..1] == [words[0]];
    } else {
      JoinTakeIsPrefix(words[1..], k - 1, sep);
      assert words[..k][1..] == words[1..][..k - 1];
    }
  }

  /**
   * What one extension appends: a space and the first ten space-separated words
   * of the text (all of them when there are fewer). Since those words are the
   * beginning of the text, the appended part after the space repeats a prefix of it.
   */
  function Extension(text: string): (ext: string)
    ensures |ext| >= 1 && ext[0] == ' '
    ensures ext[1..] <= text
  {
    var words := Split(text, ' ');
    var k := Min(WordsToAddWhenExtending, |words|);
    JoinSplit(text, ' ');
    JoinTakeIsPrefix(words, k, ' ');
    " " + Join(words[..k], ' ')
  }

  /** The text is extended when the input reaches within the threshold of its end. */
  function NearEnd(input: string, text: string): (b: bool)
    ensures b <==> |text| - |input| <= TextBufferThreshold
    ensures |input| >= |text| ==> b
  {
    |input| >= |text| - TextBufferThreshold
  }

  // ---------------------------------------------------------------------------
  // The store
  // ---------------------------------------------------------------------------

  class TypingSession {
    var text: string
    var userInput: string
    var isStarted: bool
    var isFinished: bool
    var startTime: Option<int>
    var timeLeft: int
    /** Whether a countdown interval is installed (`timerInterval` is not null). */
    var timerActive: bool

    /** The invariant every store operation keeps. */
    ghost predicate Valid()
      reads this
    {
      && |userInput| <= |text|
      && 0 <= timeLeft <= TestDuration
      && (isFinished ==> isStarted)
      && (timerActive <==> isStarted && !isFinished)
      && (isStarted <==> startTime.Some?)
      && (!isFinished ==> timeLeft > 0)
      && (!isStarted ==> timeLeft == TestDuration)
    }

    constructor ()
      ensures Valid()
      ensures text == "" && userInput == ""
      ensures !isStarted && !isFinished && startTime == None
      ensures timeLeft == TestDuration && !timerActive
    {
      text := "";
      userInput := "";
      isStarted := false;
      isFinished := false;
      startTime := None;
      timeLeft := TestDuration;
      timerActive := false;
    }

    /** `startTimer`: installs the countdown unless one is already installed. */
    method StartTimer()
      modifies this`timerActive
      ensures timerActive
    {
      if timerActive {
        return;
      }
      timerActive := true;
    }

    /** `stopTimer`: clears the countdown if there is one. */
    method StopTimer()
      modifies this`timerActive
      ensures !timerActive
    {
      if timerActive {
        timerActive := false;
      }
    }

    /** `finishTest`: marks the session finished and clears the countdown. */
    method FinishTest()
      modifies this`isFinished, this`timerActive
      ensures isFinished && !timerActive
    {
      isFinished := true;
      StopTimer();
    }

    /** One firing of the countdown interval; nothing fires when no interval is installed. */
    method Tick()
      requires Valid()
      modifies this
      ensures Valid()
      ensures !old(timerActive) ==> unchanged(this)
      ensures old(timerActive) ==>
        && timeLeft == old(timeLeft) - 1
        && isFinished == (timeLeft <= 0)
        && timerActive == !isFinished
      ensures text == old(text) && userInput == old(userInput)
      ensures isStarted == old(isStarted) && startTime == old(startTime)
    {
      if !timerActive {
        return;
      }
      timeLeft := timeLeft - 1;
      if timeLeft <= 0 {
        FinishTest();
      }
    }

    /** `reset`: clears the input and the session flags, restores the full time and stops the timer. */
    method Reset()
      modifies this
      ensures Valid()
      ensures text == old(text) && userInput == ""
      ensures !isStarted && !isFinished && startTime == None
      ensures timeLeft == TestDuration && !timerActive
      ensures Accuracy(text, userInput) == 100
      ensures Wpm(CorrectChars(text, userInput), isFinished, timeLeft) == 0
    {
      userInput := "";
      isStarted := false;
      isFinished := false;
      startTime := None;
      timeLeft := TestDuration;
      StopTimer();
    }

    /** `setText`: replaces the target text, then resets the session. */
    method SetText(newText: string)
      modifies this
      ensures Valid()
      ensures text == newText && userInput == ""
      ensures !isStarted && !isFinished && startTime == None
      ensures timeLeft == TestDuration && !timerActive
    {
      text := newText;
      Reset();
    }

    /**
     * `handleKeyPress` at clock reading `now`: the first key starts the session and
     * the timer; after the session is finished keys change nothing; Backspace drops
     * the last typed character; any other multi-character key name is ignored; a
     * single character is appended, and the text is extended when the input has
     * come near its end.
     */
    method HandleKeyPress(key: string, now: int)
      requires Valid()
      modifies this
      ensures Valid()
      ensures isStarted
      ensures startTime == if old(isStarted) then old(startTime) else Some(now)
      ensures isFinished == old(isFinished) && timeLeft == old(timeLeft)
      ensures old(text) <= text
      ensures old(isFinished) ==> text == old(text) && userInput == old(userInput)
      ensures !old(isFinished) && key == "Backspace" ==>
        && text == old(text)
        && userInput == (if old(userInput) == [] then [] else old(userInput)[..|old(userInput)| - 1])
      ensures !old(isFinished) && key != "Backspace" && |key| > 1 ==>
        text == old(text) && userInput == old(userInput)
      ensures !old(isFinished) && key != "Backspace" && |key| <= 1 ==>
        && userInput == old(userInput) + key
        && text == (if NearEnd(userInput, old(text)) then old(text) + Extension(old(text)) else old(text))
    {
      if !isStarted {
        isStarted := true;
        startTime := Some(now);
        StartTimer();
      }

      if isFinished {
        return;
      }

      if key == "Backspace" {
        if userInput != [] {
          userInput := userInput[..|userInput| - 1];
        }
        return;
      }

      if |key| > 1 {
        return;
      }

      userInput := userInput + key;

      if NearEnd(userInput, text) {
        text := text + Extension(text);
      }
    }
  }
}
