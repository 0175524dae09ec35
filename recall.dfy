/**
 * Reading the recalled secret back from generated text (`get_last_digit`)
 * and scoring trajectories against their secrets (`reward_fn`).
 */
module Recall {
  import opened Wrappers

  /** One entry of a trajectory list. The secret is an integer, every other entry is text. */
  datatype Field = Num(n: int) | Text(s: string)

  /** The exceptions `reward_fn` can raise. */
  datatype RewardError =
    | AssertionError  // a trajectory does not have the asserted number of fields
    | TypeError       // the scored entry is an integer, which cannot be indexed
    | IndexError      // the scored entry is the empty string, which has no last character

  /** The ten decimal digit characters, in order of value. */
  const Digits: string := "0123456789"

  /** `c.isdigit()` for one character; only '0'..'9' are modelled. */
  predicate IsDigit(c: char)
    ensures IsDigit(c) <==> c in Digits
  {
    assert '0' <= c <= '9' ==> Digits[c as int - '0' as int] == c;
    '0' <= c <= '9'
  }

  /** `int(c)` for a single decimal digit: its position among the digits. */
  function DigitValue(c: char): (v: int)
    requires IsDigit(c)
    ensures 0 <= v <= 9 && Digits[v] == c
  {
    c as int - '0' as int
  }

  /** `str(d)` for a single-digit secret: the inverse of DigitValue. */
  function DigitChar(d: int): (c: char)
    requires 0 <= d <= 9
    ensures IsDigit(c) && DigitValue(c) == d && c == Digits[d]
  {
    ('0' as int + d) as char
  }

  /**
   * The last character of `sample` read as a digit, or -1 when it is not one.
   * The empty string has no last character: the caller must not pass it.
   */
  function GetLastDigit(sample: string): (r: int)
    requires |sample| > 0
    ensures -1 <= r <= 9
    ensures r == -1 <==> !IsDigit(sample[|sample| - 1])
    ensures r != -1 ==> DigitChar(r) == sample[|sample| - 1]
  {
    var last := sample[|sample| - 1];
    if IsDigit(last) then DigitValue(last) else -1
  }

  /** A digit written at the very end of a text is what GetLastDigit reads back. */
  lemma LastDigitRoundTrip(text: string, d: int)
    requires 0 <= d <= 9
    ensures GetLastDigit(text + [DigitChar(d)]) == d
  {
  }

  /** An entry GetLastDigit can read without raising. */
  predicate Scorable(f: Field) {
    f.Text? && |f.s| > 0
  }

  /** The exception GetLastDigit raises on an entry it cannot read. */
  function ScoringError(f: Field): RewardError
    requires !Scorable(f)
  {
    if f.Text? then IndexError else TypeError
  }

  /**
   * `list(map(get_last_digit, column))`: entries are read front to back and
   * the first one that cannot be read decides the exception.
   */
  function LastDigits(column: seq<Field>): (r: Result<seq<int>, RewardError>)
    ensures r.Success? <==> forall i :: 0 <= i < |column| ==> Scorable(column[i])
    ensures r.Success? ==> |r.value| == |column|
    ensures r.Success? ==> forall i :: 0 <= i < |column| ==> r.value[i] == GetLastDigit(column[i].s)
    ensures r.Failure? ==>
      exists i :: 0 <= i < |column| && !Scorable(column[i]) && r.error == ScoringError(column[i])
                  && forall j :: 0 <= j < i ==> Scorable(column[j])
  {
    if column == [] then Success([])
    else if !Scorable(column[0]) then Failure(ScoringError(column[0]))
    else match LastDigits(column[1..])
      case Failure(e) => Failure(e)
      case Success(rest) => Success([GetLastDigit(column[0].s)] + rest)
  }

  /** `trajectories[:, k]`: entry k of every trajectory, in order. */
  function Column(trajectories: seq<seq<Field>>, k: nat): (c: seq<Field>)
    requires forall i :: 0 <= i < |trajectories| ==> k < |trajectories[i]|
    ensures |c| == |trajectories|
    ensures forall i :: 0 <= i < |trajectories| ==> c[i] == trajectories[i][k]
  {
    seq(|trajectories|, i requires 0 <= i < |trajectories| => trajectories[i][k])
  }

  /** Every trajectory has exactly `arity` entries. */
  predicate HasArity(trajectories: seq<seq<Field>>, arity: nat) {
    forall i :: 0 <= i < |trajectories| ==> |trajectories[i]| == arity
  }

  /**
   * The body of `reward_fn`, for a given asserted arity and a given answer
   * entry: assert the arity of every trajectory, read the last digit of every
   * answer entry, and score 1 where entry 0 equals that digit. Python's `==`
   * between a string and an integer is false, which is what Field equality gives.
   */
  function Score(trajectories: seq<seq<Field>>, arity: nat, answer: nat): (r: Result<seq<int>, RewardError>)
    requires 0 < answer < arity
    ensures !HasArity(trajectories, arity) ==> r == Failure(AssertionError)
    ensures r.Success? <==>
      HasArity(trajectories, arity) && forall i :: 0 <= i < |trajectories| ==> Scorable(trajectories[i][answer])
    ensures r.Success? ==> |r.value| == |trajectories|
    ensures r.Success? ==> forall i :: 0 <= i < |trajectories| ==>
      && (r.value[i] == 0 || r.value[i] == 1)
      && (r.value[i] == 1 <==> trajectories[i][0] == Num(GetLastDigit(trajectories[i][answer].s)))
    ensures HasArity(trajectories, arity) && r.Failure? ==>
      exists i :: 0 <= i < |trajectories| && !Scorable(trajectories[i][answer])
                  && r.error == ScoringError(trajectories[i][answer])
                  && forall j :: 0 <= j < i ==> Scorable(trajectories[j][answer])
  {
    if !HasArity(trajectories, arity) then Failure(AssertionError)
    else
      var column := Column(trajectories, answer);
      match LastDigits(column)
      case Failure(e) => Failure(e)
      case Success(digits) =>
        Success(seq(|trajectories|, i requires 0 <= i < |trajectories| =>
          if trajectories[i][0] == Num(digits[i]) then 1 else 0))
  }

  /**
   * `reward_fn` as written: it asserts three entries per trajectory and
   * scores entry 2 against entry 0.
   */
  function RewardFn(trajectories: seq<seq<Field>>): (r: Result<seq<int>, RewardError>)
    ensures (exists i :: 0 <= i < |trajectories| && |trajectories[i]| != 3) ==> r == Failure(AssertionError)
    ensures r.Success? <==>
      forall i :: 0 <= i < |trajectories| ==> |trajectories[i]| == 3 && Scorable(trajectories[i][2])
    ensures r.Success? ==> |r.value| == |trajectories|
    ensures r.Success? ==> forall i :: 0 <= i < |trajectories| ==>
      && (r.value[i] == 0 || r.value[i] == 1)
      && (r.value[i] == 1 <==> trajectories[i][0] == Num(GetLastDigit(trajectories[i][2].s)))
  {
    Score(trajectories, 3, 2)
  }

  /**
   * `reward_fn` as its documentation describes it: trajectories of the form
   * [digit, prompt_1, output_1, prompt_2, output_2], scored on output_2.
   */
  function CorrectedRewardFn(trajectories: seq<seq<Field>>): (r: Result<seq<int>, RewardError>)
    ensures (exists i :: 0 <= i < |trajectories| && |trajectories[i]| != 5) ==> r == Failure(AssertionError)
    ensures r.Success? <==>
      forall i :: 0 <= i < |trajectories| ==> |trajectories[i]| == 5 && Scorable(trajectories[i][4])
    ensures r.Success? ==> |r.value| == |trajectories|
    ensures r.Success? ==> forall i :: 0 <= i < |trajectories| ==>
      && (r.value[i] == 0 || r.value[i] == 1)
      && (r.value[i] == 1 <==> trajectories[i][0] == Num(GetLastDigit(trajectories[i][4].s)))
  {
    Score(trajectories, 5, 4)
  }

  /**
   * When the scored text does not end in a digit, a secret in {0, 1} is
   * never matched: that trajectory's reward is 0.
   */
  lemma NonDigitAnswerScoresZero(trajectories: seq<seq<Field>>, i: nat)
    requires RewardFn(trajectories).Success?
    requires i < |trajectories|
    requires trajectories[i][0] == Num(0) || trajectories[i][0] == Num(1)
    requires !IsDigit(trajectories[i][2].s[|trajectories[i][2].s| - 1])
    ensures RewardFn(trajectories).value[i] == 0
  {
  }
}
