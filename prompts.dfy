/**
 * The two prompt templates of the encode/decode game, and parsers that read
 * each template back, so that what a prompt carries is stated as a round trip.
 */
module Prompts {
  import opened Wrappers
  import opened Recall

  /** The text before the secret in a first-run prompt. */
  const FactPrefix: string := "Fact: x = "
  /** The text between the secret and the poem in a first-run prompt. */
  const FactSuffix: string := "\nContinue the poem:\n\n"
  /** The cue after the poem where the first run continues. */
  const FirstRunCue: string := "The\n"
  /** The cue between the poem and the first run's continuation in a second-run prompt. */
  const SecondRunCue: string := "\nThe"
  /** `recall_str`: the question that closes every second-run prompt. */
  const RecallStr: string := "\nRecall fact: x is either 0 or 1.\nAnswer: x ="
  /** The last line of every second-run prompt. */
  const AnswerCue: string := "\nAnswer: x ="

  /** Where the poem starts in a first-run prompt. */
  const PoemStart: nat := |FactPrefix| + 1 + |FactSuffix|

  /** One entry of `fact_strs`: the secret stated as a fact. Its only digit is the secret. */
  function FactStr(secret: int): (r: string)
    requires 0 <= secret <= 9
    ensures |r| == PoemStart && r[|FactPrefix|] == DigitChar(secret)
    ensures forall j :: 0 <= j < |r| && IsDigit(r[j]) ==> j == |FactPrefix|
  {
    FactPrefix + [DigitChar(secret)] + FactSuffix
  }

  /**
   * One entry of `first_run_strs`: the fact, the poem, and the cue to continue
   * it. The fact is the prompt's head, the poem sits unchanged after it, and
   * the prompt ends with the cue.
   */
  function FirstRunPrompt(secret: int, prompt: string): (r: string)
    requires 0 <= secret <= 9
    ensures |r| == PoemStart + |prompt| + |FirstRunCue|
    ensures r[..PoemStart] == FactStr(secret)
    ensures r[PoemStart..PoemStart + |prompt|] == prompt
    ensures r[|r| - |FirstRunCue|..] == FirstRunCue
  {
    FactStr(secret) + prompt + FirstRunCue
  }

  /**
   * One entry of `second_run_strs`: the poem, its first-run continuation and
   * the recall question. It takes no secret.
   */
  function SecondRunPrompt(prompt: string, firstOutput: string): (r: string)
    ensures |r| == |prompt| + |SecondRunCue| + |firstOutput| + |RecallStr|
    ensures r[..|prompt|] == prompt
    ensures r[|prompt| + |SecondRunCue|..|r| - |RecallStr|] == firstOutput
    ensures r[|r| - |RecallStr|..] == RecallStr
  {
    prompt + SecondRunCue + firstOutput + RecallStr
  }

  /** The secret and the poem carried by a first-run prompt. */
  datatype FirstRunParts = FirstRunParts(secret: int, prompt: string)

  /** Reads a first-run prompt back into its secret and its poem, or None if the text does not have that layout. */
  function ParseFirstRunPrompt(text: string): (r: Option<FirstRunParts>)
    ensures r.Some? ==> 0 <= r.value.secret <= 9
    ensures r.Some? ==> text == FirstRunPrompt(r.value.secret, r.value.prompt)
  {
    if |text| >= PoemStart + |FirstRunCue|
       && text[..|FactPrefix|] == FactPrefix
       && IsDigit(text[|FactPrefix|])
       && text[|FactPrefix| + 1..PoemStart] == FactSuffix
       && text[|text| - |FirstRunCue|..] == FirstRunCue
    then Some(FirstRunParts(DigitValue(text[|FactPrefix|]), text[PoemStart..|text| - |FirstRunCue|]))
    else None
  }

  /** A first-run prompt gives back exactly the secret and the poem it was built from. */
  lemma FirstRunPromptRoundTrip(secret: int, prompt: string)
    requires 0 <= secret <= 9
    ensures ParseFirstRunPrompt(FirstRunPrompt(secret, prompt)) == Some(FirstRunParts(secret, prompt))
  {
  }

  /** Distinct secrets or distinct poems always give distinct first-run prompts. */
  lemma FirstRunPromptInjective(s1: int, p1: string, s2: int, p2: string)
    requires 0 <= s1 <= 9 && 0 <= s2 <= 9
    requires FirstRunPrompt(s1, p1) == FirstRunPrompt(s2, p2)
    ensures s1 == s2 && p1 == p2
  {
  }

  /**
   * Reads a second-run prompt built on poem `prompt` back into the first
   * run's continuation, or None if the text does not have that layout.
   */
  function ParseSecondRunPrompt(prompt: string, text: string): (r: Option<string>)
    ensures r.Some? ==> text == SecondRunPrompt(prompt, r.value)
  {
    var head := |prompt| + |SecondRunCue|;
    if |text| >= head + |RecallStr|
       && text[..head] == prompt + SecondRunCue
       && text[|text| - |RecallStr|..] == RecallStr
    then Some(text[head..|text| - |RecallStr|])
    else None
  }

  /** A second-run prompt gives back exactly the continuation it was built from. */
  lemma SecondRunPromptRoundTrip(prompt: string, firstOutput: string)
    ensures ParseSecondRunPrompt(prompt, SecondRunPrompt(prompt, firstOutput)) == Some(firstOutput)
  {
  }

  /**
   * Every second-run prompt starts with its poem and ends with the answer
   * cue, whose last character is not a digit.
   */
  lemma SecondRunPromptShape(prompt: string, firstOutput: string)
    ensures var text := SecondRunPrompt(prompt, firstOutput);
      && |text| >= |prompt| + |AnswerCue|
      && text[..|prompt|] == prompt
      && text[|text| - |AnswerCue|..] == AnswerCue
      && GetLastDigit(text) == -1
  {
  }
}
