# Encode/decode recall game: experience generation and reward

This project models the core of `examples/experience_demo/encoder_decoder_text.py`, an
experience function for PPO training in trlx. A language model is given a secret digit,
asked to continue a poem, and then, without the secret, asked to recall it from its own
continuation. One step of the function does the following:

- It states each element's secret as a fact in a first-run prompt.
- It runs the engine on that batch.
- It builds second-run prompts from the poem and the first run's continuation, then runs the engine again.
- It merges the two runs' statistics and rebuilds one five-entry trajectory per element.

`reward_fn` scores trajectories by reading the last character of a text as a digit.

Modules:

- `Wrappers` (`wrappers.dfy`): `Option` and `Result`.
- `Recall` (`recall.dfy`): `get_last_digit`, the in-order `map` over a column, and `reward_fn`.
  It also has the corrected scorer described under Findings. The exceptions Python raises are
  `Failure` values: `AssertionError`, `TypeError` and `IndexError`.
- `Prompts` (`prompts.dfy`): the two prompt templates. Each has a parser that reads it back,
  and round-trip lemmas state what each prompt carries.
- `Stats` (`stats.dfy`): the dictionary comprehension that merges the two runs' statistics.
  A missing key is a `KeyError` failure.
- `EncoderDecoder` (`encoder_decoder.dfy`): `encoder_decoder_experience_fn` as a method
  with the source's three loops, plus lemmas that connect its trajectories to the scorers.

The tokenizer, the generation engine and the decoder appear only through the method's
parameters. The batch prompts decoded from `input_ids` and the sampled secrets are inputs.
One function parameter `run` stands for "tokenise a batch of strings, generate, decode".
It returns the decoded prompts, the decoded continuations and the run's statistics. A
precondition on `run` says it returns one decoded prompt and one continuation per batch
element.

## Model

| member | source | states |
|---|---|---|
| Recall.IsDigit | examples/experience_demo/encoder_decoder_text.py:24 | a character counts as a digit exactly when it is one of the ten characters "0123456789" |
| Recall.DigitValue | examples/experience_demo/encoder_decoder_text.py:25 | a digit's value is in 0..9 and is that digit's position in "0123456789" |
| Recall.DigitChar | examples/experience_demo/encoder_decoder_text.py:80 | formatting a single-digit secret gives the digit character at that position of "0123456789", whose value is the secret |
| Recall.GetLastDigit | examples/experience_demo/encoder_decoder_text.py:19-27 | the result is in -1..9; it is -1 exactly when the last character is not a digit; otherwise it is that digit's value; the empty string is excluded because `sample[-1]` raises on it |
| Recall.LastDigitRoundTrip | examples/experience_demo/encoder_decoder_text.py:23-25 | a digit written at the end of any text is the digit get_last_digit reads back |
| Recall.LastDigits | examples/experience_demo/encoder_decoder_text.py:36 | mapping get_last_digit over a column succeeds exactly when every entry is non-empty text; then it gives one digit per entry, in order; otherwise the first entry that cannot be read decides the exception (TypeError for an integer, IndexError for an empty string) |
| Recall.Column | examples/experience_demo/encoder_decoder_text.py:36 | `trajectories[:, k]` has one entry per trajectory, and entry i is entry k of trajectory i |
| Recall.Score | examples/experience_demo/encoder_decoder_text.py:29-37 | for a given arity and answer entry: a trajectory of the wrong arity raises AssertionError before anything is read; otherwise there is one reward per trajectory, each 0 or 1, and it is 1 exactly when entry 0 equals the answer's last digit; a failure names the first unreadable answer |
| Recall.RewardFn | examples/experience_demo/encoder_decoder_text.py:29-37 | reward_fn as written: any trajectory without exactly 3 entries raises AssertionError; success exactly when all have 3 entries and entry 2 is non-empty text; reward i is 0 or 1, and 1 exactly when entry 0 equals get_last_digit of entry 2 |
| Recall.CorrectedRewardFn | examples/experience_demo/encoder_decoder_text.py:29-37 | reward_fn as its documentation describes it: asserts 5 entries and scores output_2 (entry 4) against the digit, with the same guarantees as RewardFn |
| Recall.NonDigitAnswerScoresZero | examples/experience_demo/encoder_decoder_text.py:36-37 | when the scored text does not end in a digit and the secret is 0 or 1, the reward is 0 |
| Prompts.FactStr | examples/experience_demo/encoder_decoder_text.py:80 | the fact has the length of the template and exactly one digit, at the secret's position, which is the secret |
| Prompts.FirstRunPrompt | examples/experience_demo/encoder_decoder_text.py:91 | the first-run prompt starts with the fact for the secret, carries the poem unchanged after it, and ends with "The\n" |
| Prompts.ParseFirstRunPrompt | examples/experience_demo/encoder_decoder_text.py:80 | a text accepted as a first-run prompt yields a single-digit secret and a poem, and the text is exactly the first-run prompt of those two |
| Prompts.FirstRunPromptRoundTrip | examples/experience_demo/encoder_decoder_text.py:88-91 | a first-run prompt `"Fact: x = " + d + "\nContinue the poem:\n\n" + poem + "The\n"` gives back exactly its secret and its poem |
| Prompts.FirstRunPromptInjective | examples/experience_demo/encoder_decoder_text.py:88-91 | two first-run prompts are equal only when their secrets and poems are equal |
| Prompts.SecondRunPrompt | examples/experience_demo/encoder_decoder_text.py:107 | the second-run prompt starts with the poem, carries the first run's continuation unchanged after "\nThe", and ends with recall_str; it takes no secret |
| Prompts.ParseSecondRunPrompt | examples/experience_demo/encoder_decoder_text.py:105-107 | a text accepted as a second-run prompt for a poem yields a continuation, and the text is exactly the second-run prompt of that poem and continuation |
| Prompts.SecondRunPromptRoundTrip | examples/experience_demo/encoder_decoder_text.py:105-107 | a second-run prompt `poem + "\nThe" + output_1 + recall_str` gives back exactly the first run's continuation |
| Prompts.SecondRunPromptShape | examples/experience_demo/encoder_decoder_text.py:81 | every second-run prompt starts with its poem and ends with `"\nAnswer: x ="`, so its last character is not a digit |
| Stats.MergeStats | examples/experience_demo/encoder_decoder_text.py:123 | the merge raises KeyError exactly when a key of the first run is missing from the second; otherwise its keys are exactly the first run's and each value is the sum of the two runs' values |
| Stats.MergeStatsIgnoresExtraKeys | examples/experience_demo/encoder_decoder_text.py:123 | keys only the second run reports never change the merge, whether it succeeds or fails |
| Stats.MergeStatsCommutes | examples/experience_demo/encoder_decoder_text.py:123 | with equal key sets, merging (A, B) and (B, A) give the same result |
| EncoderDecoder.FirstRunBatch | examples/experience_demo/encoder_decoder_text.py:88-91 | the first-run batch has one prompt per element, and prompt i reads back as exactly secret i and poem i, so batch order is kept |
| EncoderDecoder.SecondRunBatch | examples/experience_demo/encoder_decoder_text.py:105-107 | the second-run batch has one prompt per element, and prompt i reads back as exactly first-run continuation i |
| EncoderDecoder.TrajectoryOf | examples/experience_demo/encoder_decoder_text.py:128 | a trajectory has five entries; reward_fn as written raises AssertionError on it; when output_2 is non-empty, the corrected scorer gives it 1 exactly when the secret is output_2's last digit, and 0 otherwise |
| EncoderDecoder.EncoderDecoderExperience | examples/experience_demo/encoder_decoder_text.py:40-130 | the first run is sent prompt i = fact of secret i + poem i + "The\n"; the second run is sent prompt i = poem i + "\nThe" + first-run output i + recall_str, which takes no secret; the step fails exactly when the stats merge raises; on success the stats are the merge and there are batch_size trajectories, trajectory i being `[digit i, prompt_1 i, output_1 i, prompt_2 i, output_2 i]` from the two runs |
| EncoderDecoder.RewardFnRejectsReconstruction | examples/experience_demo/encoder_decoder_text.py:34-35 | reward_fn as written raises AssertionError on every non-empty batch of reconstructed trajectories |
| EncoderDecoder.CorrectedRewardScoresReconstruction | examples/experience_demo/encoder_decoder_text.py:125-128 | the corrected scorer accepts reconstructed trajectories exactly when every second-run output is non-empty; then reward i is 1 exactly when secret i is the last digit of second-run output i |
| EncoderDecoder.MatchingAnswersScoreOne | examples/experience_demo/encoder_decoder_text.py:31-32 | when every second-run output ends in its own element's secret, every reward is 1 |

## Left out

- The secret draw `np.random.randint(0, 2, batch_size)` (line 76) is not modelled. The secrets are an input of length batch_size, and every one is required to be 0 or 1.
- Tokenisation, generation and decoding (lines 84-86, 94-102, 110-118) are foreign calls. They are represented by the `run` parameter and by the decoded batch prompts given as input.
- `RunElementBatch.__add__` (line 121) is not part of this model, so the combined engine data is not modelled.
- `main`, the CSV read, the device selection and the YAML configuration (lines 17, 136-154) are I/O and environment setup.
- EncoderDecoder.EncoderDecoderExperience: requires the decoder to return exactly one prompt and one output per batch element. The code would raise IndexError past a shorter list and ignore the tail of a longer one. Neither case is modelled.
- Recall.GetLastDigit: only '0'..'9' count as digits. Python's `str.isdigit` also accepts other Unicode digits, which `int()` then rejects or converts.
- Recall.DigitChar: only single-digit secrets are formatted. The secrets are 0 or 1.
- `run` is a function, so the engine is modelled as deterministic: the same batch always gets the same decoded text and statistics. With batch size 0 both runs receive the same empty batch and so report the same statistics, which the real engine need not do. No contract depends on this.
- Which decoded entry answers which batch element is taken by position. Nothing states that continuation i was generated from prompt i.
- Statistics values are integers here. In the source they are floats or tensors.
- Which missing key the KeyError names is not modelled; the failure carries no key.
- `trajectories[:, k]` (line 36) is read as "entry k of every trajectory". On a plain Python list this indexing would itself raise TypeError; that depends on how the trainer passes the trajectories, which is not part of this model.
- Behaviours of the code that the model keeps as they are:
  - The recalled value is the last character of the text, not its last word, and an empty answer raises IndexError.
  - No list lengths are checked before the lists are indexed and zipped.
  - The stats merge silently drops keys only the second run has. It fails only when the first run has a key the second lacks.
  - The recall question itself contains "0 or 1". The second-run template therefore contains both digit characters, but it never depends on the secret.

## Findings

| source | as written | input that shows it | evidently intended | confidence | as-written member | corrected member |
|---|---|---|---|---|---|---|
| examples/experience_demo/encoder_decoder_text.py:34-37 | reward_fn asserts that every trajectory has 3 entries and scores entry 2 | any non-empty batch from the experience function, whose trajectories have 5 entries (line 128), e.g. `[[0, "p1", "o1", "p2", "x = 0"]]`: AssertionError | assert 5 entries and score entry 4 (output_2), as the docstring at lines 31-32 says | not executed; high for the assertion, medium for the entry index | Recall.RewardFn, EncoderDecoder.RewardFnRejectsReconstruction | Recall.CorrectedRewardFn, EncoderDecoder.CorrectedRewardScoresReconstruction |
