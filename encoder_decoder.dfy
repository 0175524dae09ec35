/**
 * One training step of the encode/decode game: compose the first-run
 * prompts, run the engine, compose the second-run prompts from the first
 * run's continuations, run the engine again, merge the two runs' statistics
 * and rebuild one trajectory per batch element.
 */
module EncoderDecoder {
  import opened Wrappers
  import opened Recall
  import opened Prompts
  import opened Stats

  /**
   * What one engine round gives back once decoded: the prompts as the
   * engine saw them, the continuations it produced, and its statistics.
   */
  datatype StageRun = StageRun(prompts: seq<string>, outputs: seq<string>, stats: StatsMap)

  /** The trajectories and the merged statistics of one step. */
  datatype Experience = Experience(trajectories: seq<seq<Field>>, stats: StatsMap)

  /** Secrets as drawn by `np.random.randint(0, 2, ...)`: every one is 0 or 1. */
  predicate AreSecrets(digits: seq<int>) {
    forall i :: 0 <= i < |digits| ==> digits[i] == 0 || digits[i] == 1
  }

  /**
   * What the model asks of `run`: one decoded prompt and one continuation
   * per batch element. Which entry answers which batch element is taken by
   * position.
   */
  ghost predicate KeepsBatchAlignment(run: seq<string> -> StageRun) {
    forall batch: seq<string> :: |run(batch).prompts| == |batch| && |run(batch).outputs| == |batch|
  }

  /**
   * The first-run batch the loop at lines 88-91 builds: one prompt per
   * element, and prompt i reads back as exactly secret i and poem i.
   */
  function FirstRunBatch(digits: seq<int>, strPrompts: seq<string>): (b: seq<string>)
    requires |digits| == |strPrompts|
    requires AreSecrets(digits)
    ensures |b| == |digits|
    ensures forall i :: 0 <= i < |b| ==> ParseFirstRunPrompt(b[i]) == Some(FirstRunParts(digits[i], strPrompts[i]))
  {
    seq(|digits|, i requires 0 <= i < |digits| => FirstRunPrompt(digits[i], strPrompts[i]))
  }

  /**
   * The second-run batch the loop at lines 105-107 builds: one prompt per
   * element, and prompt i reads back as exactly continuation i.
   */
  function SecondRunBatch(strPrompts: seq<string>, firstOutputs: seq<string>): (b: seq<string>)
    requires |strPrompts| == |firstOutputs|
    ensures |b| == |strPrompts|
    ensures forall i :: 0 <= i < |b| ==> ParseSecondRunPrompt(strPrompts[i], b[i]) == Some(firstOutputs[i])
  {
    seq(|strPrompts|, i requires 0 <= i < |strPrompts| => SecondRunPrompt(strPrompts[i], firstOutputs[i]))
  }

  /**
   * One trajectory: `[digit, prompt_1, output_1, prompt_2, output_2]`. It has
   * five entries, so reward_fn as written rejects it, while the corrected
   * scorer rewards it exactly when the secret is the last digit of output_2.
   */
  function TrajectoryOf(secret: int, firstPrompt: string, firstOutput: string,
                        secondPrompt: string, secondOutput: string): (t: seq<Field>)
    ensures |t| == 5
    ensures RewardFn([t]) == Failure(AssertionError)
    ensures |secondOutput| > 0 ==>
      CorrectedRewardFn([t]) == Success([if secret == GetLastDigit(secondOutput) then 1 else 0])
  {
    var t := [Num(secret), Text(firstPrompt), Text(firstOutput), Text(secondPrompt), Text(secondOutput)];
    assert [t][0][4] == Text(secondOutput);
    assert [t][0][0] == Num(secret);
    assert |secondOutput| > 0 ==>
      var rewards := CorrectedRewardFn([t]).value;
      |rewards| == 1 && rewards == [rewards[0]];
    t
  }

  /** `trajectories` holds, in batch order, one trajectory per secret built from the two runs. */
  predicate Reconstructs(trajectories: seq<seq<Field>>, digits: seq<int>, first: StageRun, second: StageRun) {
    && |trajectories| == |digits|
    && |first.prompts| == |first.outputs| == |second.prompts| == |second.outputs| == |digits|
    && forall i :: 0 <= i < |trajectories| ==>
         trajectories[i] == TrajectoryOf(digits[i], first.prompts[i], first.outputs[i],
                                         second.prompts[i], second.outputs[i])
  }

  /**
   * `encoder_decoder_experience_fn`. The decoded batch prompts and the
   * secrets are inputs; `run` stands for tokenising a batch of strings,
   * generating from it and decoding the result. The first-run prompts carry
   * the secret; the second-run prompts carry only the poem and the first
   * run's continuation. A key of the first run's statistics that the second
   * run lacks raises KeyError before any trajectory is built.
   */
  method EncoderDecoderExperience(batchSize: nat, digits: seq<int>, strPrompts: seq<string>,
                                  run: seq<string> -> StageRun)
    returns (r: Result<Experience, MergeError>)
    requires |digits| == batchSize && AreSecrets(digits)
    requires |strPrompts| == batchSize
    requires KeepsBatchAlignment(run)
    ensures var first := run(FirstRunBatch(digits, strPrompts));
            var second := run(SecondRunBatch(strPrompts, first.outputs));
            && (r.Failure? <==> MergeStats(first.stats, second.stats).Failure?)
            && (r.Success? ==> r.value.stats == MergeStats(first.stats, second.stats).value)
            && (r.Success? ==> |r.value.trajectories| == batchSize)
            && (r.Success? ==> forall i :: 0 <= i < batchSize ==>
                 r.value.trajectories[i] == TrajectoryOf(digits[i], first.prompts[i], first.outputs[i],
                                                         second.prompts[i], second.outputs[i]))
  {
    var factStrs := seq(batchSize, i requires 0 <= i < batchSize => FactStr(digits[i]));

    var firstRunStrs := seq(batchSize, _ => "");
    var i := 0;
    while i < batchSize
      invariant 0 <= i <= batchSize && |firstRunStrs| == batchSize
      invariant forall j :: 0 <= j < i ==> firstRunStrs[j] == FirstRunPrompt(digits[j], strPrompts[j])
    {
      firstRunStrs := firstRunStrs[i := factStrs[i] + strPrompts[i] + FirstRunCue];
      i := i + 1;
    }
    assert firstRunStrs == FirstRunBatch(digits, strPrompts);
    var first := run(firstRunStrs);

    var secondRunStrs := seq(batchSize, _ => "");
    i := 0;
    while i < batchSize
      invariant 0 <= i <= batchSize && |secondRunStrs| == batchSize
      invariant forall j :: 0 <= j < i ==> secondRunStrs[j] == SecondRunPrompt(strPrompts[j], first.outputs[j])
    {
      secondRunStrs := secondRunStrs[i := strPrompts[i] + SecondRunCue + first.outputs[i] + RecallStr];
      i := i + 1;
    }
    assert secondRunStrs == SecondRunBatch(strPrompts, first.outputs);
    var second := run(secondRunStrs);

    var stats := MergeStats(first.stats, second.stats);
    if stats.Failure? {
      return Failure(stats.error);
    }

    var trajectories: seq<seq<Field>> := [];
    i := 0;
    while i < batchSize
      invariant 0 <= i <= batchSize && |trajectories| == i
      invariant forall j :: 0 <= j < i ==>
        trajectories[j] == TrajectoryOf(digits[j], first.prompts[j], first.outputs[j],
                                        second.prompts[j], second.outputs[j])
    {
      trajectories := trajectories + [TrajectoryOf(digits[i], first.prompts[i], first.outputs[i],
                                                   second.prompts[i], second.outputs[i])];
      i := i + 1;
    }
    r := Success(Experience(trajectories, stats.value));
  }

  /**
   * `reward_fn` as written rejects every non-empty batch of reconstructed
   * trajectories: they have five entries, and it asserts three.
   */
  lemma RewardFnRejectsReconstruction(trajectories: seq<seq<Field>>, digits: seq<int>,
                                      first: StageRun, second: StageRun)
    requires Reconstructs(trajectories, digits, first, second)
    requires |trajectories| > 0
    ensures RewardFn(trajectories) == Failure(AssertionError)
  {
  }

  /**
   * The corrected scorer accepts a reconstructed batch exactly when every
   * second-run continuation is non-empty, and then rewards element i
   * exactly when its secret is the last digit of that continuation.
   */
  lemma CorrectedRewardScoresReconstruction(trajectories: seq<seq<Field>>, digits: seq<int>,
                                            first: StageRun, second: StageRun)
    requires Reconstructs(trajectories, digits, first, second)
    ensures CorrectedRewardFn(trajectories).Success? <==> forall i :: 0 <= i < |digits| ==> |second.outputs[i]| > 0
    ensures CorrectedRewardFn(trajectories).Success? ==> forall i :: 0 <= i < |digits| ==>
      (CorrectedRewardFn(trajectories).value[i] == 1 <==> digits[i] == GetLastDigit(second.outputs[i]))
  {
  }

  /**
   * A step whose second-run continuations each end in their own element's
   * secret earns reward 1 on every element under the corrected scorer.
   */
  lemma MatchingAnswersScoreOne(trajectories: seq<seq<Field>>, digits: seq<int>,
                                first: StageRun, second: StageRun)
    requires Reconstructs(trajectories, digits, first, second)
    requires AreSecrets(digits)
    requires forall i :: 0 <= i < |digits| ==>
      |second.outputs[i]| > 0 && second.outputs[i][|second.outputs[i]| - 1] == DigitChar(digits[i])
    ensures CorrectedRewardFn(trajectories) == Success(seq(|digits|, _ => 1))
  {
    CorrectedRewardScoresReconstruction(trajectories, digits, first, second);
    var rewards := CorrectedRewardFn(trajectories).value;
    forall i | 0 <= i < |digits|
      ensures rewards[i] == 1
    {
      var out := second.outputs[i];
      assert out == out[..|out| - 1] + [DigitChar(digits[i])];
      LastDigitRoundTrip(out[..|out| - 1], digits[i]);
    }
    assert rewards == seq(|digits|, _ => 1);
  }
}
