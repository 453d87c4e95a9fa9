# Hearing test: the two test engines and the result screen

This project models the sequential logic of an Android hearing self-test app. The app has two tests and a result screen:

- **Frequency sensitivity test** (`FrequencyTestActivity`). The app plays tones at 8000, 6000, 4000, 2000, 1000, 500, 250 and 125 Hz, in that order. The listener answers each tone with "cannot hear" (0), "faintly" (1) or "clearly" (2). The test records two metrics:
  - `lowestHeardFrequency`: the first frequency answered faintly or clearly.
  - `optimalFrequency`: the first frequency answered clearly.
  - Both start at `-1`, meaning unset. After the eighth answer the test stops and sorts `lowestHeardFrequency` into one of four analysis buckets.
- **Left/right test** (`LeftRightTestActivity`). The app runs five trials. Each trial plays a 1 kHz tone on a side chosen at random, and the listener names the side. The test counts correct answers and computes the accuracy in percent.
- **Result screen** (`TestResultActivity`). It shows a title and, for the two known test types, the results and a fixed analysis text. The text depends on thresholds on the accuracy, or on the frequency metrics with fallbacks. Its "retake" button opens the matching test.

Both tone generators write an interleaved stereo `short[]`. The model checks the buffer's length and which channel slot each sample goes to.

Modules, one per source component:

- `FrequencyTest` (`frequency_test.dfy`): class `FrequencySweep`, plus the pure sweep specification `LowestHeard` / `Optimal` over the accepted answers.
- `LeftRightTest` (`left_right_test.dfy`): class `StereoTrials`, plus the score specification `Correct`.
- `Results` (`results.dfy`): the result screen as pure functions over a record of the Intent extras.
- Helpers:
  - `Audio`: the `Short` type, the frame count and the waveform parameter.
  - `Decimal`: `Integer.toString` and its inverse.
  - `Wrappers`: `Option`.
  - `Sequences`: one fact about sequence prefixes.

Each activity class keeps the source's fields, plus ghost fields for the answers accepted since `startTest`. Its `Valid()` ties the fields to the pure specification. Its methods state the new state field by field. The properties are lemmas about the specification functions.

Details of the source the model keeps as they are:

- An answer given while no test is running is ignored: `handleResponse` and `handleAnswer` return at once (`FrequencyTestActivity.java:212`, `LeftRightTestActivity.java:205`). The model makes these calls no-ops.
- `startTest` checks no state. Called during a run, it resets every field and starts over (`FrequencyTestActivity.java:154-163`, `LeftRightTestActivity.java:145-151`). The model's `StartTest` does the same.
- The `switch` in `handleResponse` (`FrequencyTestActivity.java:215-231`) has no `default` case, so a response code other than 1 or 2 acts like "cannot hear". The model takes the code as an `int`.

## Model

| member | source | states |
|---|---|---|
| FrequencyTest.FrequenciesDescend | app/src/main/java/com/commo/hearingtest/FrequencyTestActivity.java:37 | the test frequencies are positive and never rise along the sweep |
| FrequencyTest.FirstQualifying | app/src/main/java/com/commo/hearingtest/FrequencyTestActivity.java:215-231 | the step it returns is the first whose answer qualifies (heard, or heard clearly); no earlier answer qualifies; the number of answers means none does |
| FrequencyTest.MetricAppend | app/src/main/java/com/commo/hearingtest/FrequencyTestActivity.java:216-231 | one more answer sets a metric only while it is -1 and the answer qualifies, and then to the frequency of the step answered; otherwise the metric keeps its value (set once) |
| FrequencyTest.MetricIsFirstQualifyingFrequency | app/src/main/java/com/commo/hearingtest/FrequencyTestActivity.java:219-231 | a metric is set iff some answer qualifies, and then it is the frequency of the first qualifying step |
| FrequencyTest.OptimalAtMostLowestHeard | app/src/main/java/com/commo/hearingtest/FrequencyTestActivity.java:219-231 | if the optimal frequency is set, so is the lowest heard one, and optimal <= lowest heard |
| FrequencyTest.NothingHeard | app/src/main/java/com/commo/hearingtest/FrequencyTestActivity.java:211-236 | a sweep without a faint or clear answer leaves both metrics at -1 and falls in the check-up bucket |
| FrequencyTest.ExampleSweep | app/src/main/java/com/commo/hearingtest/FrequencyTestActivity.java:211-236 | answers 0,0,1,2,0,0,0,0 give lowest heard 4000 Hz and optimal 2000 Hz |
| FrequencyTest.Classify | app/src/main/java/com/commo/hearingtest/FrequencyTestActivity.java:269-277 | exactly one of four buckets, by lowest heard >= 4000, >= 2000, >= 1000, else; -1 falls in the last |
| FrequencyTest.ClassifySweep | app/src/main/java/com/commo/hearingtest/FrequencyTestActivity.java:269-277 | over a sweep, the bucket is fixed by the step of the first heard answer: steps 0-2, step 3, step 4, later or never |
| FrequencyTest.AnalyzeResults | app/src/main/java/com/commo/hearingtest/FrequencyTestActivity.java:253-280 | the analysis text is exactly the optimal-frequency line, then the lowest-heard line, then the text of the lowest heard frequency's bucket (each part at its place, and nothing else) |
| FrequencyTest.GenerateTone | app/src/main/java/com/commo/hearingtest/FrequencyTestActivity.java:192-209 | the buffer has `2 * (duration * sampleRate / 1000)` slots; slot k holds sample k/2; the left and right slots of every frame are equal |
| FrequencyTest.FrequencySweep.constructor | app/src/main/java/com/commo/hearingtest/FrequencyTestActivity.java:35-40 | initial fields: not running, current frequency 0, index 0, both metrics -1 |
| FrequencyTest.FrequencySweep.StartTest | app/src/main/java/com/commo/hearingtest/FrequencyTestActivity.java:154-163 | running, index 0, current frequency 8000, both metrics -1, no answers yet |
| FrequencyTest.FrequencySweep.NextFrequency | app/src/main/java/com/commo/hearingtest/FrequencyTestActivity.java:165-177 | inside the list, moves the current frequency to the index; past the end, finishes the test and keeps the last frequency |
| FrequencyTest.FrequencySweep.HandleResponse | app/src/main/java/com/commo/hearingtest/FrequencyTestActivity.java:211-236 | not running: nothing changes. Running: the index grows by exactly one. The test stops exactly when the index reaches 8. Answer 0 changes no metric, answer 1 changes only the lowest heard one. A set metric is never overwritten. A newly set metric is the frequency at the index answered |
| FrequencyTest.FrequencySweep.RecordResponse | app/src/main/java/com/commo/hearingtest/FrequencyTestActivity.java:215-234 | appends the answer, advances the index by one, and sets each still-unset metric to the current frequency when the answer qualifies for it |
| FrequencyTest.FrequencySweep.FinishTest | app/src/main/java/com/commo/hearingtest/FrequencyTestActivity.java:238-251 | stops the test and hands over the test type, both metrics and their analysis |
| FrequencyTest.FrequencySweep.PlayCurrentFrequency | app/src/main/java/com/commo/hearingtest/FrequencyTestActivity.java:179-190 | the buffer played is a 2000 ms tone at 44100 Hz (176400 slots) at the current frequency on both channels |
| FrequencyTest.RunSweep | app/src/main/java/com/commo/hearingtest/FrequencyTestActivity.java:211-236 | after `startTest` and any answers: only the first eight are accepted; the test runs iff fewer than eight came; the sweep's own index is then the number accepted, never more than 8; the metrics are those of the accepted answers |
| FrequencyTest.IgnoreResponses | app/src/main/java/com/commo/hearingtest/FrequencyTestActivity.java:212 | any number of answers to a stopped sweep leave its whole state unchanged |
| FrequencyTest.ReportDisplay | app/src/main/java/com/commo/hearingtest/FrequencyTestActivity.java:244-248 | a finished sweep's report shows as a frequency body with its metrics and its analysis, and retake opens the frequency test |
| LeftRightTest.Correct | app/src/main/java/com/commo/hearingtest/LeftRightTestActivity.java:207-209 | the score never exceeds the number of answers |
| LeftRightTest.CorrectAppend | app/src/main/java/com/commo/hearingtest/LeftRightTestActivity.java:207-209 | one more trial raises the score by exactly one iff its answer names the side played, else leaves it |
| LeftRightTest.CorrectExtremes | app/src/main/java/com/commo/hearingtest/LeftRightTestActivity.java:207-209 | full score iff every answer is right; zero iff every answer is wrong |
| LeftRightTest.Accuracy | app/src/main/java/com/commo/hearingtest/LeftRightTestActivity.java:216 | accuracy times total equals 100 times correct, and lies in [0, 100] when 0 <= correct <= total |
| LeftRightTest.FiveTrialBuckets | app/src/main/java/com/commo/hearingtest/TestResultActivity.java:63-69 | with five trials: >= 4 right is excellent, 3 is average, <= 2 is difficulty |
| LeftRightTest.ExampleTrials | app/src/main/java/com/commo/hearingtest/LeftRightTestActivity.java:204-216 | pans L,R,L,L,R with answers L,L,L,R,R score 3, accuracy 60, bucket average |
| LeftRightTest.GenerateTone | app/src/main/java/com/commo/hearingtest/LeftRightTestActivity.java:180-202 | the buffer has `2 * (duration * sampleRate / 1000)` slots; the panned side's slot of frame i holds sample i; left pan silences every odd (right) slot, right pan every even (left) slot |
| LeftRightTest.StereoTrials.constructor | app/src/main/java/com/commo/hearingtest/LeftRightTestActivity.java:35-40 | initial fields: not running, trial 0, score 0, current side right (`false`) |
| LeftRightTest.StereoTrials.StartTest | app/src/main/java/com/commo/hearingtest/LeftRightTestActivity.java:145-151 | running, score 0, trial 1 on the drawn side |
| LeftRightTest.StereoTrials.NextTest | app/src/main/java/com/commo/hearingtest/LeftRightTestActivity.java:153-164 | before the fifth trial, begins the next trial on the drawn side; after it, finishes with the trial number left at 5 and the last side kept |
| LeftRightTest.StereoTrials.HandleAnswer | app/src/main/java/com/commo/hearingtest/LeftRightTestActivity.java:204-212 | not running: nothing changes. Running: the score grows by one iff the answer names the side played. The counters only increase. After the fifth answer the test stops at trial 5. `0 <= correct <= trial <= 5` holds throughout |
| LeftRightTest.StereoTrials.FinishTest | app/src/main/java/com/commo/hearingtest/LeftRightTestActivity.java:214-225 | stops the test and hands over the test type, `100 * correct / 5`, the score and the total |
| LeftRightTest.StereoTrials.PlayTestSound | app/src/main/java/com/commo/hearingtest/LeftRightTestActivity.java:166-178 | the buffer played is a 1000 ms, 1 kHz tone at 44100 Hz (88200 slots) on the current trial's side only |
| LeftRightTest.RunTrials | app/src/main/java/com/commo/hearingtest/LeftRightTestActivity.java:145-164 | after `startTest` and any answers: only the first five are accepted; the test runs iff fewer than five came; the score counts the right ones among them |
| LeftRightTest.IgnoreAnswers | app/src/main/java/com/commo/hearingtest/LeftRightTestActivity.java:205 | any number of answers to a stopped test leave its whole state unchanged |
| LeftRightTest.ReportDisplay | app/src/main/java/com/commo/hearingtest/LeftRightTestActivity.java:218-222 | a finished test's report shows its accuracy, score and the bucket of its score, and retake opens the left/right test |
| Results.TestTypeName | app/src/main/java/com/commo/hearingtest/TestResultActivity.java:41-43 | a missing test type is shown as the default name, a present one as itself |
| Results.DisplayResults | app/src/main/java/com/commo/hearingtest/TestResultActivity.java:37-52 | the title is the (defaulted) test type plus " 결과". The left/right body appears iff the type is the left/right name, the frequency body iff it is the frequency name. Any other type, a missing one included, shows the header only |
| Results.ClassifyAccuracy | app/src/main/java/com/commo/hearingtest/TestResultActivity.java:62-69 | exactly one of three buckets: accuracy >= 80, 60 <= accuracy < 80, or < 60 |
| Results.DiscriminationTextInjective | app/src/main/java/com/commo/hearingtest/TestResultActivity.java:62-71 | the three analysis texts are distinct |
| Results.LeftRightAnalysisNamesBucket | app/src/main/java/com/commo/hearingtest/TestResultActivity.java:62-71 | on a left/right screen the analysis shown is the text of a bucket iff that bucket is the one of the accuracy handed over (0 when missing) |
| Results.LeftRightResults | app/src/main/java/com/commo/hearingtest/TestResultActivity.java:54-72 | a missing accuracy shows as 0 with the "difficulty" analysis; a present one shows as itself with its bucket's analysis; missing score and total show as 0 |
| Results.FrequencyResultsText | app/src/main/java/com/commo/hearingtest/TestResultActivity.java:79-89 | the text is the "no frequency measured" fallback iff both metrics are -1. Otherwise it starts with the optimal line when that metric is set and ends with the lowest line when that one is set, and holds nothing else |
| Results.FrequencyResults | app/src/main/java/com/commo/hearingtest/TestResultActivity.java:74-93 | the results are the "no frequency measured" text iff each metric is missing or -1 (missing extras default to -1); a set optimal metric starts the text with its line, a set lowest metric ends it with its line; the results are the text of the two metrics with missing ones read as -1, so they hold nothing but the lines of the set metrics; the analysis is the one handed over or the fallback |
| Results.AnalysisOrFallback | app/src/main/java/com/commo/hearingtest/TestResultActivity.java:92 | a missing analysis is replaced by the fixed fallback text |
| Results.RetakeTarget | app/src/main/java/com/commo/hearingtest/TestResultActivity.java:115-126 | left/right test iff the test type is the left/right name; every other value, a missing one included, opens the frequency test |
| Results.RetakeMatchesDisplay | app/src/main/java/com/commo/hearingtest/TestResultActivity.java:47-51 | retake opens the left/right test exactly when the screen shows a left/right body |
| Decimal.ParseIntToString | app/src/main/java/com/commo/hearingtest/TestResultActivity.java:81-84 | the decimal text appended for a frequency reads back as that frequency |
| Decimal.IntToStringInjective | app/src/main/java/com/commo/hearingtest/TestResultActivity.java:81-84 | distinct frequencies are printed differently |

## Left out

- `MainActivity`: only screen navigation. The back-to-main button of the result screen is left out for the same reason.
- Android lifecycle and permissions are platform callbacks: `onCreate`, `onRequestPermissionsResult`, the permission checks and `onDestroy`.
- Audio device I/O is external: `initializeAudio` and `AudioTrack.write`/`play`/`stop`/`release`. This includes the `audioTrack == null` early return. `PlayCurrentFrequency` and `PlayTestSound` return the buffer that would be written. `NextFrequency` and `NextTest` do not play it.
- UI rendering: `updateUI`, `initializeViews`, `setupClickListeners`, and every `setText`/`setVisibility` call.
- Sample values are floating point. The model leaves out the `Math.sin` phase accumulation, the 40% and 30% volume factors and the `(short)` cast. Each generator takes the per-frame sample as an arbitrary function (`Waveform`) and proves only the length and the channel slots. The amplitude bound on samples is not modelled.
- `java.util.Random`: the side of each trial is a boolean parameter of `StartTest` and `HandleAnswer`.
- The accuracy is a rational, not a `double`. For five trials the double values `c/5*100` are exactly 0, 20, 40, 60, 80 and 100, so the thresholds decide the same way.
- The `%.1f%%` / `%d/%d` formatting of the left/right results line: the body carries the three numbers unformatted.
- Intents: the extras are a plain record (`Results.Extras`). Each activity's `report` field holds what `finishTest` hands over. The `finish()` of the activity is not modelled.
- FrequencyTest.GenerateTone, LeftRightTest.GenerateTone: require `duration * sampleRate` to fit in a Java `int`. Negative durations are not covered. Every call site passes the fixed 2000 or 1000 ms and 44100 Hz.
- `testFrequencies` is an `int[]` field that is never written. It is modelled as the constant sequence `TEST_FREQUENCIES`, and `totalTests` as a constant field.
