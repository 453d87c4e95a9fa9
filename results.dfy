/**
 * The result screen (`TestResultActivity`): what it shows for the extras a
 * test screen hands over, and which test "retake" starts.
 */
module Results {
  import opened Wrappers
  import opened Decimal

  /** The test-type names the two test screens put in the `test_type` extra. */
  const LEFT_RIGHT_TEST: string := "좌우 청력 테스트"
  const FREQUENCY_TEST: string := "주파수 감도 테스트"
  /** The name shown when `test_type` is missing. */
  const DEFAULT_TEST_TYPE: string := "테스트"
  const TITLE_SUFFIX: string := " 결과"

  // Long texts are written line by line: the verifier can look into a short
  // string literal but not into a long one.

  /** The "not measured" marker for a frequency. */
  const UNSET: int := -1

  const NO_FREQUENCY_TEXT: string := "측정된 주파수가 없습니다.\n" + "볼륨을 높이고 다시 시도해보세요."
  const NO_ANALYSIS_TEXT: string := "추가 분석 정보가 없습니다."

  const EXCELLENT_TEXT: string := 
    "우수한 좌우 청력 분별능력을 보여줍니다.\n"
    + "좌우 귀의 청력이 균형적으로 잘 작동하고 있습니다."
  const AVERAGE_TEXT: string := 
    "보통 수준의 좌우 청력 분별능력입니다.\n"
    + "좀 더 집중해서 다시 테스트해보시거나\n"
    + "헤드폰/이어폰 상태를 확인해보세요."
  const DIFFICULTY_TEXT: string := 
    "좌우 청력 분별에 어려움이 있을 수 있습니다.\n"
    + "조용한 환경에서 다시 테스트하거나\n"
    + "청력 전문의 상담을 권장합니다."

  /**
   * The extras of the Intent that opens the result screen; `None` is an extra
   * that was not put. The accuracy is a `double` in the source and a
   * rational here.
   */
  datatype Extras = Extras(
    testType: Option<string>,
    accuracy: Option<real>,
    correctAnswers: Option<int>,
    totalTests: Option<int>,
    optimalFrequency: Option<int>,
    lowestFrequency: Option<int>,
    analysis: Option<string>)

  /** What the frequency test's `finishTest` puts. */
  function FrequencyExtras(optimal: int, lowest: int, analysis: string): Extras {
    Extras(Some(FREQUENCY_TEST), None, None, None, Some(optimal), Some(lowest), Some(analysis))
  }

  /** What the left/right test's `finishTest` puts. */
  function LeftRightExtras(accuracy: real, correct: int, total: int): Extras {
    Extras(Some(LEFT_RIGHT_TEST), Some(accuracy), Some(correct), Some(total), None, None, None)
  }

  /** The three analysis texts of the left/right test. */
  datatype Discrimination = Excellent | Average | Difficulty

  /** The numbers the left/right results line formats with `%.1f%%` and `%d/%d`. */
  datatype LeftRightSummary = LeftRightSummary(accuracy: real, correct: int, total: int)

  /** What the screen shows below its title. */
  datatype Body =
    | HeaderOnly
    | LeftRightBody(summary: LeftRightSummary, analysis: string)
    | FrequencyBody(results: string, analysis: string)

  datatype Screen = Screen(title: string, body: Body)

  /** The test screens "retake" can open. */
  datatype TestScreen = LeftRightTestScreen | FrequencyTestScreen

  /** A missing test type is shown under the default name. */
  function TestTypeName(testType: Option<string>): (name: string)
    ensures testType.None? ==> name == DEFAULT_TEST_TYPE
    ensures testType.Some? ==> name == testType.value
  {
    testType.GetOr(DEFAULT_TEST_TYPE)
  }

  /** Thresholds 80 and 60 on the accuracy in percent. */
  function ClassifyAccuracy(accuracy: real): (d: Discrimination)
    ensures d == Excellent <==> 80.0 <= accuracy
    ensures d == Average <==> 60.0 <= accuracy < 80.0
    ensures d == Difficulty <==> accuracy < 60.0
  {
    if accuracy >= 80.0 then Excellent
    else if accuracy >= 60.0 then Average
    else Difficulty
  }

  function DiscriminationText(d: Discrimination): string {
    match d
    case Excellent => EXCELLENT_TEXT
    case Average => AVERAGE_TEXT
    case Difficulty => DIFFICULTY_TEXT
  }

  /** The three analysis texts are distinct, so the text shown names the bucket. */
  lemma DiscriminationTextInjective(d: Discrimination, e: Discrimination)
    requires DiscriminationText(d) == DiscriminationText(e)
    ensures d == e
  {
    assert EXCELLENT_TEXT[0] == '우' && AVERAGE_TEXT[0] == '보' && DIFFICULTY_TEXT[0] == '좌';
  }

  /**
   * On a left/right result screen the analysis shown names exactly one
   * bucket: the one of the accuracy handed over (0 when missing).
   */
  lemma LeftRightAnalysisNamesBucket(x: Extras, d: Discrimination)
    requires x.testType == Some(LEFT_RIGHT_TEST)
    ensures DisplayResults(x).body.analysis == DiscriminationText(d) <==> d == ClassifyAccuracy(x.accuracy.GetOr(0.0))
  {
    if DisplayResults(x).body.analysis == DiscriminationText(d) {
      DiscriminationTextInjective(d, ClassifyAccuracy(x.accuracy.GetOr(0.0)));
    }
  }

  /** `displayLeftRightResults`: the extras' numbers (defaults 0) and the analysis. */
  function LeftRightResults(x: Extras): (b: Body)
    ensures b.LeftRightBody?
    ensures x.accuracy.None? ==> b.summary.accuracy == 0.0 && b.analysis == DIFFICULTY_TEXT
    ensures x.accuracy.Some? ==>
      b.summary.accuracy == x.accuracy.value && b.analysis == DiscriminationText(ClassifyAccuracy(x.accuracy.value))
    ensures b.summary.correct == (if x.correctAnswers.Some? then x.correctAnswers.value else 0)
    ensures b.summary.total == (if x.totalTests.Some? then x.totalTests.value else 0)
  {
    var accuracy := x.accuracy.GetOr(0.0);
    LeftRightBody(
      LeftRightSummary(accuracy, x.correctAnswers.GetOr(0), x.totalTests.GetOr(0)),
      DiscriminationText(ClassifyAccuracy(accuracy)))
  }

  predicate StartsWith(s: string, prefix: string) {
    |prefix| <= |s| && s[..|prefix|] == prefix
  }

  predicate EndsWith(s: string, suffix: string) {
    |suffix| <= |s| && s[|s| - |suffix|..] == suffix
  }

  function OptimalLine(optimal: int): string {
    "최적 청취 주파수: " + IntToString(optimal) + "Hz\n"
  }

  function LowestLine(lowest: int): string {
    "최저 감지 주파수: " + IntToString(lowest) + "Hz"
  }

  /**
   * The results text of `displayFrequencyResults`: a line for each frequency
   * that is set, or the "no frequency measured" text when neither is.
   */
  function FrequencyResultsText(optimal: int, lowest: int): (r: string)
    ensures r == NO_FREQUENCY_TEXT <==> optimal == UNSET && lowest == UNSET
    ensures optimal != UNSET ==> StartsWith(r, OptimalLine(optimal))
    ensures lowest != UNSET ==> EndsWith(r, LowestLine(lowest))
    ensures optimal != UNSET || lowest != UNSET ==>
      |r| == (if optimal != UNSET then |OptimalLine(optimal)| else 0)
           + (if lowest != UNSET then |LowestLine(lowest)| else 0)
  {
    var results :=
      (if optimal != UNSET then OptimalLine(optimal) else "")
      + (if lowest != UNSET then LowestLine(lowest) else "");
    assert results != [] ==> results[0] == '최' && NO_FREQUENCY_TEXT[0] == '측';
    if |results| == 0 then NO_FREQUENCY_TEXT else results
  }

  /** A missing analysis is replaced by the fixed fallback text. */
  function AnalysisOrFallback(analysis: Option<string>): (r: string)
    ensures analysis.Some? ==> r == analysis.value
    ensures analysis.None? ==> r == NO_ANALYSIS_TEXT
  {
    analysis.GetOr(NO_ANALYSIS_TEXT)
  }

  /** `displayFrequencyResults`: frequencies default to unset, the analysis to the fallback. */
  function FrequencyResults(x: Extras): (b: Body)
    ensures b.FrequencyBody?
    ensures b.results == NO_FREQUENCY_TEXT <==>
      x.optimalFrequency in {None, Some(UNSET)} && x.lowestFrequency in {None, Some(UNSET)}
    ensures x.optimalFrequency.Some? && x.optimalFrequency.value != UNSET ==>
      StartsWith(b.results, OptimalLine(x.optimalFrequency.value))
    ensures x.lowestFrequency.Some? && x.lowestFrequency.value != UNSET ==>
      EndsWith(b.results, LowestLine(x.lowestFrequency.value))
    ensures b.results == FrequencyResultsText(x.optimalFrequency.GetOr(UNSET), x.lowestFrequency.GetOr(UNSET))
    ensures b.analysis == AnalysisOrFallback(x.analysis)
  {
    FrequencyBody(
      FrequencyResultsText(x.optimalFrequency.GetOr(UNSET), x.lowestFrequency.GetOr(UNSET)),
      AnalysisOrFallback(x.analysis))
  }

  /**
   * `displayResults`: the title is the test type (or the default) followed by
   * " 결과"; only the two known test types get a body.
   */
  function DisplayResults(x: Extras): (s: Screen)
    ensures s.title == TestTypeName(x.testType) + TITLE_SUFFIX
    ensures s.body.LeftRightBody? <==> x.testType == Some(LEFT_RIGHT_TEST)
    ensures s.body.FrequencyBody? <==> x.testType == Some(FREQUENCY_TEST)
    ensures s.body.HeaderOnly? <==> x.testType != Some(LEFT_RIGHT_TEST) && x.testType != Some(FREQUENCY_TEST)
    ensures s.body.LeftRightBody? ==> s.body == LeftRightResults(x)
    ensures s.body.FrequencyBody? ==> s.body == FrequencyResults(x)
  {
    var testType := TestTypeName(x.testType);
    assert DEFAULT_TEST_TYPE != LEFT_RIGHT_TEST && DEFAULT_TEST_TYPE != FREQUENCY_TEST by {
      assert |DEFAULT_TEST_TYPE| == 3 && |LEFT_RIGHT_TEST| == 9 && |FREQUENCY_TEST| == 10;
    }
    var body :=
      if testType == LEFT_RIGHT_TEST then LeftRightResults(x)
      else if testType == FREQUENCY_TEST then FrequencyResults(x)
      else HeaderOnly;
    Screen(testType + TITLE_SUFFIX, body)
  }

  /**
   * The retake button: the left/right test when the test type is its name,
   * the frequency test for every other value, a missing one included.
   */
  function RetakeTarget(testType: Option<string>): (t: TestScreen)
    ensures t == LeftRightTestScreen <==> testType == Some(LEFT_RIGHT_TEST)
    ensures t == FrequencyTestScreen <==> testType != Some(LEFT_RIGHT_TEST)
  {
    var name := testType.GetOr("");
    assert "" != LEFT_RIGHT_TEST;
    if name == LEFT_RIGHT_TEST then LeftRightTestScreen else FrequencyTestScreen
  }

  /** The retake target agrees with the body shown: a left/right body iff the left/right test. */
  lemma RetakeMatchesDisplay(x: Extras)
    ensures RetakeTarget(x.testType) == LeftRightTestScreen <==> DisplayResults(x).body.LeftRightBody?
    ensures DisplayResults(x).body.FrequencyBody? ==> RetakeTarget(x.testType) == FrequencyTestScreen
  {
  }
}
