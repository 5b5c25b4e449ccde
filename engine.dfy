/** `CourseRecommendationEngine` (backend/recommendation_algorithm.py): the
    weighted confidence of each catalog course for a student, the explanation
    shown with it, and the ranked, truncated list the engine prints. */
module Engine {
  import opened Common
  import opened Scoring
  import opened Catalog
  import opened Ranking

  /** The engine's fields, set once by its constructor. */
  datatype Engine = Engine(weights: Weights, catalog: seq<Course>, majorRequirements: map<string, seq<string>>)

  /** The constructor: the given weights or the defaults, the catalog read from
      `courses.json` (`None` when the file is absent or fails to load) or the
      built-in one, and the fixed major table. */
  function NewEngine(weights: Option<Weights>, catalogFile: Option<seq<Course>>): (e: Engine)
    ensures weights.None? ==> e.weights == Weights(0.25, 0.20, 0.15, 0.20, 0.20)
    ensures weights.Some? ==> e.weights == weights.value
    ensures catalogFile.None? ==> e.catalog == BuiltinCatalog
    ensures catalogFile.Some? ==> e.catalog == catalogFile.value
    ensures e.majorRequirements == MajorRequirements
  {
    Engine(weights.GetOr(DefaultWeights), catalogFile.GetOr(BuiltinCatalog), MajorRequirements)
  }

  datatype SubScores = SubScores(career: real, learning: real, workload: real, difficulty: real)

  predicate InUnitRange(sc: SubScores)
  {
    && 0.0 <= sc.career <= 1.0 && 0.0 <= sc.learning <= 1.0
    && 0.0 <= sc.workload <= 1.0 && 0.0 <= sc.difficulty <= 1.0
  }

  /** The four signals of one course for one student. */
  function SubScoresOf(s: Student, c: Course): (sc: SubScores)
    ensures InUnitRange(sc)
  {
    SubScores(
      CareerScore(s.careerInterests, c.careerRelevance),
      LearningScore(s.learningStyle, c.learningStyles),
      WorkloadScore(s.studyHours, WorkloadHoursOf(c)),
      DifficultyScore(s.gpa, DifficultyOf(c)))
  }

  const MajorBonus: real := 1.3

  /** The weighted sum; the major signal is 1.0 for a required course, 0.5 otherwise.
      With non-negative weights and signals in [0, 1] it lies between 0 and the
      sum of the weights. */
  function BaseScore(w: Weights, sc: SubScores, majorReq: bool): (r: real)
    ensures NonNegative(w) && InUnitRange(sc) ==>
      0.0 <= r <= w.career + w.learning + w.workload + w.difficulty + w.major
  {
    var m := if majorReq then 1.0 else 0.5;
    var total := sc.career * w.career + sc.learning * w.learning + sc.workload * w.workload
      + sc.difficulty * w.difficulty + m * w.major;
    if NonNegative(w) && InUnitRange(sc) then
      WeightedSumBounded(w, sc, m);
      total
    else
      total
  }

  lemma WeightedSumBounded(w: Weights, sc: SubScores, m: real)
    requires NonNegative(w) && InUnitRange(sc) && 0.0 <= m <= 1.0
    ensures 0.0 <= sc.career * w.career + sc.learning * w.learning + sc.workload * w.workload
      + sc.difficulty * w.difficulty + m * w.major
      <= w.career + w.learning + w.workload + w.difficulty + w.major
  {
    var career := ProductAtMost(sc.career, w.career);
    var learning := ProductAtMost(sc.learning, w.learning);
    var workload := ProductAtMost(sc.workload, w.workload);
    var difficulty := ProductAtMost(sc.difficulty, w.difficulty);
    var major := ProductAtMost(m, w.major);
    SumBounded(career, learning, workload, difficulty, major, w);
  }

  lemma SumBounded(career: real, learning: real, workload: real, difficulty: real, major: real, w: Weights)
    requires 0.0 <= career <= w.career && 0.0 <= learning <= w.learning && 0.0 <= workload <= w.workload
    requires 0.0 <= difficulty <= w.difficulty && 0.0 <= major <= w.major
    ensures 0.0 <= career + learning + workload + difficulty + major
      <= w.career + w.learning + w.workload + w.difficulty + w.major
  {
  }

  /** A weight scaled by a signal in [0, 1] stays between 0 and the weight. */
  lemma ProductAtMost(a: real, b: real) returns (p: real)
    requires 0.0 <= a <= 1.0 && 0.0 <= b
    ensures p == a * b && 0.0 <= p <= b
  {
    p := a * b;
    ProductNonNegative(a, b);
    ProductNonNegative(1.0 - a, b);
    assert b - p == (1.0 - a) * b;
  }

  /** `max(0.0, min(x, 100.0))` */
  function Clamp(x: real): (r: real)
    ensures 0.0 <= r <= 100.0
    ensures 0.0 <= x <= 100.0 ==> r == x
    ensures x < 0.0 ==> r == 0.0
    ensures x > 100.0 ==> r == 100.0
  {
    MaxReal(0.0, MinReal(x, 100.0))
  }

  /** `round(x, 2)` on exact reals: the nearest hundredth, halves rounded up. */
  function Round2(x: real): (r: real)
    ensures 0.0 <= x ==> 0.0 <= r
    ensures x <= 100.0 ==> r <= 100.0
    ensures x - 0.005 < r <= x + 0.005
  {
    (x * 100.0 + 0.5).Floor as real / 100.0
  }

  lemma Round2Monotone(x: real, y: real)
    requires x <= y
    ensures Round2(x) <= Round2(y)
  {
    assert (x * 100.0 + 0.5).Floor <= (y * 100.0 + 0.5).Floor;
  }

  /** The confidence of a course: weighted sum, times 1.3 for a major
      requirement, scaled to a percentage, clamped and rounded. */
  function Confidence(w: Weights, sc: SubScores, majorReq: bool): (r: real)
    ensures 0.0 <= r <= 100.0
  {
    Round2(Clamp(BaseScore(w, sc, majorReq) * (if majorReq then MajorBonus else 1.0) * 100.0))
  }

  predicate NonNegative(w: Weights)
  {
    w.career >= 0.0 && w.learning >= 0.0 && w.workload >= 0.0 && w.difficulty >= 0.0 && w.major >= 0.0
  }

  /** With non-negative weights, being a major requirement never lowers a
      course's confidence: the major signal rises and the 1.3 bonus applies. */
  lemma MajorRequirementNeverLowers(w: Weights, sc: SubScores)
    requires NonNegative(w) && InUnitRange(sc)
    ensures Confidence(w, sc, true) >= Confidence(w, sc, false)
  {
    var plain := BaseScore(w, sc, false);
    var required := BaseScore(w, sc, true);
    BaseScoreGrows(w, sc);
    BonusGrows(plain, required);
    ClampMonotone(plain * 1.0 * 100.0, required * MajorBonus * 100.0);
    Round2Monotone(Clamp(plain * 1.0 * 100.0), Clamp(required * MajorBonus * 100.0));
  }

  /** The major signal is the only term that changes, from 0.5 to 1.0. */
  lemma BaseScoreGrows(w: Weights, sc: SubScores)
    requires NonNegative(w) && InUnitRange(sc)
    ensures 0.0 <= BaseScore(w, sc, false) <= BaseScore(w, sc, true)
  {
    ProductNonNegative(sc.career, w.career);
    ProductNonNegative(sc.learning, w.learning);
    ProductNonNegative(sc.workload, w.workload);
    ProductNonNegative(sc.difficulty, w.difficulty);
    ProductNonNegative(0.5, w.major);
  }

  lemma BonusGrows(plain: real, required: real)
    requires 0.0 <= plain <= required
    ensures plain * 1.0 * 100.0 <= required * MajorBonus * 100.0
  {
  }

  lemma ClampMonotone(x: real, y: real)
    requires x <= y
    ensures Clamp(x) <= Clamp(y)
  {
  }

  lemma ProductNonNegative(a: real, b: real)
    requires 0.0 <= a && 0.0 <= b
    ensures 0.0 <= a * b
  {
  }

  // ---------------------------------------------------------------------------
  // Reasoning
  // ---------------------------------------------------------------------------

  const Bullet: string := " \U{2022} "
  const GeneralEducation: string := "General education requirement"

  /** The reasons `_generate_reasoning` can give, each shown by its phrase. */
  datatype Reason =
    | RequiredForMajor(major: string)
    | StrongCareer
    | RelevantCareer
    | StyleMatch
    | WorkloadFits
    | WorkloadHeavy
    | LevelMatch
    | ExtraEffort
    | Foundational

  function MajorReason(major: string): string
  {
    "Required for " + major + " major"
  }

  /** The text of a reason. The third letters tell the phrases apart from the
      general-education text ("Gen…") and the major reason ("Req…") from the rest. */
  const StrongCareerText: string := "Strong alignment with your career interests"
  const RelevantCareerText: string := "Relevant to your career goals"
  const StyleMatchText: string := "Matches your learning style perfectly"
  const WorkloadFitsText: string := "Workload fits your study schedule"
  const WorkloadHeavyText: string := "Challenging workload - plan accordingly"
  const LevelMatchText: string := "Good match for your academic level"
  const ExtraEffortText: string := "May require extra effort based on your GPA"
  const FoundationalText: string := "Great foundational course for freshmen"

  function Phrase(r: Reason): string
  {
    match r
    case RequiredForMajor(major) => MajorReason(major)
    case StrongCareer => StrongCareerText
    case RelevantCareer => RelevantCareerText
    case StyleMatch => StyleMatchText
    case WorkloadFits => WorkloadFitsText
    case WorkloadHeavy => WorkloadHeavyText
    case LevelMatch => LevelMatchText
    case ExtraEffort => ExtraEffortText
    case Foundational => FoundationalText
  }

  /** The third letters tell the phrases apart from the general-education text
      ("Gen…") and the major reason ("Req…") from the rest. */
  lemma ThirdLetter(r: Reason)
    ensures |Phrase(r)| >= 3 && Phrase(r)[2] != 'n'
    ensures Phrase(r)[2] == 'q' <==> r.RequiredForMajor?
  {
    match r
    case RequiredForMajor(major) =>
      assert MajorReason(major)[2] == 'q';
    case StrongCareer => assert StrongCareerText[2] == 'r';
    case RelevantCareer => assert RelevantCareerText[2] == 'l';
    case StyleMatch => assert StyleMatchText[2] == 't';
    case WorkloadFits => assert WorkloadFitsText[2] == 'r';
    case WorkloadHeavy => assert WorkloadHeavyText[2] == 'a';
    case LevelMatch => assert LevelMatchText[2] == 'o';
    case ExtraEffort => assert ExtraEffortText[2] == 'y';
    case Foundational => assert FoundationalText[2] == 'e';
  }

  function Phrases(rs: seq<Reason>): (ps: seq<string>)
    ensures |ps| == |rs|
  {
    if |rs| == 0 then [] else [Phrase(rs[0])] + Phrases(rs[1..])
  }

  /** The reasons that fire, in the order `_generate_reasoning` appends them. */
  function Reasons(majorReq: bool, major: string, sc: SubScores, difficulty: int): seq<Reason>
  {
    (if majorReq then [RequiredForMajor(major)] else []) + OtherReasons(sc, difficulty)
  }

  /** At most six reasons fire; the major reason fires exactly for a major
      requirement, first and nowhere else; and none fires exactly in the
      middle bands. */
  lemma ReasonsShape(majorReq: bool, major: string, sc: SubScores, difficulty: int)
    ensures var rs := Reasons(majorReq, major, sc, difficulty);
      && |rs| <= 6
      && (majorReq ==> |rs| > 0 && rs[0] == RequiredForMajor(major))
      && (forall k :: 0 <= k < |rs| && rs[k].RequiredForMajor? ==> k == 0 && majorReq)
      && (rs == [] <==> !majorReq && sc.career <= 0.4 && sc.learning <= 0.8 && 0.5 <= sc.workload <= 0.8
                        && 0.6 <= sc.difficulty <= 0.8 && difficulty > 2)
  {
    var rest := OtherReasons(sc, difficulty);
    OtherReasonsShape(sc, difficulty);
    if majorReq {
      assert Reasons(majorReq, major, sc, difficulty) == [RequiredForMajor(major)] + rest;
    } else {
      assert Reasons(majorReq, major, sc, difficulty) == rest;
    }
  }

  /** The reasons, grouped in the order they are appended. */
  lemma ReasonsInOrder(majorReq: bool, major: string, sc: SubScores, difficulty: int)
    ensures Reasons(majorReq, major, sc, difficulty)
      == (if majorReq then [RequiredForMajor(major)] else []) + CareerReasons(sc.career)
         + StyleReasons(sc.learning) + WorkloadReasons(sc.workload) + LevelReasons(sc.difficulty)
         + FoundationReasons(difficulty)
  {
  }

  /** The reasons after the major one. */
  function OtherReasons(sc: SubScores, difficulty: int): seq<Reason>
  {
    CareerReasons(sc.career) + StyleReasons(sc.learning) + WorkloadReasons(sc.workload)
    + LevelReasons(sc.difficulty) + FoundationReasons(difficulty)
  }

  lemma OtherReasonsShape(sc: SubScores, difficulty: int)
    ensures var rs := OtherReasons(sc, difficulty);
      && |rs| <= 5
      && (forall k :: 0 <= k < |rs| ==> !rs[k].RequiredForMajor?)
      && (rs == [] <==> sc.career <= 0.4 && sc.learning <= 0.8 && 0.5 <= sc.workload <= 0.8
                        && 0.6 <= sc.difficulty <= 0.8 && difficulty > 2)
  {
    var career, style, workload := CareerReasons(sc.career), StyleReasons(sc.learning), WorkloadReasons(sc.workload);
    var level, foundation := LevelReasons(sc.difficulty), FoundationReasons(difficulty);
    var rs := OtherReasons(sc, difficulty);
    assert rs == career + style + workload + level + foundation;
    assert |career| <= 1 && |style| <= 1 && |workload| <= 1 && |level| <= 1 && |foundation| <= 1;
    assert NoMajorReason(career) && NoMajorReason(style) && NoMajorReason(workload);
    assert NoMajorReason(level) && NoMajorReason(foundation);
    NoMajorReasonAppend(career, style);
    NoMajorReasonAppend(career + style, workload);
    NoMajorReasonAppend(career + style + workload, level);
    NoMajorReasonAppend(career + style + workload + level, foundation);
    assert rs == [] <==> career == [] && style == [] && workload == [] && level == [] && foundation == [];
  }

  predicate NoMajorReason(rs: seq<Reason>)
  {
    forall k :: 0 <= k < |rs| ==> !rs[k].RequiredForMajor?
  }

  lemma NoMajorReasonAppend(a: seq<Reason>, b: seq<Reason>)
    requires NoMajorReason(a) && NoMajorReason(b)
    ensures NoMajorReason(a + b)
  {
    forall k | 0 <= k < |a + b| ensures !(a + b)[k].RequiredForMajor? {
      if k >= |a| { assert (a + b)[k] == b[k - |a|]; }
    }
  }

  function CareerReasons(career: real): seq<Reason>
  {
    if career > 0.7 then [StrongCareer] else if career > 0.4 then [RelevantCareer] else []
  }

  function StyleReasons(learning: real): seq<Reason>
  {
    if learning > 0.8 then [StyleMatch] else []
  }

  function WorkloadReasons(workload: real): seq<Reason>
  {
    if workload > 0.8 then [WorkloadFits] else if workload < 0.5 then [WorkloadHeavy] else []
  }

  function LevelReasons(difficultyScore: real): seq<Reason>
  {
    if difficultyScore > 0.8 then [LevelMatch] else if difficultyScore < 0.6 then [ExtraEffort] else []
  }

  function FoundationReasons(difficulty: int): seq<Reason>
  {
    if difficulty <= 2 then [Foundational] else []
  }

  /** The phrases joined by " \U{2022} ", or the general-education text when no
      reason fires. */
  function Reasoning(majorReq: bool, major: string, sc: SubScores, difficulty: int): (text: string)
    ensures text == GeneralEducation <==> Reasons(majorReq, major, sc, difficulty) == []
    ensures Reasons(majorReq, major, sc, difficulty) != [] ==>
      Phrase(Reasons(majorReq, major, sc, difficulty)[0]) <= text
  {
    var reasons := Reasons(majorReq, major, sc, difficulty);
    TextLeadsWithFirstPhrase(reasons);
    Text(reasons)
  }

  /** The text is the general-education one exactly for no reasons, and
      otherwise begins with the first phrase. */
  lemma TextLeadsWithFirstPhrase(reasons: seq<Reason>)
    ensures Text(reasons) == GeneralEducation <==> reasons == []
    ensures reasons != [] ==> Phrase(reasons[0]) <= Text(reasons)
  {
    if |reasons| > 0 {
      LeadingLetters(reasons);
      JoinStartsWithFirst(Phrases(reasons), Bullet);
      assert GeneralEducation[2] == 'n';
    }
  }

  function Text(reasons: seq<Reason>): string
  {
    if |reasons| == 0 then GeneralEducation else Join(Phrases(reasons), Bullet)
  }

  /** `_generate_reasoning`, appending reason by reason. */
  method GenerateReasoning(e: Engine, c: Course, major: string, sc: SubScores) returns (text: string)
    ensures text == Reasoning(IsMajorRequirement(c.code, major, e.majorRequirements), major, sc, DifficultyOf(c))
  {
    var majorReq := IsMajorRequirement(c.code, major, e.majorRequirements);
    var reasons: seq<Reason> := [];
    if majorReq {
      reasons := reasons + [RequiredForMajor(major)];
    }
    ghost var fired := if majorReq then [RequiredForMajor(major)] else [];
    assert reasons == fired;
    if sc.career > 0.7 {
      reasons := reasons + [StrongCareer];
    } else if sc.career > 0.4 {
      reasons := reasons + [RelevantCareer];
    }
    fired := fired + CareerReasons(sc.career);
    assert reasons == fired;
    if sc.learning > 0.8 {
      reasons := reasons + [StyleMatch];
    }
    fired := fired + StyleReasons(sc.learning);
    assert reasons == fired;
    if sc.workload > 0.8 {
      reasons := reasons + [WorkloadFits];
    } else if sc.workload < 0.5 {
      reasons := reasons + [WorkloadHeavy];
    }
    fired := fired + WorkloadReasons(sc.workload);
    assert reasons == fired;
    if sc.difficulty > 0.8 {
      reasons := reasons + [LevelMatch];
    } else if sc.difficulty < 0.6 {
      reasons := reasons + [ExtraEffort];
    }
    fired := fired + LevelReasons(sc.difficulty);
    assert reasons == fired;
    if DifficultyOf(c) <= 2 {
      reasons := reasons + [Foundational];
    }
    fired := fired + FoundationReasons(DifficultyOf(c));
    assert reasons == fired;
    ReasonsInOrder(majorReq, major, sc, DifficultyOf(c));
    text := Text(reasons);
  }

  /** The general-education text appears exactly when no reason fires. */
  lemma {:induction false} GeneralExactlyWhenNoReason(majorReq: bool, major: string, sc: SubScores, difficulty: int)
    ensures Reasoning(majorReq, major, sc, difficulty) == GeneralEducation
        <==> !majorReq && sc.career <= 0.4 && sc.learning <= 0.8 && 0.5 <= sc.workload <= 0.8
             && 0.6 <= sc.difficulty <= 0.8 && difficulty > 2
  {
    var reasons := Reasons(majorReq, major, sc, difficulty);
    if |reasons| > 0 {
      LeadingLetters(reasons);
      assert GeneralEducation[2] == 'n';
    }
  }

  /** The joined text begins with the first phrase, and so with its letters. */
  lemma LeadingLetters(reasons: seq<Reason>)
    requires |reasons| > 0
    ensures Phrase(reasons[0]) <= Text(reasons)
    ensures |Text(reasons)| >= 3 && Text(reasons)[2] == Phrase(reasons[0])[2]
  {
    var phrases := Phrases(reasons);
    assert phrases[0] == Phrase(reasons[0]);
    ThirdLetter(reasons[0]);
    JoinStartsWithFirst(phrases, Bullet);
    var first := phrases[0];
    var text := Join(phrases, Bullet);
    assert text[..|first|][2] == first[2];
  }

  /** "Required for {major} major" leads the reasoning exactly for a major requirement. */
  lemma {:induction false} MajorReasonLeadsExactlyForRequirements(majorReq: bool, major: string, sc: SubScores, difficulty: int)
    ensures MajorReason(major) <= Reasoning(majorReq, major, sc, difficulty) <==> majorReq
  {
    var reasons := Reasons(majorReq, major, sc, difficulty);
    var text := Reasoning(majorReq, major, sc, difficulty);
    var lead := MajorReason(major);
    assert lead[2] == 'q';
    if |reasons| == 0 {
      assert text == GeneralEducation;
      assert text[2] == 'n';
    } else if majorReq {
      ReasonsShape(majorReq, major, sc, difficulty);
      var phrases := Phrases(reasons);
      assert phrases[0] == lead;
      JoinStartsWithFirst(phrases, Bullet);
    } else {
      ReasonsShape(majorReq, major, sc, difficulty);
      LeadingLetters(reasons);
      assert text[2] != 'q';
    }
  }

  // ---------------------------------------------------------------------------
  // Recommendations
  // ---------------------------------------------------------------------------

  /** The record emitted for one course. */
  function ScoreCourse(e: Engine, s: Student, c: Course): (r: Recommendation)
    ensures r.courseId == c.id && r.courseCode == c.code && r.courseName == c.name
    ensures r.department == c.department && r.credits == c.credits
    ensures 0.0 <= r.confidence <= 100.0
    ensures r.isMajorRequirement <==> s.major in e.majorRequirements && c.code in e.majorRequirements[s.major]
  {
    var sc := SubScoresOf(s, c);
    var majorReq := IsMajorRequirement(c.code, s.major, e.majorRequirements);
    Recommendation(c.id, c.code, c.name, c.department, c.credits,
      Confidence(e.weights, sc, majorReq), Reasoning(majorReq, s.major, sc, DifficultyOf(c)), majorReq)
  }

  /** No scored course gets the general-education text: a difficulty score
      in [0.6, 0.8] needs a difficulty of at most 2, and that fires the
      foundational reason, so the fallback is unreachable from scoring. */
  lemma ScoredCourseIsNeverGeneral(e: Engine, s: Student, c: Course)
    ensures ScoreCourse(e, s, c).reasoning != GeneralEducation
  {
    var sc := SubScoresOf(s, c);
    var majorReq := IsMajorRequirement(c.code, s.major, e.majorRequirements);
    GeneralExactlyWhenNoReason(majorReq, s.major, sc, DifficultyOf(c));
  }

  /** The list before sorting: one record per course, in catalog order. */
  function ScoreAll(e: Engine, s: Student, courses: seq<Course>): (r: seq<Recommendation>)
    ensures |r| == |courses|
  {
    seq(|courses|, i requires 0 <= i < |courses| => ScoreCourse(e, s, courses[i]))
  }

  /** What `generate_recommendations(student_data, top_n)` returns. */
  function Recommend(e: Engine, data: StudentData, topN: int): (r: seq<Recommendation>)
    ensures |r| == Min(|e.catalog|, Max(1, topN))
  {
    Top(SortByRank(ScoreAll(e, Normalize(data), e.catalog)), topN)
  }

  /** The body of the scoring loop: the sub-scores, the major check, the
      confidence and the reasoning text for one course. */
  method BuildRecord(e: Engine, s: Student, course: Course) returns (record: Recommendation)
    ensures record == ScoreCourse(e, s, course)
  {
    var scores := SubScoresOf(s, course);
    var majorReq := IsMajorRequirement(course.code, s.major, e.majorRequirements);
    var confidence := Confidence(e.weights, scores, majorReq);
    var reasoning := GenerateReasoning(e, course, s.major, scores);
    record := Recommendation(course.id, course.code, course.name,
      course.department, course.credits, confidence, reasoning, majorReq);
  }

  /** The scoring loop of `generate_recommendations`: one record per course,
      appended in catalog order. */
  method ScoreCatalog(e: Engine, s: Student) returns (recommendations: seq<Recommendation>)
    ensures recommendations == ScoreAll(e, s, e.catalog)
  {
    recommendations := [];
    var i := 0;
    while i < |e.catalog|
      invariant 0 <= i <= |e.catalog|
      invariant recommendations == ScoreAll(e, s, e.catalog)[..i]
    {
      var record := BuildRecord(e, s, e.catalog[i]);
      assert record == ScoreAll(e, s, e.catalog)[i];
      PrefixStep(ScoreAll(e, s, e.catalog), i);
      recommendations := recommendations + [record];
      i := i + 1;
    }
    assert ScoreAll(e, s, e.catalog)[..i] == ScoreAll(e, s, e.catalog);
  }

  /** `generate_recommendations`: normalise, score every course, sort, truncate. */
  method GenerateRecommendations(e: Engine, data: StudentData, topN: int) returns (top: seq<Recommendation>)
    ensures top == Recommend(e, data, topN)
  {
    var s := Normalize(data);
    var recommendations := ScoreCatalog(e, s);
    recommendations := SortByRank(recommendations);
    top := recommendations[..Min(Max(1, topN), |recommendations|)];
  }

  /** The output is ranked, and each of its records is the scored record of some
      catalog course, so every confidence lies in [0, 100]. */
  lemma RecommendRankedAndBounded(e: Engine, data: StudentData, topN: int)
    ensures Ranked(Recommend(e, data, topN))
    ensures forall x :: x in Recommend(e, data, topN) ==>
      exists i :: 0 <= i < |e.catalog| && x == ScoreCourse(e, Normalize(data), e.catalog[i])
    ensures forall x :: x in Recommend(e, data, topN) ==> 0.0 <= x.confidence <= 100.0
  {
    var all := ScoreAll(e, Normalize(data), e.catalog);
    var ranked := SortByRank(all);
    var r := Recommend(e, data, topN);
    SortByRankRanked(all);
    RankedPrefix(ranked, Min(Max(1, topN), |ranked|));
    forall x | x in r
      ensures exists i :: 0 <= i < |e.catalog| && x == ScoreCourse(e, Normalize(data), e.catalog[i])
    {
      assert x in multiset(ranked);
      assert x in multiset(all);
      var i :| 0 <= i < |all| && all[i] == x;
    }
  }

  /** The output is the best of the scored records: drawn from them, each as
      often as it was scored at most, and ranked before every record left out. */
  lemma RecommendKeepsTheBest(e: Engine, data: StudentData, topN: int)
    ensures multiset(Recommend(e, data, topN)) <= multiset(ScoreAll(e, Normalize(data), e.catalog))
    ensures forall x, y ::
              x in Recommend(e, data, topN)
              && y in multiset(ScoreAll(e, Normalize(data), e.catalog)) - multiset(Recommend(e, data, topN))
              ==> RanksBefore(x, y)
  {
    var all := ScoreAll(e, Normalize(data), e.catalog);
    var ranked := SortByRank(all);
    SortByRankRanked(all);
    RankedPrefixIsBest(ranked, Min(Max(1, topN), |ranked|));
  }

  /** The case `test_missing_fields_and_defaults` checks: an empty student
      document and the built-in catalog give three records with confidences in
      [0, 100]. */
  lemma MissingFieldsGiveThreeBoundedRecords()
    ensures |Recommend(NewEngine(None, None), StudentData(Absent, None, None, None, Absent), 3)| == 3
    ensures forall x :: x in Recommend(NewEngine(None, None), StudentData(Absent, None, None, None, Absent), 3) ==>
      0.0 <= x.confidence <= 100.0
  {
    var e := NewEngine(None, None);
    var data := StudentData(Absent, None, None, None, Absent);
    BuiltinCatalogSize();
    assert |e.catalog| == 37;
    RecommendRankedAndBounded(e, data, 3);
  }
}
