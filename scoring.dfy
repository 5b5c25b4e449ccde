/** Input normalisation and the five sub-scores of the course recommendation
    engine (backend/recommendation_algorithm.py). Floating point is modelled by
    exact reals. */
module Scoring {
  import opened Common

  /** A numeric field of the student document as Python's `float()` sees it:
      missing, JSON null, a value `float()` accepts (a number, or a text it
      parses, represented by the value it parses to), or anything it rejects. */
  datatype NumberField = Absent | Null | Number(value: real) | Unparsable

  /** The student document the engine receives. Text fields are `None` when the
      key is missing or null. */
  datatype StudentData = StudentData(
    gpa: NumberField,
    major: Option<string>,
    careerInterests: Option<seq<string>>,
    learningStyle: Option<string>,
    studyHours: NumberField)

  /** The canonical scoring input, every field defaulted. */
  datatype Student = Student(
    gpa: real,
    major: string,
    careerInterests: seq<string>,
    learningStyle: string,
    studyHours: real)

  const DefaultGpa: real := 3.0
  const DefaultMajor: string := "Undecided"
  const DefaultLearningStyle: string := "Visual"
  const DefaultStudyHours: real := 10.0

  /** `float(value)` with the engine's fallback for a missing or rejected value. */
  function FloatOr(f: NumberField, default: real): real
  {
    if f.Number? then f.value else default
  }

  /** `x or default` on a string: the empty string is falsy in Python. */
  function TextOr(t: Option<string>, default: string): string
  {
    if t.Some? && t.value != "" then t.value else default
  }

  /** Normalisation at the head of `generate_recommendations`: it never fails. */
  function Normalize(data: StudentData): (s: Student)
    ensures data.gpa.Number? ==> s.gpa == data.gpa.value
    ensures !data.gpa.Number? ==> s.gpa == 3.0
    ensures data.major.Some? && data.major.value != "" ==> s.major == data.major.value
    ensures data.major.None? || data.major.value == "" ==> s.major == "Undecided"
    ensures data.careerInterests.Some? ==> s.careerInterests == data.careerInterests.value
    ensures data.careerInterests.None? ==> s.careerInterests == []
    ensures data.learningStyle.Some? && data.learningStyle.value != "" ==> s.learningStyle == data.learningStyle.value
    ensures data.learningStyle.None? || data.learningStyle.value == "" ==> s.learningStyle == "Visual"
    ensures data.studyHours.Number? ==> s.studyHours == data.studyHours.value
    ensures !data.studyHours.Number? ==> s.studyHours == 10.0
    ensures s.major != "" && s.learningStyle != ""
  {
    Student(
      FloatOr(data.gpa, DefaultGpa),
      TextOr(data.major, DefaultMajor),
      data.careerInterests.GetOr([]),
      TextOr(data.learningStyle, DefaultLearningStyle),
      FloatOr(data.studyHours, DefaultStudyHours))
  }

  // ---------------------------------------------------------------------------
  // Sub-scores
  // ---------------------------------------------------------------------------

  function MinReal(a: real, b: real): real { if a <= b then a else b }
  function MaxReal(a: real, b: real): real { if a >= b then a else b }

  /** GPA on the 4.0 scale, clamped into [0, 1]. */
  function GpaScore(gpa: real): (r: real)
    ensures 0.0 <= r <= 1.0
    ensures 0.0 <= gpa <= 4.0 ==> r == gpa / 4.0
    ensures gpa >= 4.0 ==> r == 1.0
    ensures gpa <= 0.0 ==> r == 0.0
  {
    MaxReal(0.0, MinReal(gpa / 4.0, 1.0))
  }

  lemma GpaScoreMonotone(g1: real, g2: real)
    requires g1 <= g2
    ensures GpaScore(g1) <= GpaScore(g2)
  {
  }

  /** The number of the student's interests (with repetitions) that the course lists. */
  function CountMatches(interests: seq<string>, relevance: seq<string>): (n: nat)
    ensures n <= |interests|
    ensures n == |interests| <==> forall i :: 0 <= i < |interests| ==> interests[i] in relevance
    ensures n == 0 <==> forall i :: 0 <= i < |interests| ==> interests[i] !in relevance
  {
    if |interests| == 0 then 0
    else
      var rest := CountMatches(interests[1..], relevance);
      assert forall i :: 0 < i < |interests| ==> interests[i] == interests[1..][i - 1];
      if interests[0] in relevance then rest + 1 else rest
  }

  /** Career-interest overlap: neutral 0.5 without interests or for a course
      relevant to "All", otherwise the fraction of interests the course lists. */
  function CareerScore(interests: seq<string>, relevance: seq<string>): (r: real)
    ensures 0.0 <= r <= 1.0
    ensures |interests| == 0 || "All" in relevance ==> r == 0.5
    ensures |interests| > 0 && "All" !in relevance ==>
      r * (|interests| as real) == CountMatches(interests, relevance) as real
    ensures |interests| > 0 && "All" !in relevance ==>
      (r == 1.0 <==> forall i :: 0 <= i < |interests| ==> interests[i] in relevance)
    ensures |interests| > 0 && "All" !in relevance ==>
      (r == 0.0 <==> forall i :: 0 <= i < |interests| ==> interests[i] !in relevance)
  {
    if |interests| == 0 || "All" in relevance then 0.5
    else
      var n, d := CountMatches(interests, relevance) as real, Max(|interests|, 1) as real;
      RatioAtMostOne(n, d);
      n / d
  }

  lemma RatioAtMostOne(n: real, d: real)
    requires 0.0 <= n <= d && 0.0 < d
    ensures 0.0 <= n / d <= 1.0
    ensures n / d * d == n
    ensures n / d == 1.0 <==> n == d
    ensures n / d == 0.0 <==> n == 0.0
  {
    assert n / d * d == n;
  }

  /** Learning style: 1.0 when the course lists the style, 0.3 when it does not,
      0.5 for an empty style. */
  function LearningScore(style: string, styles: seq<string>): (r: real)
    ensures style == "" ==> r == 0.5
    ensures style != "" ==> (r == 1.0 <==> style in styles)
    ensures style != "" ==> (r == 0.3 <==> style !in styles)
  {
    if style == "" then 0.5
    else if style in styles then 1.0 else 0.3
  }

  /** Workload compatibility of the student's weekly hours with the course's. */
  function WorkloadScore(studentHours: real, courseHours: real): (r: real)
    ensures r == 1.0 <==> studentHours >= courseHours
    ensures r == 0.7 <==> courseHours * 0.7 <= studentHours < courseHours
    ensures r == 0.4 <==> studentHours < courseHours * 0.7 && studentHours < courseHours
    ensures 0.4 <= r <= 1.0
  {
    if studentHours >= courseHours then 1.0
    else if studentHours >= courseHours * 0.7 then 0.7
    else 0.4
  }

  lemma WorkloadScoreMonotone(h1: real, h2: real, courseHours: real)
    requires h1 <= h2
    ensures WorkloadScore(h1, courseHours) <= WorkloadScore(h2, courseHours)
  {
  }

  /** Difficulty fit: the first of four (GPA score, difficulty) bands that
      matches, 0.5 when none does. */
  function DifficultyScore(gpa: real, difficulty: int): (r: real)
    ensures 0.5 <= r <= 1.0
    ensures r == 1.0 <==> GpaScore(gpa) >= 0.9 && difficulty <= 4
    ensures difficulty <= 2 ==> r >= 0.7
    ensures difficulty > 4 ==> r == 0.5
    ensures r == 0.9 <==> !(GpaScore(gpa) >= 0.9 && difficulty <= 4) && GpaScore(gpa) >= 0.75 && difficulty <= 3
    ensures r == 0.8 <==> GpaScore(gpa) < 0.75 && GpaScore(gpa) >= 0.65 && difficulty <= 2
    ensures r == 0.7 <==> GpaScore(gpa) < 0.65 && difficulty <= 2
    ensures r == 0.5 <==> difficulty > 2 && !(GpaScore(gpa) >= 0.9 && difficulty <= 4)
                          && !(GpaScore(gpa) >= 0.75 && difficulty <= 3)
  {
    var g := GpaScore(gpa);
    if g >= 0.9 && difficulty <= 4 then 1.0
    else if g >= 0.75 && difficulty <= 3 then 0.9
    else if g >= 0.65 && difficulty <= 2 then 0.8
    else if difficulty <= 2 then 0.7
    else 0.5
  }

  lemma DifficultyScoreMonotoneInGpa(g1: real, g2: real, difficulty: int)
    requires g1 <= g2
    ensures DifficultyScore(g1, difficulty) <= DifficultyScore(g2, difficulty)
  {
    GpaScoreMonotone(g1, g2);
  }

  lemma DifficultyScoreAntitoneInDifficulty(gpa: real, d1: int, d2: int)
    requires d1 <= d2
    ensures DifficultyScore(gpa, d1) >= DifficultyScore(gpa, d2)
  {
  }

  /** `_is_major_requirement`: the code is listed under the major in the table;
      a major the table does not know requires nothing. */
  function IsMajorRequirement(code: string, major: string, table: map<string, seq<string>>): (r: bool)
    ensures r <==> major in table && code in table[major]
  {
    code in (if major in table then table[major] else [])
  }

  /** The weights of the five signals. */
  datatype Weights = Weights(career: real, learning: real, workload: real, difficulty: real, major: real)

  const DefaultWeights: Weights := Weights(0.25, 0.20, 0.15, 0.20, 0.20)
}
