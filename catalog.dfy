/** The course records the engine scores, and the data the engine ships with:
    the built-in catalog (used when no `courses.json` can be loaded) and the
    table of courses each major requires (backend/recommendation_algorithm.py). */
module Catalog {
  import opened Common

  /** One catalog entry. `difficulty` and `workloadHours` are `None` when the
      entry lacks the key; a missing list is the empty list. */
  datatype Course = Course(
    id: int,
    code: string,
    name: string,
    department: string,
    credits: int,
    difficulty: Option<real>,
    prerequisites: seq<string>,
    careerRelevance: seq<string>,
    learningStyles: seq<string>,
    workloadHours: Option<real>)

  /** `int(course.get("difficulty", 3))`: 3 when the key is missing, otherwise
      the number truncated toward zero. */
  function DifficultyOf(c: Course): (d: int)
    ensures c.difficulty.None? ==> d == 3
    ensures c.difficulty.Some? && c.difficulty.value >= 0.0 ==>
      0 <= d && d as real <= c.difficulty.value < d as real + 1.0
    ensures c.difficulty.Some? && c.difficulty.value < 0.0 ==>
      d <= 0 && d as real - 1.0 < c.difficulty.value <= d as real
  {
    match c.difficulty
    case None => 3
    case Some(x) => TruncateTowardZero(x)
  }

  /** Python's `int()` of a float: the integer part, dropping the fraction. */
  function TruncateTowardZero(x: real): int
  {
    if x >= 0.0 then x.Floor else -((-x).Floor)
  }

  /** `float(course.get("workload_hours", 8))`: 8 when the key is missing,
      otherwise the number. */
  function WorkloadHoursOf(c: Course): (h: real)
    ensures c.workloadHours.None? ==> h == 8.0
    ensures c.workloadHours.Some? ==> h == c.workloadHours.value
  {
    c.workloadHours.GetOr(8.0)
  }

  const BuiltinCatalog: seq<Course> := [
    Course(1, "CS101", "Introduction to Computer Science", "Technology", 3, Some(2.0), [],
           ["Software Engineering", "Data Science", "IT"], ["Visual", "Hands-on"], Some(8.0)),
    Course(2, "MATH151", "Calculus I", "Enhgineering", 4, Some(4.0), [],
           ["Engineering", "Data Science", "Finance"], ["Analytical", "Practice-based"], Some(12.0)),
    Course(3, "ENG101", "English Composition", "Education", 3, Some(2.0), [],
           ["All"], ["Reading", "Writing"], Some(6.0)),
    Course(4, "PHYS101", "General Physics I", "Engineering", 4, Some(4.0), ["MATH151"],
           ["Engineering", "Science", "Medical"], ["Visual", "Analytical"], Some(10.0)),
    Course(5, "BIO101", "Introduction to Biology", "Science", 4, Some(3.0), [],
           ["Medical", "Research", "Healthcare"], ["Visual", "Reading"], Some(9.0)),
    Course(6, "ECON101", "Principles of Economics", "Business", 3, Some(3.0), [],
           ["Business", "Finance", "Policy"], ["Analytical", "Reading"], Some(7.0)),
    Course(7, "CHEM101", "General Chemistry", "Science", 4, Some(4.0), [],
           ["Medical", "Engineering", "Research"], ["Hands-on", "Analytical"], Some(11.0)),
    Course(8, "PSYCH101", "Introduction to Psychology", "Social Science", 3, Some(2.0), [],
           ["Healthcare", "Education", "Research"], ["Reading", "Discussion"], Some(6.0)),
    Course(9, "HIST101", "World History", "Social Science", 3, Some(2.0), [],
           ["Education", "Law", "Policy"], ["Reading", "Writing"], Some(7.0)),
    Course(10, "ART101", "Introduction to Visual Arts", "Art", 3, Some(2.0), [],
           ["Design", "Media", "Education"], ["Visual", "Hands-on"], Some(8.0)),
    Course(11, "INT001", "Drawing", "Creative", 3, Some(2.0), [],
           ["General"], ["Reading", "Visual"], Some(6.0)),
    Course(12, "INT002", "Visual Arts", "Creative", 3, Some(2.0), [],
           ["General"], ["Reading", "Visual"], Some(6.0)),
    Course(13, "INT003", "Designing Buildings", "Creative", 3, Some(2.0), [],
           ["General"], ["Reading", "Visual"], Some(6.0)),
    Course(14, "INT004", "Interior Design", "Creative", 3, Some(2.0), [],
           ["General"], ["Reading", "Visual"], Some(6.0)),
    Course(15, "INT005", "Product Design", "Creative", 3, Some(2.0), [],
           ["General"], ["Reading", "Visual"], Some(6.0)),
    Course(16, "INT006", "Animation", "Creative", 3, Some(2.0), [],
           ["General"], ["Reading", "Visual"], Some(6.0)),
    Course(17, "INT007", "Storyboarding", "Creative", 3, Some(2.0), [],
           ["General"], ["Reading", "Visual"], Some(6.0)),
    Course(18, "INT008", "Computer Programming", "Technology", 3, Some(2.0), [],
           ["General"], ["Reading", "Visual"], Some(6.0)),
    Course(19, "INT009", "Cybersecurity", "Technology", 3, Some(2.0), [],
           ["General"], ["Reading", "Visual"], Some(6.0)),
    Course(20, "INT010", "Artificial Intelligence", "Technology", 3, Some(2.0), [],
           ["General"], ["Reading", "Visual"], Some(6.0)),
    Course(21, "INT011", "Gaming", "Technology", 3, Some(2.0), [],
           ["General"], ["Reading", "Visual"], Some(6.0)),
    Course(22, "INT012", "Hardware & Electronics", "Technology", 3, Some(2.0), [],
           ["General"], ["Reading", "Visual"], Some(6.0)),
    Course(23, "INT013", "Robotics", "Technology", 3, Some(2.0), [],
           ["General"], ["Reading", "Visual"], Some(6.0)),
    Course(24, "INT014", "Construction", "Engineering", 3, Some(2.0), [],
           ["General"], ["Reading", "Visual"], Some(6.0)),
    Course(25, "INT015", "Machinery & Mechanics", "Engineering", 3, Some(2.0), [],
           ["General"], ["Reading", "Visual"], Some(6.0)),
    Course(26, "INT016", "Power Systems", "Engineering", 3, Some(2.0), [],
           ["General"], ["Reading", "Visual"], Some(6.0)),
    Course(27, "INT017", "Chemistry & Materials", "Science", 3, Some(2.0), [],
           ["General"], ["Reading", "Visual"], Some(6.0)),
    Course(28, "INT018", "Biology", "Science", 3, Some(2.0), [],
           ["General"], ["Reading", "Visual"], Some(6.0)),
    Course(29, "INT019", "Physics", "Science", 3, Some(2.0), [],
           ["General"], ["Reading", "Visual"], Some(6.0)),
    Course(30, "INT020", "Scientific Research", "Science", 3, Some(2.0), [],
           ["General"], ["Reading", "Visual"], Some(6.0)),
    Course(31, "INT021", "Human Behavior", "Social Science", 3, Some(2.0), [],
           ["General"], ["Reading", "Visual"], Some(6.0)),
    Course(32, "INT022", "Politics & Law", "Social Science", 3, Some(2.0), [],
           ["General"], ["Reading", "Visual"], Some(6.0)),
    Course(33, "INT023", "Teaching", "Education", 3, Some(2.0), [],
           ["General"], ["Reading", "Visual"], Some(6.0)),
    Course(34, "INT024", "Business", "Business", 3, Some(2.0), [],
           ["General"], ["Reading", "Visual"], Some(6.0)),
    Course(35, "INT025", "Finance", "Business", 3, Some(2.0), [],
           ["General"], ["Reading", "Visual"], Some(6.0)),
    Course(36, "INT026", "Leadership", "Business", 3, Some(2.0), [],
           ["General"], ["Reading", "Visual"], Some(6.0)),
    Course(37, "INT027", "Hospitality", "Business", 3, Some(2.0), [],
           ["General"], ["Reading", "Visual"], Some(6.0))
    ]

  /** Courses each major requires (`_load_major_requirements`). */
  const MajorRequirements: map<string, seq<string>> := map[
    "Technology" := ["CS101", "INT008", "INT009", "INT010", "INT011", "INT012", "INT013"],
    "Social Science" := ["PSYCH101", "HIST101", "ECON101", "INT021", "INT022"],
    "Engineering" := ["MATH151", "PHYS101", "CHEM101", "INT014", "INT015", "INT016"],
    "Creative" := ["INT001", "INT002", "INT003", "INT004", "INT005", "INT006", "INT007"],
    "Art" := ["ART101", "INT001", "INT002"],
    "Science" := ["BIO101", "CHEM101", "PHYS101", "INT017", "INT018", "INT019", "INT020"],
    "Education" := ["INT023", "PSYCH101", "ENG101"],
    "Business" := ["ECON101", "INT024", "INT025", "INT026", "INT027"],
    "Undecided" := ["ENG101", "MATH151", "CS101", "HIST101"]
  ]

  lemma BuiltinCatalogSize()
    ensures |BuiltinCatalog| == 37
  {
  }
}
