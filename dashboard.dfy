/** The pure parts of the student dashboard (assets/js/dashboard.js): the
    confidence badge colour, the required/electives filter, the catalog search,
    the course-details lookup, and the page's cached recommendation list. */
module Dashboard {
  import opened Common

  // ---------------------------------------------------------------------------
  // Confidence badge
  // ---------------------------------------------------------------------------

  const Green: string := "#10b981"
  const Amber: string := "#f59e0b"
  const Red: string := "#ef4444"

  /** `getConfidenceColor` */
  function ConfidenceColor(score: real): (color: string)
    ensures color == Green <==> score >= 80.0
    ensures color == Amber <==> 60.0 <= score < 80.0
    ensures color == Red <==> score < 60.0
  {
    assert Green[1] == '1' && Amber[1] == 'f' && Red[1] == 'e';
    if score >= 80.0 then Green
    else if score >= 60.0 then Amber
    else Red
  }

  /** The badge colours from worst to best. */
  function ColorRank(color: string): int
  {
    if color == Green then 2 else if color == Amber then 1 else 0
  }

  /** A higher score never gets a worse colour. */
  lemma ConfidenceColorMonotone(s1: real, s2: real)
    requires s1 <= s2
    ensures ColorRank(ConfidenceColor(s1)) <= ColorRank(ConfidenceColor(s2))
  {
  }

  // ---------------------------------------------------------------------------
  // Required / electives filter
  // ---------------------------------------------------------------------------

  /** `a` is `b` with some elements removed, the rest in their order. */
  predicate IsSubsequence<T(==)>(a: seq<T>, b: seq<T>)
  {
    if |a| == 0 then true
    else if |b| == 0 then false
    else if a[0] == b[0] then IsSubsequence(a[1..], b[1..])
    else IsSubsequence(a, b[1..])
  }

  /** `list.filter(r => r.is_major_requirement)` */
  function Required(list: seq<Recommendation>): (r: seq<Recommendation>)
    ensures forall x :: x in r <==> x in list && x.isMajorRequirement
  {
    if |list| == 0 then []
    else (if list[0].isMajorRequirement then [list[0]] else []) + Required(list[1..])
  }

  /** `list.filter(r => !r.is_major_requirement)` */
  function Electives(list: seq<Recommendation>): (r: seq<Recommendation>)
    ensures forall x :: x in r <==> x in list && !x.isMajorRequirement
  {
    if |list| == 0 then []
    else (if list[0].isMajorRequirement then [] else [list[0]]) + Electives(list[1..])
  }

  /** The tab filter: "required", "electives", or anything else for all. */
  function ApplyFilter(list: seq<Recommendation>, filter: string): (r: seq<Recommendation>)
    ensures IsSubsequence(r, list)
    ensures filter == "required" ==> forall x :: x in r <==> x in list && x.isMajorRequirement
    ensures filter == "electives" ==> forall x :: x in r <==> x in list && !x.isMajorRequirement
    ensures filter != "required" && filter != "electives" ==> r == list
  {
    FiltersKeepOrder(list);
    SubsequenceOfItself(list);
    if filter == "required" then Required(list)
    else if filter == "electives" then Electives(list)
    else list
  }

  /** Both filters keep their items in the original order. */
  lemma {:induction false} FiltersKeepOrder(list: seq<Recommendation>)
    ensures IsSubsequence(Required(list), list)
    ensures IsSubsequence(Electives(list), list)
  {
    if |list| > 0 {
      FiltersKeepOrder(list[1..]);
      if list[0].isMajorRequirement {
        assert Required(list) == [list[0]] + Required(list[1..]);
        assert Required(list)[1..] == Required(list[1..]);
        assert Electives(list) == Electives(list[1..]);
        SkipHead(Electives(list), list);
      } else {
        assert Electives(list) == [list[0]] + Electives(list[1..]);
        assert Electives(list)[1..] == Electives(list[1..]);
        assert Required(list) == [] + Required(list[1..]) == Required(list[1..]);
        SkipHead(Required(list), list);
      }
    }
  }

  lemma {:induction false} SubsequenceOfItself<T>(s: seq<T>)
    ensures IsSubsequence(s, s)
  {
    if |s| > 0 {
      SubsequenceOfItself(s[1..]);
    }
  }

  /** A subsequence of the tail is a subsequence of the whole. */
  lemma {:induction false} SkipHead<T>(a: seq<T>, b: seq<T>)
    requires |b| > 0 && IsSubsequence(a, b[1..])
    ensures IsSubsequence(a, b)
  {
    if |a| > 0 && a[0] == b[0] {
      SubsequenceDropHead(a, b[1..]);
    }
  }

  lemma {:induction false} SubsequenceDropHead<T>(a: seq<T>, b: seq<T>)
    requires |a| > 0 && IsSubsequence(a, b)
    ensures IsSubsequence(a[1..], b)
  {
    if |b| > 0 {
      if a[0] == b[0] {
        assert IsSubsequence(a[1..], b[1..]);
        if |a[1..]| > 0 {
          SkipHead(a[1..], b);
        }
      } else {
        SubsequenceDropHead(a, b[1..]);
        SkipHead(a[1..], b);
      }
    }
  }

  /** "required" and "electives" split the list: every item lands in exactly one. */
  lemma {:induction false} FiltersPartition(list: seq<Recommendation>)
    ensures |Required(list)| + |Electives(list)| == |list|
    ensures multiset(Required(list)) + multiset(Electives(list)) == multiset(list)
  {
    if |list| > 0 {
      FiltersPartition(list[1..]);
      assert list == [list[0]] + list[1..];
    }
  }

  /** What the recommendations container shows. */
  datatype View = Placeholder | Listing(items: seq<Recommendation>)

  /** `displayRecommendations` / `displayRecommendationsInView`: a missing or
      empty list shows the "No recommendations yet." placeholder and is never
      filtered; otherwise the filtered items are listed, possibly none. */
  function Display(list: Option<seq<Recommendation>>, filter: string): (v: View)
    ensures v.Placeholder? <==> list.None? || |list.value| == 0
    ensures v.Listing? ==> v.items == ApplyFilter(list.value, filter)
    ensures v.Listing? && filter == "required" ==>
      forall x :: x in v.items <==> x in list.value && x.isMajorRequirement
    ensures v.Listing? && filter == "electives" ==>
      forall x :: x in v.items <==> x in list.value && !x.isMajorRequirement
    ensures v.Listing? && filter != "required" && filter != "electives" ==> v.items == list.value
  {
    if list.None? || |list.value| == 0 then Placeholder
    else Listing(ApplyFilter(list.value, filter))
  }

  // ---------------------------------------------------------------------------
  // Catalog search
  // ---------------------------------------------------------------------------

  /** A course as the `courses` endpoint lists it. */
  datatype CatalogCourse = CatalogCourse(
    id: int,
    courseCode: string,
    courseName: string,
    department: string,
    credits: int,
    description: Option<string>)

  predicate MatchesTerm(c: CatalogCourse, term: string)
  {
    var t := Lower(term);
    Contains(Lower(c.courseName), t) || Contains(Lower(c.courseCode), t) || Contains(Lower(c.department), t)
  }

  /** The filter in `renderCourses`. */
  function Search(courses: seq<CatalogCourse>, term: string): (r: seq<CatalogCourse>)
    ensures forall c :: c in r <==> c in courses && MatchesTerm(c, term)
    ensures |r| <= |courses|
  {
    if |courses| == 0 then []
    else (if MatchesTerm(courses[0], term) then [courses[0]] else []) + Search(courses[1..], term)
  }

  /** The search keeps the courses in their catalog order. */
  lemma {:induction false} SearchKeepsOrder(courses: seq<CatalogCourse>, term: string)
    ensures IsSubsequence(Search(courses, term), courses)
  {
    if |courses| > 0 {
      SearchKeepsOrder(courses[1..], term);
      var rest := Search(courses[1..], term);
      if MatchesTerm(courses[0], term) {
        assert Search(courses, term) == [courses[0]] + rest;
        assert Search(courses, term)[1..] == rest;
      } else {
        assert Search(courses, term) == rest;
        SkipHead(rest, courses);
      }
    }
  }

  /** The search works course by course: searching a concatenation searches
      each part. */
  lemma {:induction false} SearchAppend(a: seq<CatalogCourse>, b: seq<CatalogCourse>, term: string)
    ensures Search(a + b, term) == Search(a, term) + Search(b, term)
  {
    if |a| > 0 {
      var head := if MatchesTerm(a[0], term) then [a[0]] else [];
      var tail, more := Search(a[1..], term), Search(b, term);
      SearchAppend(a[1..], b, term);
      TailOfAppend(a, b);
      assert Search(a + b, term) == head + (tail + more);
      assert head + (tail + more) == (head + tail) + more;
    } else {
      assert a + b == b;
    }
  }

  /** An empty search term keeps every course. */
  lemma {:induction false} EmptyTermKeepsAll(courses: seq<CatalogCourse>)
    ensures Search(courses, "") == courses
  {
    if |courses| > 0 {
      EmptyTermKeepsAll(courses[1..]);
      assert courses == [courses[0]] + courses[1..];
    }
  }

  lemma {:induction false} LowerIdempotent(s: string)
    ensures Lower(Lower(s)) == Lower(s)
  {
    assert forall i :: 0 <= i < |s| ==> Lower(Lower(s))[i] == Lower(s)[i];
  }

  /** The search ignores the case of the term. */
  lemma {:induction false} SearchIgnoresTermCase(courses: seq<CatalogCourse>, term: string)
    ensures Search(courses, term) == Search(courses, Lower(term))
  {
    LowerIdempotent(term);
    if |courses| > 0 {
      SearchIgnoresTermCase(courses[1..], term);
    }
  }

  // ---------------------------------------------------------------------------
  // Course details
  // ---------------------------------------------------------------------------

  /** The first cached recommendation for the course. */
  function FindRecommendation(recs: seq<Recommendation>, courseId: int): (r: Option<Recommendation>)
    ensures r.None? <==> forall k :: 0 <= k < |recs| ==> recs[k].courseId != courseId
    ensures r.Some? ==>
      exists k :: 0 <= k < |recs| && recs[k] == r.value && r.value.courseId == courseId
                  && forall j :: 0 <= j < k ==> recs[j].courseId != courseId
  {
    if |recs| == 0 then None
    else if recs[0].courseId == courseId then Some(recs[0])
    else
      var r := FindRecommendation(recs[1..], courseId);
      assert forall k :: 0 < k < |recs| ==> recs[k] == recs[1..][k - 1];
      r
  }

  /** The first catalog course with the id. */
  function FindCourse(courses: seq<CatalogCourse>, courseId: int): (r: Option<CatalogCourse>)
    ensures r.None? <==> forall k :: 0 <= k < |courses| ==> courses[k].id != courseId
    ensures r.Some? ==>
      exists k :: 0 <= k < |courses| && courses[k] == r.value && r.value.id == courseId
                  && forall j :: 0 <= j < k ==> courses[j].id != courseId
  {
    if |courses| == 0 then None
    else if courses[0].id == courseId then Some(courses[0])
    else
      var r := FindCourse(courses[1..], courseId);
      assert forall k :: 0 < k < |courses| ==> courses[k] == courses[1..][k - 1];
      r
  }

  /** The reply of the `courses` endpoint: a list, some other value, or a failed request. */
  datatype CatalogReply = CourseList(courses: seq<CatalogCourse>) | NotAList | RequestFailed

  datatype Details =
    | ShowRecommendation(rec: Recommendation)
    | ShowCourse(course: CatalogCourse)
    | NotFound        // "Course details not found"
    | LoadFailed      // "Failed to load course details"

  /** `viewCourseDetails`: the cached recommendation first, the catalog only
      when none matches. */
  function CourseDetails(recs: seq<Recommendation>, catalog: CatalogReply, courseId: int): (d: Details)
    ensures (exists k :: 0 <= k < |recs| && recs[k].courseId == courseId) <==> d.ShowRecommendation?
    ensures d.ShowRecommendation? ==>
      exists k :: 0 <= k < |recs| && recs[k] == d.rec && d.rec.courseId == courseId
                  && forall j :: 0 <= j < k ==> recs[j].courseId != courseId
    ensures d.ShowCourse? <==>
      && (forall k :: 0 <= k < |recs| ==> recs[k].courseId != courseId)
      && catalog.CourseList?
      && exists k :: 0 <= k < |catalog.courses| && catalog.courses[k].id == courseId
    ensures d.ShowCourse? ==>
      exists k :: 0 <= k < |catalog.courses| && catalog.courses[k] == d.course && d.course.id == courseId
                  && forall j :: 0 <= j < k ==> catalog.courses[j].id != courseId
    ensures d.LoadFailed? <==> catalog.RequestFailed? && forall k :: 0 <= k < |recs| ==> recs[k].courseId != courseId
  {
    match FindRecommendation(recs, courseId)
    case Some(r) => ShowRecommendation(r)
    case None =>
      match catalog
      case RequestFailed => LoadFailed
      case NotAList => NotFound
      case CourseList(courses) =>
        match FindCourse(courses, courseId)
        case Some(c) => ShowCourse(c)
        case None => NotFound
  }

  /** A cached recommendation is shown whatever the catalog request returns:
      the lookup answers from the cache before asking the catalog. */
  lemma CacheAnswersFirst(recs: seq<Recommendation>, catalog1: CatalogReply, catalog2: CatalogReply, courseId: int)
    requires exists k :: 0 <= k < |recs| && recs[k].courseId == courseId
    ensures CourseDetails(recs, catalog1, courseId) == CourseDetails(recs, catalog2, courseId)
  {
  }

  // ---------------------------------------------------------------------------
  // The page's cached list
  // ---------------------------------------------------------------------------

  /** The reply of the `recommendations` endpoint as the page reads it. */
  datatype RecommendationsReply = Loaded(list: seq<Recommendation>) | NotLoaded(message: string)

  /** The page's module-level `recommendations` list. */
  class Session {
    var recommendations: seq<Recommendation>

    constructor()
      ensures recommendations == []
    {
      recommendations := [];
    }

    /** The loaders: a successful reply replaces the list, a failed one leaves it. */
    method ReceiveRecommendations(reply: RecommendationsReply)
      modifies this
      ensures reply.Loaded? ==> recommendations == reply.list
      ensures reply.NotLoaded? ==> recommendations == old(recommendations)
    {
      if reply.Loaded? {
        recommendations := reply.list;
      }
    }

    /** `viewCourseDetails` against the cached list. */
    function ViewCourseDetails(catalog: CatalogReply, courseId: int): (d: Details)
      reads this
      ensures (exists k :: 0 <= k < |recommendations| && recommendations[k].courseId == courseId)
              <==> d.ShowRecommendation?
    {
      CourseDetails(recommendations, catalog, courseId)
    }
  }
}
