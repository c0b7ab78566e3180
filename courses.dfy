/**
 * The in-memory course service: a list of courses kept in insertion order,
 * looked up by id, extended with id `len + 1`, updated in place at the first
 * course carrying an id, and filtered on delete. Ids are not unique: the
 * model never assumes they are.
 */
module Courses {
  import opened Wrappers

  /** A course as a client sends it: no id. */
  datatype CourseIn = CourseIn(title: string, maxScore: int, minScore: int, description: string)

  /** A course as the store holds it and the service answers it. */
  datatype CourseOut = CourseOut(id: int, title: string, maxScore: int, minScore: int, description: string)

  /** The input's four fields under the given id. */
  function WithId(course: CourseIn, id: int): (r: CourseOut)
    ensures r.id == id && Fields(r) == course
  {
    CourseOut(id, course.title, course.maxScore, course.minScore, course.description)
  }

  /** The four client-supplied fields of a stored course. */
  function Fields(c: CourseOut): CourseIn
  {
    CourseIn(c.title, c.maxScore, c.minScore, c.description)
  }

  // ---------------------------------------------------------------- lookups

  /** The first course with the id, in list order, if any. */
  function FindIn(courses: seq<CourseOut>, id: int): (r: Option<CourseOut>)
    ensures r.None? <==> forall c <- courses :: c.id != id
    ensures r.Some? ==> r.value in courses && r.value.id == id
  {
    if courses == [] then None
    else if courses[0].id == id then Some(courses[0])
    else FindIn(courses[1..], id)
  }

  /** The position of the first course with the id, if any. */
  function FirstIndexOf(courses: seq<CourseOut>, id: int): (r: Option<nat>)
    ensures r.None? <==> forall c <- courses :: c.id != id
    ensures r.Some? ==> r.value < |courses| && courses[r.value].id == id
    ensures r.Some? ==> forall j :: 0 <= j < r.value ==> courses[j].id != id
  {
    if courses == [] then None
    else if courses[0].id == id then Some(0)
    else match FirstIndexOf(courses[1..], id)
      case None => None
      case Some(k) => Some(k + 1)
  }

  /** The lookup by value and the lookup by position agree on the course they find. */
  lemma {:induction false} FindInIsAtFirstIndex(courses: seq<CourseOut>, id: int)
    ensures FindIn(courses, id).Some? <==> FirstIndexOf(courses, id).Some?
    ensures FirstIndexOf(courses, id).Some? ==> FindIn(courses, id) == Some(courses[FirstIndexOf(courses, id).value])
  {
    if courses != [] && courses[0].id != id {
      FindInIsAtFirstIndex(courses[1..], id);
    }
  }

  // ----------------------------------------------------------------- delete

  /** The courses whose id differs, in their original order. */
  function Without(courses: seq<CourseOut>, id: int): (r: seq<CourseOut>)
    ensures |r| <= |courses|
  {
    if courses == [] then []
    else if courses[0].id == id then Without(courses[1..], id)
    else [courses[0]] + Without(courses[1..], id)
  }

  /** A course survives the filter exactly when it was there and has another id. */
  lemma {:induction false} WithoutMembers(courses: seq<CourseOut>, id: int, c: CourseOut)
    ensures c in Without(courses, id) <==> c in courses && c.id != id
  {
    if courses != [] {
      WithoutMembers(courses[1..], id, c);
      assert courses == [courses[0]] + courses[1..];
    }
  }

  /** Filtering a concatenation filters each part and keeps them in order. */
  lemma {:induction false} WithoutAppend(a: seq<CourseOut>, b: seq<CourseOut>, id: int)
    ensures Without(a + b, id) == Without(a, id) + Without(b, id)
  {
    if a == [] {
      assert a + b == b;
    } else {
      assert (a + b)[1..] == a[1..] + b;
      WithoutAppend(a[1..], b, id);
      if a[0].id != id {
        assert [a[0]] + (Without(a[1..], id) + Without(b, id))
            == ([a[0]] + Without(a[1..], id)) + Without(b, id);
      }
    }
  }

  /** With no course carrying the id, delete leaves the list as it was. */
  lemma {:induction false} WithoutAbsent(courses: seq<CourseOut>, id: int)
    requires forall c <- courses :: c.id != id
    ensures Without(courses, id) == courses
  {
    if courses != [] {
      WithoutAbsent(courses[1..], id);
      assert courses == [courses[0]] + courses[1..];
    }
  }

  /** Deleting an id keeps the first course of every other id. */
  lemma {:induction false} FindInWithout(courses: seq<CourseOut>, id: int, other: int)
    requires other != id
    ensures FindIn(Without(courses, id), other) == FindIn(courses, other)
  {
    if courses != [] {
      FindInWithout(courses[1..], id, other);
      if courses[0].id != id {
        assert ([courses[0]] + Without(courses[1..], id))[1..] == Without(courses[1..], id);
      }
    }
  }

  // ----------------------------------------------------------------- update

  /** Overwriting a course with one of the same id keeps the first course of every other id. */
  lemma {:induction false} FindInReplace(courses: seq<CourseOut>, i: nat, c: CourseOut, other: int)
    requires i < |courses| && courses[i].id == c.id && other != c.id
    ensures FindIn(courses[i := c], other) == FindIn(courses, other)
  {
    if i > 0 {
      assert courses[i := c][1..] == courses[1..][i - 1 := c];
      FindInReplace(courses[1..], i - 1, c, other);
    }
  }

  /** Overwriting the first course of an id with another of that id makes it the one found. */
  lemma {:induction false} FindInAfterReplaceFirst(courses: seq<CourseOut>, c: CourseOut)
    requires FirstIndexOf(courses, c.id).Some?
    ensures FindIn(courses[FirstIndexOf(courses, c.id).value := c], c.id) == Some(c)
  {
    var i := FirstIndexOf(courses, c.id).value;
    if i > 0 {
      assert courses[1..][i - 1].id == c.id;
      assert FirstIndexOf(courses[1..], c.id) == Some(i - 1);
      assert courses[i := c][1..] == courses[1..][i - 1 := c];
      FindInAfterReplaceFirst(courses[1..], c);
    }
  }

  // ------------------------------------------------------------------ store

  datatype StoreError = NoSuchCourse(courseId: int)

  /** The service's in-memory table of courses. */
  class CoursesStore {
    var root: seq<CourseOut>

    constructor (root: seq<CourseOut> := [])
      ensures this.root == root
    {
      this.root := root;
    }

    /** The first stored course with the id, if any. */
    function Find(courseId: int): (r: Option<CourseOut>)
      reads this
      ensures r.None? <==> forall c <- root :: c.id != courseId
      ensures r.Some? ==> r.value in root && r.value.id == courseId
    {
      FindIn(root, courseId)
    }

    /** Appends the input under id `len + 1` and returns it. */
    method Create(course: CourseIn) returns (created: CourseOut)
      modifies this
      ensures created == WithId(course, |old(root)| + 1)
      ensures root == old(root) + [created]
      ensures old(Find(|root| + 1)).None? ==> Find(created.id) == Some(created)
    {
      created := WithId(course, |root| + 1);
      FindInAppend(root, created);
      root := root + [created];
    }

    /**
     * Replaces the first course with the id by the input under the same id.
     * With no such course the table is unchanged and the update fails.
     */
    method Update(courseId: int, course: CourseIn) returns (r: Result<CourseOut, StoreError>)
      modifies this
      ensures old(Find(courseId)).None? ==> r == Failure(NoSuchCourse(courseId)) && root == old(root)
      ensures old(Find(courseId)).Some? ==>
        && FirstIndexOf(old(root), courseId).Some?
        && r == Success(WithId(course, courseId))
        && root == old(root)[FirstIndexOf(old(root), courseId).value := r.value]
      ensures |root| == |old(root)|
      ensures r.Success? ==> Find(courseId) == Some(r.value)
      ensures forall other :: other != courseId ==> Find(other) == old(Find(other))
    {
      match FirstIndexOf(root, courseId) {
        case None =>
          r := Failure(NoSuchCourse(courseId));
        case Some(index) =>
          var updated := WithId(course, courseId);
          FindInAfterReplaceFirst(root, updated);
          forall other | other != courseId
            ensures FindIn(root[index := updated], other) == FindIn(root, other)
          {
            FindInReplace(root, index, updated, other);
          }
          root := root[index := updated];
          r := Success(updated);
      }
    }

    /** Removes every course with the id, keeping the rest in order. */
    method Delete(courseId: int)
      modifies this
      ensures root == Without(old(root), courseId)
      ensures Find(courseId).None?
      ensures forall other :: other != courseId ==> Find(other) == old(Find(other))
    {
      forall c | c in Without(root, courseId)
        ensures c.id != courseId
      {
        WithoutMembers(root, courseId, c);
      }
      forall other | other != courseId
        ensures FindIn(Without(root, courseId), other) == FindIn(root, other)
      {
        FindInWithout(root, courseId, other);
      }
      root := Without(root, courseId);
    }
  }

  /** Appending a course whose id nothing before it carries makes it the one found. */
  lemma {:induction false} FindInAppend(courses: seq<CourseOut>, c: CourseOut)
    ensures FindIn(courses, c.id).None? ==> FindIn(courses + [c], c.id) == Some(c)
  {
    if courses != [] && courses[0].id != c.id {
      assert (courses + [c])[1..] == courses[1..] + [c];
      FindInAppend(courses[1..], c);
    }
  }

  // --------------------------------------------------------------- handlers

  datatype HttpError = NotFound(courseId: int)

  /** `GET /{id}`: the first course with the id, or not-found. */
  method GetCourse(store: CoursesStore, courseId: int) returns (r: Result<CourseOut, HttpError>)
    ensures r.Failure? <==> forall c <- store.root :: c.id != courseId
    ensures r.Failure? ==> r.error == NotFound(courseId)
    ensures r.Success? ==> r.value == FindIn(store.root, courseId).value
  {
    match store.Find(courseId) {
      case None => r := Failure(NotFound(courseId));
      case Some(course) => r := Success(course);
    }
  }

  /** `GET`: every stored course, in insertion order. */
  method GetCourses(store: CoursesStore) returns (courses: seq<CourseOut>)
    ensures courses == store.root
  {
    courses := store.root;
  }

  /** `POST`: stores the input under id `len + 1`. */
  method CreateCourse(store: CoursesStore, course: CourseIn) returns (created: CourseOut)
    modifies store
    ensures created.id == |old(store.root)| + 1 && Fields(created) == course
    ensures store.root == old(store.root) + [created]
  {
    created := store.Create(course);
  }

  /** `PUT /{id}`: not-found leaves the table alone; otherwise the first match is overwritten. */
  method UpdateCourse(store: CoursesStore, courseId: int, course: CourseIn) returns (r: Result<CourseOut, HttpError>)
    modifies store
    ensures (forall c <- old(store.root) :: c.id != courseId) ==>
      r == Failure(NotFound(courseId)) && store.root == old(store.root)
    ensures (exists c <- old(store.root) :: c.id == courseId) ==>
      && r == Success(WithId(course, courseId))
      && FirstIndexOf(old(store.root), courseId).Some?
      && store.root == old(store.root)[FirstIndexOf(old(store.root), courseId).value := r.value]
  {
    if store.Find(courseId).None? {
      return Failure(NotFound(courseId));
    }
    var updated := store.Update(courseId, course);
    r := Success(updated.value);
  }

  /** `DELETE /{id}`: not-found leaves the table alone; otherwise every course with the id goes. */
  method DeleteCourse(store: CoursesStore, courseId: int) returns (r: Option<HttpError>)
    modifies store
    ensures (forall c <- old(store.root) :: c.id != courseId) ==>
      r == Some(NotFound(courseId)) && store.root == old(store.root)
    ensures (exists c <- old(store.root) :: c.id == courseId) ==>
      r == None && store.root == Without(old(store.root), courseId)
      && |store.root| < |old(store.root)|
  {
    if store.Find(courseId).None? {
      return Some(NotFound(courseId));
    }
    WithoutShrinks(store.root, courseId);
    store.Delete(courseId);
    r := None;
  }

  /** Deleting an id that is present removes at least one course. */
  lemma {:induction false} WithoutShrinks(courses: seq<CourseOut>, id: int)
    requires exists c <- courses :: c.id == id
    ensures |Without(courses, id)| < |courses|
  {
    if courses[0].id != id {
      var c :| c in courses && c.id == id;
      assert c in courses[1..];
      WithoutShrinks(courses[1..], id);
    }
  }

  /**
   * Create, create, delete course 1, create: the third course gets id 2,
   * the id the second course still has.
   */
  method IdReuse(course: CourseIn) returns (store: CoursesStore)
    ensures |store.root| == 2 && store.root[0].id == 2 && store.root[1].id == 2
    ensures store.Find(2) == Some(store.root[0])
  {
    store := new CoursesStore();
    var first := store.Create(course);
    var second := store.Create(course);
    store.Delete(1);
    assert store.root == [second];
    var third := store.Create(course);
    assert store.root == [second, third];
  }
}
