/** The course catalogue page (src/pages/courses.jsx): which lists it fetches, enrolling in a
    course, and the state of each course's enroll button. */
module Courses {
  import opened Wrappers
  import opened Records

  datatype Course = Course(id: string, title: string, grade: string)
  datatype Educator = Educator(id: string, name: string, email: string)
  /** An entry of `/enrollments/my-courses`. */
  datatype Enrollment = Enrollment(course: Course)
  /** The `data` of a successful enroll response. */
  datatype EnrollData = EnrollData(message: Option<string>)

  /** The course-list query: unfiltered, or `?grade=` with the (URI-encoded) grade. */
  datatype CourseQuery = AllCourses | ForGrade(grade: string)

  /** The GET requests `fetchData` can issue, in the order it issues them. */
  datatype Fetch = MyCourses | CourseList(query: CourseQuery) | EducatorList

  predicate IsStudent(user: Option<User>)
  {
    user.Some? && user.value.role == "student"
  }

  /** The course-list query for the signed-in user. */
  function QueryFor(user: Option<User>): (q: CourseQuery)
    ensures q.ForGrade? <==> IsStudent(user) && Truthy(user.value.grade)
    ensures q.ForGrade? ==> q.grade == user.value.grade.value
  {
    if IsStudent(user) && Truthy(user.value.grade) then ForGrade(user.value.grade.value) else AllCourses
  }

  /** `new Set(data.map(e => e.course._id))`. */
  function CourseIds(enrollments: seq<Enrollment>): (ids: set<string>)
    ensures forall i :: 0 <= i < |enrollments| ==> enrollments[i].course.id in ids
    ensures forall id :: id in ids ==> exists i :: 0 <= i < |enrollments| && enrollments[i].course.id == id
  {
    if enrollments == [] then {}
    else
      var rest := CourseIds(enrollments[1..]);
      assert forall i :: 1 <= i < |enrollments| ==> enrollments[i] == enrollments[1..][i - 1];
      {enrollments[0].course.id} + rest
  }

  /** What the enroll button says. */
  datatype Label = Enrolling | Enrolled | EnrollNow

  function LabelText(l: Label): (text: string)
    ensures text != ""
  {
    match l
    case Enrolling => "Enrolling..."
    case Enrolled => "Enrolled"
    case EnrollNow => "Enroll Now"
  }

  datatype Button = Button(disabled: bool, caption: Label)

  /** The enroll button of course `courseId`, None when it is not shown. */
  function EnrollButton(user: Option<User>, enrolling: string, enrolledIds: set<string>, courseId: string)
    : (b: Option<Button>)
    ensures b.Some? <==> IsStudent(user)
    ensures b.Some? ==> (b.value.disabled <==> enrolling == courseId || courseId in enrolledIds)
    ensures b.Some? ==> (b.value.caption == Enrolling <==> enrolling == courseId)
    ensures b.Some? ==> (b.value.caption == Enrolled <==> enrolling != courseId && courseId in enrolledIds)
    ensures b.Some? ==> (b.value.caption == EnrollNow <==> !b.value.disabled)
    ensures b.Some? ==> (LabelText(b.value.caption) == "Enroll Now" <==> !b.value.disabled)
    ensures b.Some? && enrolling == courseId ==> LabelText(b.value.caption) == "Enrolling..."
  {
    if !IsStudent(user) then None
    else Some(Button(enrolling == courseId || courseId in enrolledIds,
                     if enrolling == courseId then Enrolling
                     else if courseId in enrolledIds then Enrolled
                     else EnrollNow))
  }

  const LoadFailed: string := "Failed to load courses"
  const EnrollFailed: string := "Failed to enroll"
  const EnrolledMessage: string := "Enrolled"

  class CoursesPage {
    const user: Option<User>
    var courses: seq<Course>
    var educators: seq<Educator>
    var enrolling: string
    var message: string
    var error: string
    var enrolledIds: set<string>

    /** The page as first rendered for `user`, before `fetchData` ran. */
    constructor (user: Option<User>)
      ensures this.user == user
      ensures courses == [] && educators == [] && enrolledIds == {}
      ensures enrolling == "" && message == "" && error == ""
    {
      this.user := user;
      courses := [];
      educators := [];
      enrolling := "";
      message := "";
      error := "";
      enrolledIds := {};
    }

    /** `fetchData` with the outcomes of its three GETs. The requests are issued in order and
        the first failure stops the rest and sets the error; the enrolled set is loaded only
        for students. */
    method FetchData(myCourses: Result<seq<Enrollment>, HttpError>,
                     courseList: Result<seq<Course>, HttpError>,
                     educatorList: Result<seq<Educator>, HttpError>)
      returns (fetched: seq<Fetch>)
      modifies this`courses, this`educators, this`enrolledIds, this`error
      ensures var reachedList := !IsStudent(user) || myCourses.Ok?;
              var reachedEducators := reachedList && courseList.Ok?;
              && fetched == (if IsStudent(user) then [MyCourses] else []) +
                            (if reachedList then [CourseList(QueryFor(user))] else []) +
                            (if reachedEducators then [EducatorList] else [])
              && enrolledIds == (if IsStudent(user) && myCourses.Ok? then CourseIds(myCourses.value) else old(enrolledIds))
              && courses == (if reachedEducators then courseList.value else old(courses))
              && educators == (if reachedEducators && educatorList.Ok? then educatorList.value else old(educators))
              && error == (if IsStudent(user) && myCourses.Err? then OrElse(myCourses.error.message, LoadFailed)
                           else if reachedList && courseList.Err? then OrElse(courseList.error.message, LoadFailed)
                           else if reachedEducators && educatorList.Err? then OrElse(educatorList.error.message, LoadFailed)
                           else old(error))
    {
      fetched := [];
      if IsStudent(user) {
        fetched := fetched + [MyCourses];
        match myCourses {
          case Err(e) =>
            error := OrElse(e.message, LoadFailed);
            return;
          case Ok(data) =>
            enrolledIds := CourseIds(data);
        }
      }
      fetched := fetched + [CourseList(QueryFor(user))];
      match courseList {
        case Err(e) =>
          error := OrElse(e.message, LoadFailed);
          return;
        case Ok(data) =>
          courses := data;
      }
      fetched := fetched + [EducatorList];
      match educatorList {
        case Err(e) =>
          error := OrElse(e.message, LoadFailed);
        case Ok(data) =>
          educators := data;
      }
    }

    /** `enroll(courseId)` with `response` the outcome of the POST. The `...DuringCall` values
        are the page state while the request is outstanding. */
    method Enroll(courseId: string, response: Result<EnrollData, HttpError>)
      returns (sent: string, ghost enrollingDuringCall: string, ghost messageDuringCall: string,
               ghost errorDuringCall: string)
      modifies this`enrolling, this`message, this`error, this`enrolledIds
      ensures sent == "/enrollments/enroll/" + courseId
      ensures enrollingDuringCall == courseId && messageDuringCall == "" && errorDuringCall == ""
      ensures enrolling == ""
      ensures response.Ok? ==>
                message == OrElse(response.value.message, EnrolledMessage) && error == "" &&
                enrolledIds == old(enrolledIds) + {courseId}
      ensures response.Ok? ==>
                old(enrolledIds) <= enrolledIds && courseId in enrolledIds &&
                (courseId in old(enrolledIds) ==> enrolledIds == old(enrolledIds))
      ensures response.Err? ==>
                error == OrElse(response.error.message, EnrollFailed) && message == "" &&
                enrolledIds == old(enrolledIds)
    {
      error := "";
      message := "";
      enrolling := courseId;
      sent := "/enrollments/enroll/" + courseId;
      enrollingDuringCall, messageDuringCall, errorDuringCall := enrolling, message, error;
      match response {
        case Ok(data) =>
          message := OrElse(data.message, EnrolledMessage);
          enrolledIds := enrolledIds + {courseId};
        case Err(e) =>
          error := OrElse(e.message, EnrollFailed);
      }
      enrolling := "";
    }
  }

  /** After a successful enrollment finished, the student's button for that course is
      disabled and reads "Enrolled"; while it is under way it reads "Enrolling...". */
  lemma ButtonAfterEnroll(user: Option<User>, ids: set<string>, courseId: string)
    requires IsStudent(user) && courseId != ""
    ensures EnrollButton(user, courseId, ids, courseId) == Some(Button(true, Enrolling))
    ensures EnrollButton(user, "", ids + {courseId}, courseId) == Some(Button(true, Enrolled))
  {
  }

  /** After a failed enrollment the button is enabled again unless the course was already
      enrolled. */
  lemma ButtonAfterFailedEnroll(user: Option<User>, ids: set<string>, courseId: string)
    requires IsStudent(user) && courseId != ""
    ensures EnrollButton(user, "", ids, courseId).value.disabled <==> courseId in ids
  {
  }

  /** The "not enrolling" marker is the empty string, so a course whose id is empty reads
      "Enrolling..." and stays disabled even when nothing is under way. */
  lemma EmptyIdLooksEnrolling(user: Option<User>, ids: set<string>)
    requires IsStudent(user)
    ensures EnrollButton(user, "", ids, "") == Some(Button(true, Enrolling))
  {
  }
}
