/**
 * frontend/src/pages/AddCoursePage.jsx: the course list and the add/edit
 * drawer with its form, as the page's handlers change them. Requests are
 * returned, not sent; their settled results are inputs.
 */
module AddCoursePage {
  import opened Wrappers
  import opened Seqs

  const ApiBase := "http://localhost:4000"
  const RequiredFieldsError := "Please fill in all required fields."
  const SaveFailedDefault := "Failed to save course"
  const DeleteFailedDefault := "Failed to delete course"
  const DeleteAlertPrefix := "Error deleting course: "
  const LoadFailedPrefix := "Failed to load courses: "
  const UpdatedNotice := "Course updated successfully!"
  const AddedNotice := "Course added successfully!"

  /** A course as the backend lists it; a field the record lacks is None. */
  datatype Course = Course(
    id: string,
    title: Option<string>,
    category: Option<string>,
    level: Option<string>,
    description: Option<string>,
    url: Option<string>)

  /** The body of a save request. */
  datatype CoursePayload = CoursePayload(
    title: string, category: string, level: string, description: string, url: string,
    createdBy: Option<string>)

  datatype SaveRequest = SaveRequest(verb: string, url: string, body: CoursePayload)

  /**
   * A settled `fetch` followed by `res.json()`: an answer with `res.ok` and
   * the body's `error` field, or an exception (network, or a body that is
   * not JSON) with its message.
   */
  datatype Reply = Answered(ok: bool, error: Option<string>) | Thrown(message: string)

  /** A settled list request: the body (None when falsy), or an exception's message. */
  datatype ListReply = Listed(data: Option<seq<Course>>) | ListFailed(message: string)

  /** `value || ""`. */
  function OrEmpty(value: Option<string>): string {
    if value.Some? then value.value else ""
  }

  function CourseUrl(id: string): string {
    ApiBase + "/api/courses/" + id
  }

  function CoursesUrl(): string {
    ApiBase + "/api/courses"
  }

  /** PUT to the course's own URL when editing, else POST to the collection. */
  function SaveTarget(editing: Option<Course>): (string, string) {
    if editing.Some? then ("PUT", CourseUrl(editing.value.id)) else ("POST", CoursesUrl())
  }

  /** The message of the error a failed reply throws: the body's `error`, or `fallback` when it is falsy. */
  function ReplyError(reply: Reply, fallback: string): string
    requires !(reply.Answered? && reply.ok)
  {
    match reply
    case Answered(_, error) => if error.Some? && error.value != "" then error.value else fallback
    case Thrown(message) => message
  }

  /** `prev.filter((c) => c.id !== id)`. */
  function RemoveCourse(courses: seq<Course>, id: string): seq<Course> {
    Filter(courses, (c: Course) => c.id != id)
  }

  class Page {
    const userId: Option<string>
    var courses: seq<Course>
    var loading: bool
    var listError: Option<string>
    var isDrawerOpen: bool
    var editingCourse: Option<Course>
    var title: string
    var category: string
    var level: string
    var description: string
    var url: string
    var saving: bool
    var saveError: Option<string>
    var success: Option<string>

    /** The initial state, before the first list request settles. */
    constructor(userId: Option<string>)
      ensures this.userId == userId
      ensures courses == [] && loading && listError == None
      ensures !isDrawerOpen && editingCourse == None
      ensures title == "" && category == "" && level == "" && description == "" && url == ""
      ensures !saving && saveError == None && success == None
    {
      this.userId := userId;
      courses, loading, listError := [], true, None;
      isDrawerOpen, editingCourse := false, None;
      title, category, level, description, url := "", "", "", "", "";
      saving, saveError, success := false, None, None;
    }

    /** The five form fields, in the order the payload lists them. */
    function Form(): (string, string, string, string, string)
      reads this
    {
      (title, category, level, description, url)
    }

    /** `fetchCourses`: it never throws; a failure only sets `listError`. */
    method FetchCourses(reply: ListReply) returns (request: string)
      modifies this`courses, this`loading, this`listError
      ensures request == CoursesUrl() && !loading
      ensures reply.Listed? ==> courses == (if reply.data.Some? then reply.data.value else []) && listError == None
      ensures reply.ListFailed? ==> courses == old(courses) && listError == Some(LoadFailedPrefix + reply.message)
    {
      loading := true;
      listError := None;
      request := CoursesUrl();
      match reply {
        case Listed(data) =>
          courses := if data.Some? then data.value else [];
        case ListFailed(message) =>
          listError := Some(LoadFailedPrefix + message);
      }
      // finally
      loading := false;
    }

    /** `handleOpenAdd`: an empty form for a new course, no messages, drawer open. */
    method OpenAdd()
      modifies this`editingCourse, this`title, this`category, this`level, this`description, this`url,
               this`saveError, this`success, this`isDrawerOpen
      ensures editingCourse == None && Form() == ("", "", "", "", "")
      ensures saveError == None && success == None && isDrawerOpen
    {
      editingCourse := None;
      title, category, level, description, url := "", "", "", "", "";
      saveError, success := None, None;
      isDrawerOpen := true;
    }

    /** `handleOpenEdit(course)`: the form holds the course's fields, "" for the missing ones. */
    method OpenEdit(course: Course)
      modifies this`editingCourse, this`title, this`category, this`level, this`description, this`url,
               this`saveError, this`success, this`isDrawerOpen
      ensures editingCourse == Some(course)
      ensures Form() == (OrEmpty(course.title), OrEmpty(course.category), OrEmpty(course.level),
                         OrEmpty(course.description), OrEmpty(course.url))
      ensures saveError == None && success == None && isDrawerOpen
    {
      editingCourse := Some(course);
      title := OrEmpty(course.title);
      category := OrEmpty(course.category);
      level := OrEmpty(course.level);
      description := OrEmpty(course.description);
      url := OrEmpty(course.url);
      saveError, success := None, None;
      isDrawerOpen := true;
    }

    /** `handleCloseDrawer`: the form fields are kept. */
    method CloseDrawer()
      modifies this`isDrawerOpen, this`editingCourse, this`saveError, this`success
      ensures !isDrawerOpen && editingCourse == None && saveError == None && success == None
    {
      isDrawerOpen := false;
      editingCourse := None;
      saveError := None;
      success := None;
    }

    /**
     * `handleSave`, with `reply` the settled save request and `refresh` the
     * settled list request that follows a success. A missing title,
     * category or level sets the error and sends nothing. Otherwise the
     * payload goes by PUT or POST; on success the list is refreshed and the
     * drawer closed (which also clears the success notice); on failure the
     * error is shown; `saving` ends false either way.
     */
    method Save(reply: Reply, refresh: ListReply) returns (request: Option<SaveRequest>)
      modifies this`saving, this`saveError, this`success, this`courses, this`loading, this`listError,
               this`isDrawerOpen, this`editingCourse
      ensures old(title) == "" || old(category) == "" || old(level) == "" ==>
        && request == None && saveError == Some(RequiredFieldsError)
        && saving == old(saving) && success == old(success) && isDrawerOpen == old(isDrawerOpen)
        && editingCourse == old(editingCourse) && courses == old(courses)
        && loading == old(loading) && listError == old(listError)
      ensures old(title) != "" && old(category) != "" && old(level) != "" ==>
        && request == Some(SaveRequest(
             SaveTarget(old(editingCourse)).0, SaveTarget(old(editingCourse)).1,
             CoursePayload(old(title), old(category), old(level), old(description), old(url),
                           if userId.Some? && userId.value != "" then userId else None)))
        && !saving
        && (reply.Answered? && reply.ok ==>
              && !isDrawerOpen && editingCourse == None && saveError == None && success == None
              && !loading
              && (refresh.Listed? ==> courses == (if refresh.data.Some? then refresh.data.value else []) && listError == None)
              && (refresh.ListFailed? ==> courses == old(courses) && listError == Some(LoadFailedPrefix + refresh.message)))
        && (!(reply.Answered? && reply.ok) ==>
              && saveError == Some(ReplyError(reply, SaveFailedDefault)) && success == None
              && isDrawerOpen == old(isDrawerOpen) && editingCourse == old(editingCourse)
              && courses == old(courses) && loading == old(loading) && listError == old(listError))
    {
      if title == "" || category == "" || level == "" {
        saveError := Some(RequiredFieldsError);
        return None;
      }
      request := Submit(reply, refresh);
    }

    /** The part of `handleSave` after the required-field check: the request and its `try`/`catch`/`finally`. */
    method Submit(reply: Reply, refresh: ListReply) returns (request: Option<SaveRequest>)
      modifies this`saving, this`saveError, this`success, this`courses, this`loading, this`listError,
               this`isDrawerOpen, this`editingCourse
      ensures request == Some(SaveRequest(
                SaveTarget(old(editingCourse)).0, SaveTarget(old(editingCourse)).1,
                CoursePayload(title, category, level, description, url,
                              if userId.Some? && userId.value != "" then userId else None)))
      ensures !saving
      ensures reply.Answered? && reply.ok ==>
        && !isDrawerOpen && editingCourse == None && saveError == None && success == None
        && !loading
        && (refresh.Listed? ==> courses == (if refresh.data.Some? then refresh.data.value else []) && listError == None)
        && (refresh.ListFailed? ==> courses == old(courses) && listError == Some(LoadFailedPrefix + refresh.message))
      ensures !(reply.Answered? && reply.ok) ==>
        && saveError == Some(ReplyError(reply, SaveFailedDefault)) && success == None
        && isDrawerOpen == old(isDrawerOpen) && editingCourse == old(editingCourse)
        && courses == old(courses) && loading == old(loading) && listError == old(listError)
    {
      saving := true;
      saveError := None;
      success := None;
      var payload := CoursePayload(title, category, level, description, url,
                                   if userId.Some? && userId.value != "" then userId else None);
      var target := SaveTarget(editingCourse);
      request := Some(SaveRequest(target.0, target.1, payload));
      if reply.Answered? && reply.ok {
        Saved(refresh);
      } else {
        saveError := Some(ReplyError(reply, SaveFailedDefault));
      }
      // finally
      saving := false;
    }

    /** A successful save: the notice, the refreshed list, and the drawer closed (which clears the notice again). */
    method Saved(refresh: ListReply)
      modifies this`success, this`courses, this`loading, this`listError, this`isDrawerOpen, this`editingCourse,
               this`saveError
      ensures !isDrawerOpen && editingCourse == None && saveError == None && success == None && !loading
      ensures refresh.Listed? ==> courses == (if refresh.data.Some? then refresh.data.value else []) && listError == None
      ensures refresh.ListFailed? ==> courses == old(courses) && listError == Some(LoadFailedPrefix + refresh.message)
    {
      success := Some(if editingCourse.Some? then UpdatedNotice else AddedNotice);
      var _ := FetchCourses(refresh);
      CloseDrawer();
    }

    /**
     * `handleDelete(id)`, with `confirmed` the answer to the confirmation
     * and `reply` the settled delete request. A declined confirmation does
     * nothing; a successful delete removes exactly the courses with that id;
     * a failure alerts and keeps the list.
     */
    method Delete(id: string, confirmed: bool, reply: Reply) returns (request: Option<string>, alert: Option<string>)
      modifies this`courses
      ensures !confirmed ==> request == None && alert == None && courses == old(courses)
      ensures confirmed ==> request == Some(CourseUrl(id))
      ensures confirmed && reply.Answered? && reply.ok ==> alert == None && courses == RemoveCourse(old(courses), id)
      ensures confirmed && !(reply.Answered? && reply.ok) ==>
        alert == Some(DeleteAlertPrefix + ReplyError(reply, DeleteFailedDefault)) && courses == old(courses)
    {
      if !confirmed {
        return None, None;
      }
      request := Some(CourseUrl(id));
      if reply.Answered? && reply.ok {
        courses := RemoveCourse(courses, id);
        alert := None;
      } else {
        alert := Some(DeleteAlertPrefix + ReplyError(reply, DeleteFailedDefault));
      }
    }
  }

  // ---------------------------------------------------------------- properties

  /**
   * The list after a delete keeps the order of the old one, holds no course
   * with that id, and holds every other course as often as before; a list
   * without that id is unchanged.
   */
  lemma RemoveCourseSpec(courses: seq<Course>, id: string)
    ensures forall i :: 0 <= i < |RemoveCourse(courses, id)| ==> RemoveCourse(courses, id)[i].id != id
    ensures IsSubsequence(RemoveCourse(courses, id), courses)
    ensures forall c :: multiset(RemoveCourse(courses, id))[c] == if c.id == id then 0 else multiset(courses)[c]
    ensures (forall i :: 0 <= i < |courses| ==> courses[i].id != id) ==> RemoveCourse(courses, id) == courses
  {
    var keep := (c: Course) => c.id != id;
    FilterIsSubsequence(courses, keep);
    forall c ensures multiset(Filter(courses, keep))[c] == if c.id == id then 0 else multiset(courses)[c] {
      FilterCount(courses, keep, c);
    }
    if forall i :: 0 <= i < |courses| ==> courses[i].id != id {
      FilterAll(courses, keep);
    }
  }

  /** A course with that id is gone after the delete; any other course is kept exactly when it was there. */
  lemma DeleteRemovesOnlyThatId(courses: seq<Course>, id: string, c: Course)
    ensures c.id == id ==> c !in RemoveCourse(courses, id)
    ensures c.id != id ==> (c in RemoveCourse(courses, id) <==> c in courses)
  {
    RemoveCourseSpec(courses, id);
    assert multiset(RemoveCourse(courses, id))[c] == if c.id == id then 0 else multiset(courses)[c];
  }
}
