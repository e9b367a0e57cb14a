/**
 * The state of the new-project form (src/app/projects/new/page.tsx): the
 * fields, the tag list, the two date inputs, status and progress, the
 * error and success flags, and the project the service returned.
 */
module NewProjectPage {
  import opened Wrappers
  import opened Types
  import opened Js
  import opened Dates
  import TagEditor
  import TestApi

  const MissingFields := "请填写所有必填字段"
  const EndBeforeStart := "结束日期必须晚于开始日期"
  const CreateFailed := "创建项目时出错，请稍后再试"
  const DefaultStatus := "规划中"

  /** The checks of handleSubmit before anything is sent: the message to show, or none. */
  function Validate(title: string, description: string, category: string, startDate: string, endDate: string): (r: Option<string>)
    ensures r == Some(MissingFields) <==> title == "" || description == "" || category == "" || startDate == "" || endDate == ""
    ensures r == Some(EndBeforeStart) <==>
      title != "" && description != "" && category != "" && startDate != "" && endDate != "" && StringLess(endDate, startDate)
    ensures r.None? || r == Some(MissingFields) || r == Some(EndBeforeStart)
  {
    if title == "" || description == "" || category == "" || startDate == "" || endDate == "" then Some(MissingFields)
    else if StringLess(endDate, startDate) then Some(EndBeforeStart)
    else None
  }

  /** For date-input values, validation passes exactly when the end is the start day or later; a one-day project passes. */
  lemma ValidDatesAreOrdered(title: string, description: string, category: string, startDate: string, endDate: string)
    requires title != "" && description != "" && category != ""
    requires IsDateString(startDate) && IsDateString(endDate)
    ensures Validate(title, description, category, startDate, endDate).None?
      <==> startDate == endDate || Earlier(startDate, endDate)
  {
    RejectsExactlyEarlierEnd(startDate, endDate);
  }

  /** The `Partial<Project>` that handleSubmit sends to the service. */
  function SubmittedDraft(title: string, description: string, category: string, tags: seq<string>,
                          startDate: string, endDate: string, status: string, progress: int,
                          user: Option<User>, now: string): (d: ProjectDraft)
    requires IsDateString(startDate) && IsDateString(endDate)
    ensures d.startDate == Some(ToIsoString(startDate)) && d.endDate == Some(ToIsoString(endDate))
    ensures d.creatorId == Some(UserIdOf(user)) && d.members == Some([PlainId(UserIdOf(user))])
    ensures d.tasks == Some([]) && d.ideaId.None?
  {
    ProjectDraft(Some(title), Some(description), Some(UserIdOf(user)), Some(category), Some(status),
                 Some(progress), Some(ToIsoString(startDate)), Some(ToIsoString(endDate)), None,
                 Some([PlainId(UserIdOf(user))]), Some(tags), Some([]), Some(now), Some(now))
  }

  /** The project a valid submission receives: the form's fields and dates, the submitter as only member, no tasks. */
  lemma SubmittedProject(db: TestApi.Store, title: string, description: string, category: string, tags: seq<string>,
                         startDate: string, endDate: string, status: string, progress: int,
                         user: Option<User>, now: string, in90Days: string)
    requires TestApi.ProjectIds(db.projects) == TestApi.SeedProjectIds
    requires Validate(title, description, category, startDate, endDate).None?
    requires IsDateString(startDate) && IsDateString(endDate)
    ensures var p := TestApi.ProjectsCreate(db,
        SubmittedDraft(title, description, category, tags, startDate, endDate, status, progress, user, now), now, in90Days);
      p.title == title && p.description == description && p.category == category && p.tags == tags
      && p.startDate == Some(ToIsoString(startDate)) && p.endDate == Some(ToIsoString(endDate))
      && p.status == (if status == "" then DefaultStatus else status) && p.progress == progress
      && p.members == [PlainId(UserIdOf(user))] && p.tasks == []
      && p.id == "project6" && TestApi.ProjectsGetById(db, p.id).None?
  {
    TestApi.CreatedProjectNotFound(db,
      SubmittedDraft(title, description, category, tags, startDate, endDate, status, progress, user, now), now, in90Days);
  }

  class NewProjectForm {
    /** The service's store the form submits to. */
    const service: TestApi.Store
    var title: string
    var description: string
    var category: string
    var tags: seq<string>
    var tagInput: string
    var startDate: string
    var endDate: string
    var status: string
    var progress: int
    var loading: bool
    var success: bool
    var error: Option<string>
    var created: Option<Project>
    var redirect: Option<string>

    /** The empty form; the date inputs start at today and one month from today, read from the clock. */
    constructor (service: TestApi.Store, today: string, inAMonth: string)
      ensures this.service == service
      ensures title == "" && description == "" && category == "" && tags == [] && tagInput == ""
      ensures startDate == today && endDate == inAMonth && status == DefaultStatus && progress == 0
      ensures !loading && !success && error.None? && created.None? && redirect.None?
    {
      this.service := service;
      title, description, category := "", "", "";
      tags, tagInput := [], "";
      startDate, endDate := today, inAMonth;
      status, progress := DefaultStatus, 0;
      loading, success := false, false;
      error, created, redirect := None, None, None;
    }

    predicate Valid()
      reads this
    {
      TagEditor.WellFormedTags(tags)
    }

    /** handleAddTag. */
    method AddTag()
      modifies this`tags, this`tagInput
      ensures (tags, tagInput) == TagEditor.AddTag(old(tags), old(tagInput))
      ensures old(Valid()) ==> Valid()
    {
      var r := TagEditor.AddTag(tags, tagInput);
      tags, tagInput := r.0, r.1;
    }

    /** handleDeleteTag. */
    method DeleteTag(tag: string)
      modifies this`tags
      ensures tags == TagEditor.DeleteTag(old(tags), tag)
      ensures old(Valid()) ==> Valid()
    {
      tags := TagEditor.DeleteTag(tags, tag);
    }

    /**
     * handleSubmit: a failed check only shows its message; a date the clock
     * library cannot read ends in the catch branch; otherwise the project is
     * created and the page is about to open it.
     */
    method Submit(user: Option<User>, now: string, in90Days: string)
      modifies this`loading, this`error, this`success, this`created, this`redirect
      ensures var v := Validate(title, description, category, startDate, endDate);
        v.Some? ==>
          && error == v && success == old(success) && created == old(created) && redirect == old(redirect)
          && loading == old(loading)
      ensures var v := Validate(title, description, category, startDate, endDate);
        v.None? && !(IsDateString(startDate) && IsDateString(endDate)) ==>
          error == Some(CreateFailed) && success == old(success) && created == old(created) && !loading
          && redirect == old(redirect)
      ensures var v := Validate(title, description, category, startDate, endDate);
        v.None? && IsDateString(startDate) && IsDateString(endDate) ==>
          && created == Some(TestApi.ProjectsCreate(service,
               SubmittedDraft(title, description, category, tags, startDate, endDate, status, progress, user, now),
               now, in90Days))
          && success && error.None? && !loading
          && redirect == Some("/projects/" + created.value.id)
    {
      var v := Validate(title, description, category, startDate, endDate);
      if v.Some? {
        error := v;
        return;
      }
      loading := true;
      error := None;
      if !(IsDateString(startDate) && IsDateString(endDate)) {
        error := Some(CreateFailed);
        loading := false;
        return;
      }
      Create(user, now, in90Days);
    }

    /** The try block of handleSubmit once both dates are readable: create, record, and schedule the redirect. */
    method Create(user: Option<User>, now: string, in90Days: string)
      requires IsDateString(startDate) && IsDateString(endDate)
      modifies this`loading, this`error, this`success, this`created, this`redirect
      ensures created == Some(TestApi.ProjectsCreate(service,
                SubmittedDraft(title, description, category, tags, startDate, endDate, status, progress, user, now),
                now, in90Days))
      ensures success && error == old(error) && !loading
      ensures redirect == Some("/projects/" + created.value.id)
    {
      var draft := SubmittedDraft(title, description, category, tags, startDate, endDate, status, progress, user, now);
      var project := TestApi.ProjectsCreate(service, draft, now, in90Days);
      created := Some(project);
      success := true;
      redirect := Some("/projects/" + project.id);
      loading := false;
    }
  }
}
