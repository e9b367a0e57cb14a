/**
 * The state of the new-idea form (src/app/ideas/new/page.tsx): the
 * fields, the tag list, the error and success flags, and the idea the
 * service returned. The redirect that follows after a delay is recorded
 * as the path it will push.
 */
module NewIdeaPage {
  import opened Wrappers
  import opened Types
  import opened Js
  import TagEditor
  import TestApi

  const MissingFields := "请填写所有必填字段"

  /** `!title || !description || !category`. */
  predicate MissingRequired(title: string, description: string, category: string) {
    title == "" || description == "" || category == ""
  }

  /** The `Partial<Idea>` that handleSubmit sends to the service. */
  function SubmittedDraft(title: string, description: string, category: string, visibility: Visibility,
                          tags: seq<string>, user: Option<User>, now: string): (d: IdeaDraft)
    ensures d.title == Some(title) && d.description == Some(description) && d.category == Some(category)
    ensures d.visibility == Some(visibility) && d.tags == Some(tags) && d.userId == Some(UserIdOf(user))
    ensures d.collaborators.None?
  {
    IdeaDraft(Some(title), Some(description), Some(UserIdOf(user)), Some(category), Some(tags),
              Some(visibility), None, Some(0), Some(0), Some(CommentCount(0)), Some(now), Some(now))
  }

  /** The idea a valid submission receives: the form's fields, no engagement yet, owner user1 when nobody is signed in. */
  lemma SubmittedIdea(db: TestApi.Store, title: string, description: string, category: string, visibility: Visibility,
                      tags: seq<string>, user: Option<User>, now: string)
    requires TestApi.IdeaIds(db.ideas) == TestApi.SeedIdeaIds
    requires !MissingRequired(title, description, category)
    ensures var i := TestApi.IdeasCreate(db, SubmittedDraft(title, description, category, visibility, tags, user, now), now);
      i.title == title && i.description == description && i.category == category
      && i.visibility == Some(visibility) && i.tags == tags && i.collaborators == []
      && i.likes == 0 && i.views == 0 && i.comments == CommentCount(0)
      && i.userId == Some(if UserIdOf(user) == "" then "user1" else UserIdOf(user))
      && i.id == "idea7" && TestApi.IdeasGetById(db, i.id).None?
  {
    TestApi.CreatedIdeaNotFound(db, SubmittedDraft(title, description, category, visibility, tags, user, now), now);
  }

  class NewIdeaForm {
    /** The service's store the form submits to. */
    const service: TestApi.Store
    var title: string
    var description: string
    var category: string
    var visibility: Visibility
    var tags: seq<string>
    var tagInput: string
    var loading: bool
    var success: bool
    var error: Option<string>
    var created: Option<Idea>
    var redirect: Option<string>

    /** The empty form: public visibility, no tags. */
    constructor (service: TestApi.Store)
      ensures this.service == service
      ensures title == "" && description == "" && category == "" && visibility == Public
      ensures tags == [] && tagInput == "" && !loading && !success && error.None?
      ensures created.None? && redirect.None?
    {
      this.service := service;
      title, description, category := "", "", "";
      visibility := Public;
      tags, tagInput := [], "";
      loading, success := false, false;
      error, created, redirect := None, None, None;
    }

    /** The tag list and the input box satisfy the tag editor's guarantees. */
    predicate Valid()
      reads this
    {
      TagEditor.WellFormedTags(tags)
    }

    /** handleAddTag. */
    method AddTag()
      modifies this`tags, this`tagInput
      ensures (tags, tagInput) == TagEditor.AddTag(old(tags), old(tagInput))
      ensures old(Valid()) ==> Valid()
    {
      var r := TagEditor.AddTag(tags, tagInput);
      tags, tagInput := r.0, r.1;
    }

    /** handleDeleteTag. */
    method DeleteTag(tag: string)
      modifies this`tags
      ensures tags == TagEditor.DeleteTag(old(tags), tag)
      ensures old(Valid()) ==> Valid()
    {
      tags := TagEditor.DeleteTag(tags, tag);
    }

    /**
     * handleSubmit: a form missing a required field only shows the error;
     * otherwise the idea is created and the page is about to open it.
     */
    method Submit(user: Option<User>, now: string)
      modifies this`loading, this`error, this`success, this`created, this`redirect
      ensures MissingRequired(title, description, category) ==>
        error == Some(MissingFields) && success == old(success) && created == old(created)
        && redirect == old(redirect) && loading == old(loading)
      ensures !MissingRequired(title, description, category) ==>
        && created == Some(TestApi.IdeasCreate(service,
             SubmittedDraft(title, description, category, visibility, tags, user, now), now))
        && success && error.None? && !loading
        && redirect == Some("/ideas/" + created.value.id)
    {
      if MissingRequired(title, description, category) {
        error := Some(MissingFields);
        return;
      }
      loading := true;
      error := None;
      var idea := TestApi.IdeasCreate(service, SubmittedDraft(title, description, category, visibility, tags, user, now), now);
      created := Some(idea);
      success := true;
      redirect := Some("/ideas/" + idea.id);
      loading := false;
    }
  }
}
