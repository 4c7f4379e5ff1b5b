/**
 * The teacher dashboard: it loads the teacher's assignments (from the
 * teacher-scoped endpoint, falling back to the general one), derives the
 * status counts from the list, and runs the create/edit form, the
 * publish toggle, deletion and the submissions modal.
 */
module Teacher {
  import opened Common
  import opened LocalStorage
  import opened Http
  import opened Entities
  import opened Auth

  datatype Stats = Stats(total: nat, draft: nat, published: nat, completed: nat)

  /** The create/edit form. */
  datatype Form = Form(title: string, description: string, dueDate: string, status: string)

  const DefaultForm := Form("", "", "", "published")

  /** `list.filter((a) => a.status === status).length`. */
  function CountStatus(list: seq<Assignment>, status: string): (n: nat)
    ensures n <= |list|
    ensures n == 0 <==> forall i :: 0 <= i < |list| ==> list[i].status != Some(status)
  {
    if list == [] then 0
    else CountStatus(list[..|list| - 1], status) + (if list[|list| - 1].status == Some(status) then 1 else 0)
  }

  /** The positions of `list` holding an assignment with `status`. */
  function IndicesWith(list: seq<Assignment>, status: string): set<int>
  {
    set i | 0 <= i < |list| && list[i].status == Some(status)
  }

  /** The count is the number of positions with that status. */
  lemma {:induction false} CountIsIndicesWith(list: seq<Assignment>, status: string)
    ensures CountStatus(list, status) == |IndicesWith(list, status)|
  {
    if list != [] {
      var n := |list| - 1;
      var p := list[..n];
      CountIsIndicesWith(p, status);
      if list[n].status == Some(status) {
        assert IndicesWith(list, status) == IndicesWith(p, status) + {n};
      } else {
        assert IndicesWith(list, status) == IndicesWith(p, status);
      }
    }
  }

  /** The three status counts never add up to more than the list: an assignment has one status. */
  lemma {:induction false} CountsBounded(list: seq<Assignment>)
    ensures CountStatus(list, "draft") + CountStatus(list, "published") + CountStatus(list, "completed") <= |list|
  {
    if list != [] {
      CountsBounded(list[..|list| - 1]);
    }
  }

  /** The stats `applyList` derives from a list. */
  function StatsOf(list: seq<Assignment>): (s: Stats)
    ensures s.total == |list|
    ensures s.draft + s.published + s.completed <= s.total
  {
    CountsBounded(list);
    Stats(|list|, CountStatus(list, "draft"), CountStatus(list, "published"), CountStatus(list, "completed"))
  }

  /** Each count of the stats is the number of positions in the list holding that status. */
  lemma StatsCountPositions(list: seq<Assignment>)
    ensures StatsOf(list).draft == |IndicesWith(list, "draft")|
    ensures StatsOf(list).published == |IndicesWith(list, "published")|
    ensures StatsOf(list).completed == |IndicesWith(list, "completed")|
  {
    CountIsIndicesWith(list, "draft");
    CountIsIndicesWith(list, "published");
    CountIsIndicesWith(list, "completed");
  }

  /** The query string of a status filter; the filter can be read back from it. */
  function Query(filter: string): (q: string)
    ensures q == "" <==> filter == "all"
    ensures q != "" ==> |q| >= 8 && q[..8] == "?status=" && q[8..] == filter
  {
    if filter == "all" then "" else "?status=" + filter
  }

  function ScopedPath(teacherId: string, q: string): string
  {
    "/assignments/teacher/" + teacherId + q
  }

  function GeneralPath(q: string): string
  {
    "/assignments" + q
  }

  /** The scoped and the general endpoint are never the same request. */
  lemma ScopedIsNotGeneral(teacherId: string, q: string, q': string)
    requires q' == "" || q'[0] == '?'
    ensures ScopedPath(teacherId, q) != GeneralPath(q')
  {
    var s := ScopedPath(teacherId, q);
    var g := GeneralPath(q');
    assert s[12] == '/';
    if |g| > 12 {
      assert g[12] == q'[0];
    }
  }

  /** What the two endpoints would answer. */
  datatype LoadReplies = LoadReplies(scoped: Reply<seq<Assignment>>, general: Reply<seq<Assignment>>)

  datatype LoadOutcome = LoadOutcome(sent: seq<Request>, list: seq<Assignment>)

  /**
   * The load protocol: with a teacher id the scoped endpoint is tried
   * first; the general endpoint, with the same query, is called exactly
   * when there is no id or the scoped call fails; if the general call
   * fails too, the list is empty.
   */
  function TeacherLoad(teacherId: Option<string>, filter: string, r: LoadReplies): (o: LoadOutcome)
    ensures teacherId.Some? ==> |o.sent| >= 1 && o.sent[0] == GetRequest(ScopedPath(teacherId.value, Query(filter)))
    ensures GetRequest(GeneralPath(Query(filter))) in o.sent <==> teacherId.None? || r.scoped.Fail?
    ensures |o.sent| == (if teacherId.Some? && r.scoped.Fail? then 2 else 1)
    ensures teacherId.None? ==> o.sent == [GetRequest(GeneralPath(Query(filter)))]
    ensures teacherId.Some? && r.scoped.Ok? ==> o.list == r.scoped.value
    ensures teacherId.None? || r.scoped.Fail? ==> o.list == (if r.general.Ok? then r.general.value else [])
  {
    var q := Query(filter);
    var general := GetRequest(GeneralPath(q));
    var generalList := if r.general.Ok? then r.general.value else [];
    if teacherId.None? then
      LoadOutcome([general], generalList)
    else
      var scoped := GetRequest(ScopedPath(teacherId.value, q));
      ScopedIsNotGeneral(teacherId.value, q, q);
      if r.scoped.Ok? then LoadOutcome([scoped], r.scoped.value)
      else LoadOutcome([scoped, general], generalList)
  }

  /** When every endpoint tried fails, the dashboard shows no assignments and all counts are 0. */
  lemma AllFailedLoadIsEmpty(teacherId: Option<string>, filter: string, r: LoadReplies)
    requires r.general.Fail? && (teacherId.None? || r.scoped.Fail?)
    ensures TeacherLoad(teacherId, filter, r).list == []
    ensures StatsOf(TeacherLoad(teacherId, filter, r).list) == Stats(0, 0, 0, 0)
  {
  }

  /** `toggleStatus`'s new status: published becomes draft, anything else becomes published. */
  function ToggledStatus(status: Option<string>): (s: string)
    ensures s in {"draft", "published"}
    ensures s == "draft" <==> status == Some("published")
  {
    if status == Some("published") then "draft" else "published"
  }

  /** Toggling twice restores a draft or published status. */
  lemma ToggleTwice(s: string)
    requires s in {"draft", "published"}
    ensures ToggledStatus(Some(ToggledStatus(Some(s)))) == s
  {
  }

  /** `user?._id || user?.id || undefined`: the creator id added to a saved assignment. */
  function CreatedBy(user: Option<User>): (c: Option<string>)
    ensures c.None? || c.value != ""
    ensures user.None? ==> c.None?
    ensures user.Some? && Truthy(user.value.docId) ==> c == user.value.docId
    ensures user.Some? && !Truthy(user.value.docId) && Truthy(user.value.id) ==> c == user.value.id
    ensures user.Some? && !Truthy(user.value.docId) && !Truthy(user.value.id) ==> c.None?
  {
    if user.None? then None
    else
      var v := Or(user.value.docId, user.value.id);
      if Truthy(v) then v else None
  }

  /** The body of a save: the form's fields, plus `createdBy` only when the user has an id. */
  function SavePayload(form: Form, user: Option<User>): (b: Body)
    ensures b.AssignmentFields? && b.title == form.title && b.description == form.description
    ensures b.dueDate == form.dueDate && b.status == form.status
    ensures b.createdBy.Some? <==> user.Some? && (Truthy(user.value.docId) || Truthy(user.value.id))
    ensures b.createdBy == CreatedBy(user)
  {
    AssignmentFields(form.title, form.description, form.dueDate, form.status, CreatedBy(user))
  }

  /** A user the session store built has no id, so a save never carries `createdBy`. */
  lemma SessionSaveHasNoCreator(form: Form, s: Store)
    ensures SavePayload(form, Rehydrate(s)).createdBy.None?
  {
  }

  /** The one write a save issues: a PUT of the edited assignment when `editingId` is truthy, else a POST. */
  function SaveRequest(editingId: Option<string>, form: Form, user: Option<User>): (req: Request)
    ensures req.body == SavePayload(form, user)
    ensures Truthy(editingId) ==> req.verb == Put && req.path == "/assignments/" + editingId.value
    ensures !Truthy(editingId) ==> req.verb == Post && req.path == "/assignments"
  {
    if Truthy(editingId) then Request(Put, "/assignments/" + editingId.value, SavePayload(form, user))
    else Request(Post, "/assignments", SavePayload(form, user))
  }

  /** The local validation that stops a save: the title is empty or white space only. */
  predicate BlankTitle(title: string)
  {
    AllWhitespace(title)
  }

  /** The validation is exactly the handler's test `!form.title || form.title.trim() === ""`. */
  lemma BlankTitleIsTrimTest(title: string)
    ensures BlankTitle(title) <==> (title == "" || Trim(title) == "")
  {
  }

  /**
   * The form `openEdit` fills from an assignment: missing text fields
   * become "", a missing status becomes "draft"; `isoDay` stands for the
   * `yyyy-mm-dd` rendering of the due date, used only when there is one.
   */
  function EditForm(a: Assignment, isoDay: string): (f: Form)
    ensures f.title == OrElse(a.title, "") && f.description == OrElse(a.description, "")
    ensures !Truthy(a.dueDate) ==> f.dueDate == ""
    ensures Truthy(a.dueDate) ==> f.dueDate == isoDay
    ensures !Truthy(a.status) ==> f.status == "draft"
    ensures Truthy(a.status) ==> f.status == a.status.value
  {
    Form(OrElse(a.title, ""), OrElse(a.description, ""),
         if Truthy(a.dueDate) then isoDay else "", OrElse(a.status, "draft"))
  }

  class TeacherDashboard {
    const user: Option<User>
    var assignments: seq<Assignment>
    var stats: Stats
    var filter: string
    var showCreate: bool
    var loading: bool
    var form: Form
    var editingId: Option<string>
    var submissionsModalOpen: bool
    var currentAssignmentForSubs: Option<Assignment>
    var submissionsForAssignment: seq<Submission>
    var loadingSubmissions: bool
    /** The `alert` messages shown, in order. */
    var alerts: seq<string>

    /** The stats are always the ones derived from the current list. */
    ghost predicate Valid()
      reads this
    {
      stats == StatsOf(assignments)
    }

    /** The dashboard's first render. */
    constructor (user: Option<User>)
      ensures this.user == user
      ensures assignments == [] && stats == Stats(0, 0, 0, 0) && filter == "all"
      ensures !showCreate && !loading && form == DefaultForm && editingId.None?
      ensures !submissionsModalOpen && currentAssignmentForSubs.None? && submissionsForAssignment == []
      ensures !loadingSubmissions && alerts == []
      ensures Valid()
    {
      this.user := user;
      assignments := [];
      stats := Stats(0, 0, 0, 0);
      filter := "all";
      showCreate := false;
      loading := false;
      form := DefaultForm;
      editingId := None;
      submissionsModalOpen := false;
      currentAssignmentForSubs := None;
      submissionsForAssignment := [];
      loadingSubmissions := false;
      alerts := [];
    }

    /** `applyList`: the list is shown and the stats are recounted from it. */
    method ApplyList(list: seq<Assignment>)
      modifies this`assignments, this`stats
      ensures assignments == list && stats == StatsOf(list)
      ensures Valid()
    {
      assignments := list;
      var total := |list|;
      var draft := CountStatus(list, "draft");
      var published := CountStatus(list, "published");
      var completed := CountStatus(list, "completed");
      stats := Stats(total, draft, published, completed);
    }

    /** `loadAssignments`, with `storage` the `localStorage` it reads: the list follows the load protocol; loading ends false. */
    method LoadAssignments(storage: Store, r: LoadReplies) returns (sent: seq<Request>)
      modifies this`assignments, this`stats, this`loading
      ensures var o := TeacherLoad(ResolveUserId(user, storage), filter, r);
              sent == o.sent && assignments == o.list
      ensures Valid() && !loading
    {
      loading := true;
      var teacherId := ResolveUserId(user, storage);
      var q := Query(filter);
      sent := [];
      if teacherId.Some? {
        sent := sent + [GetRequest(ScopedPath(teacherId.value, q))];
        if r.scoped.Ok? {
          ApplyList(r.scoped.value);
          loading := false;
          return;
        }
      }
      sent := sent + [GetRequest(GeneralPath(q))];
      match r.general {
        case Ok(list) => ApplyList(list);
        case Fail(_) => ApplyList([]);
      }
      loading := false;
    }

    /**
     * `handleCreate`: a blank title only raises an alert; any other title
     * goes on to `Save`.
     */
    method HandleCreate(storage: Store, save: Reply<()>, reload: LoadReplies) returns (sent: seq<Request>)
      requires Valid()
      modifies this`assignments, this`stats, this`loading, this`editingId, this`form, this`showCreate, this`alerts
      ensures Valid()
      ensures BlankTitle(old(form.title)) ==>
                && sent == [] && alerts == old(alerts) + ["Title required"]
                && assignments == old(assignments) && loading == old(loading) && editingId == old(editingId)
                && form == old(form) && showCreate == old(showCreate)
      ensures !BlankTitle(old(form.title)) ==>
                && |sent| >= 1 && !loading
                && sent[0] == SaveRequest(old(editingId), old(form), user)
                && (save.Ok? ==>
                      var o := TeacherLoad(ResolveUserId(user, storage), filter, reload);
                      && sent[1..] == o.sent && assignments == o.list
                      && form == DefaultForm && !showCreate && alerts == old(alerts)
                      && editingId == (if Truthy(old(editingId)) then None else old(editingId)))
                && (save.Fail? ==>
                      && sent == [sent[0]] && assignments == old(assignments)
                      && form == old(form) && showCreate == old(showCreate) && editingId == old(editingId)
                      && alerts == old(alerts) + ["Save failed: " + MessageOrErrorOr(save.error, "Save failed")])
    {
      if BlankTitle(form.title) {
        alerts := alerts + ["Title required"];
        return [];
      }
      sent := Save(storage, save, reload);
    }

    /**
     * The `try` block of `handleCreate`: one PUT (when editing, which also
     * ends the editing) or POST; on success the list is reloaded, the form
     * reset and the modal hidden; on failure the form, the modal and the
     * list stay and the error is alerted; loading ends false.
     */
    method Save(storage: Store, save: Reply<()>, reload: LoadReplies) returns (sent: seq<Request>)
      requires Valid()
      modifies this`assignments, this`stats, this`loading, this`editingId, this`form, this`showCreate, this`alerts
      ensures Valid()
      ensures |sent| >= 1 && !loading
      ensures sent[0] == SaveRequest(old(editingId), old(form), user)
      ensures save.Ok? ==> sent == [sent[0]] + TeacherLoad(ResolveUserId(user, storage), filter, reload).sent
      ensures save.Ok? ==> assignments == TeacherLoad(ResolveUserId(user, storage), filter, reload).list
      ensures save.Ok? ==> form == DefaultForm && !showCreate && alerts == old(alerts)
      ensures save.Ok? ==> editingId == (if Truthy(old(editingId)) then None else old(editingId))
      ensures save.Fail? ==>
                && sent == [sent[0]] && assignments == old(assignments)
                && form == old(form) && showCreate == old(showCreate) && editingId == old(editingId)
                && alerts == old(alerts) + ["Save failed: " + MessageOrErrorOr(save.error, "Save failed")]
    {
      loading := true;
      sent := [SaveRequest(editingId, form, user)];
      match save {
        case Ok(_) =>
          editingId := if Truthy(editingId) then None else editingId;
          var reloaded := LoadAssignments(storage, reload);
          sent := sent + reloaded;
          form := DefaultForm;
          showCreate := false;
        case Fail(e) =>
          alerts := alerts + ["Save failed: " + MessageOrErrorOr(e, "Save failed")];
      }
      loading := false;
    }

    /**
     * `deleteAssignment(id)`: a declined confirm sends nothing. Otherwise
     * one DELETE; success alerts and reloads, failure alerts the error;
     * loading ends false.
     */
    method DeleteAssignment(id: Option<string>, confirmed: bool, storage: Store, del: Reply<()>, reload: LoadReplies)
      returns (sent: seq<Request>)
      requires Valid()
      modifies this`assignments, this`stats, this`loading, this`alerts
      ensures Valid()
      ensures !confirmed ==> sent == [] && unchanged(this)
      ensures confirmed ==>
                && |sent| >= 1 && sent[0] == Request(Delete, "/assignments/" + IdText(id), NoBody) && !loading
                && (del.Ok? ==>
                      && sent[1..] == TeacherLoad(ResolveUserId(user, storage), filter, reload).sent
                      && assignments == TeacherLoad(ResolveUserId(user, storage), filter, reload).list
                      && alerts == old(alerts) + ["Assignment deleted"])
                && (del.Fail? ==>
                      && sent == [sent[0]] && assignments == old(assignments)
                      && alerts == old(alerts) + [MessageOr(del.error, "Delete failed")])
    {
      if !confirmed {
        return [];
      }
      loading := true;
      sent := [Request(Delete, "/assignments/" + IdText(id), NoBody)];
      match del {
        case Ok(_) =>
          alerts := alerts + ["Assignment deleted"];
          var reloaded := LoadAssignments(storage, reload);
          sent := sent + reloaded;
        case Fail(e) =>
          alerts := alerts + [MessageOr(e, "Delete failed")];
      }
      loading := false;
    }

    /** `openEdit(a)`: editing `a`'s id, with the form filled from `a`, in a shown modal. */
    method OpenEdit(a: Assignment, isoDay: string)
      modifies this`editingId, this`form, this`showCreate
      ensures editingId == AssignmentIdOf(a) && form == EditForm(a, isoDay) && showCreate
    {
      editingId := AssignmentIdOf(a);
      form := EditForm(a, isoDay);
      showCreate := true;
    }

    /**
     * `toggleStatus(a)`: a declined confirm sends nothing. Otherwise one
     * PUT of the toggled status only; success reloads, failure alerts the
     * error; loading ends false.
     */
    method ToggleStatus(a: Assignment, confirmed: bool, storage: Store, put: Reply<()>, reload: LoadReplies)
      returns (sent: seq<Request>)
      requires Valid()
      modifies this`assignments, this`stats, this`loading, this`alerts
      ensures Valid()
      ensures !confirmed ==> sent == [] && unchanged(this)
      ensures confirmed ==>
                && |sent| >= 1 && !loading
                && sent[0] == Request(Put, "/assignments/" + IdText(AssignmentIdOf(a)), StatusChange(ToggledStatus(a.status)))
                && (put.Ok? ==>
                      && sent[1..] == TeacherLoad(ResolveUserId(user, storage), filter, reload).sent
                      && assignments == TeacherLoad(ResolveUserId(user, storage), filter, reload).list
                      && alerts == old(alerts))
                && (put.Fail? ==>
                      && sent == [sent[0]] && assignments == old(assignments)
                      && alerts == old(alerts) + [MessageOr(put.error, "Could not change status")])
    {
      var newStatus := ToggledStatus(a.status);
      if !confirmed {
        return [];
      }
      loading := true;
      sent := [Request(Put, "/assignments/" + IdText(AssignmentIdOf(a)), StatusChange(newStatus))];
      match put {
        case Ok(_) =>
          var reloaded := LoadAssignments(storage, reload);
          sent := sent + reloaded;
        case Fail(e) =>
          alerts := alerts + [MessageOr(e, "Could not change status")];
      }
      loading := false;
    }

    /** `fetchSubmissions(id)`: one GET; the modal's list is the answer, or empty on failure. */
    method FetchSubmissions(assignmentId: Option<string>, reply: Reply<seq<Submission>>) returns (sent: seq<Request>)
      modifies this`submissionsForAssignment, this`loadingSubmissions
      ensures sent == [GetRequest("/submissions/assignment/" + IdText(assignmentId))]
      ensures submissionsForAssignment == (if reply.Ok? then reply.value else [])
      ensures !loadingSubmissions
    {
      loadingSubmissions := true;
      sent := [GetRequest("/submissions/assignment/" + IdText(assignmentId))];
      match reply {
        case Ok(list) => submissionsForAssignment := list;
        case Fail(_) => submissionsForAssignment := [];
      }
      loadingSubmissions := false;
    }

    /** `openSubmissionsModal(a)`: the modal opens on `a` and fetches its submissions. */
    method OpenSubmissionsModal(a: Assignment, reply: Reply<seq<Submission>>) returns (sent: seq<Request>)
      modifies this`currentAssignmentForSubs, this`submissionsForAssignment, this`submissionsModalOpen,
               this`loadingSubmissions
      ensures currentAssignmentForSubs == Some(a) && submissionsModalOpen
      ensures sent == [GetRequest("/submissions/assignment/" + IdText(AssignmentIdOf(a)))]
      ensures submissionsForAssignment == (if reply.Ok? then reply.value else [])
      ensures !loadingSubmissions
    {
      currentAssignmentForSubs := Some(a);
      submissionsForAssignment := [];
      submissionsModalOpen := true;
      sent := FetchSubmissions(AssignmentIdOf(a), reply);
    }

    /** `closeSubmissionsModal`: closed, with no assignment and no submissions. */
    method CloseSubmissionsModal()
      modifies this`currentAssignmentForSubs, this`submissionsForAssignment, this`submissionsModalOpen
      ensures !submissionsModalOpen && currentAssignmentForSubs.None? && submissionsForAssignment == []
    {
      submissionsModalOpen := false;
      currentAssignmentForSubs := None;
      submissionsForAssignment := [];
    }
  }
}
