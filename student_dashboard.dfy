/**
 * The student dashboard: it loads the visible assignments and the
 * student's submissions, projects the submissions onto a map from
 * assignment id to the latest submission, and runs the submission
 * modal and its submit flow.
 */
module Student {
  import opened Common
  import opened LocalStorage
  import opened Http
  import opened Entities
  import opened Auth

  /** The property key JavaScript makes of an object used as a key. */
  const ObjectKey := "[object Object]"

  /**
   * The key a submission is filed under,
   * `s.assignment ? (s.assignment._id || s.assignment) : s.assignmentId || s.assignment`,
   * or `None` when that value is falsy and the submission is skipped.
   * A populated assignment without a truthy `_id` is itself the key and
   * is coerced to "[object Object]".
   */
  function AssignmentKey(s: Submission): (k: Option<string>)
    ensures k.None? || k.value != ""
    ensures s.assignment.Some? && s.assignment.value.RefDoc? ==> k.Some?
    ensures s.assignment.Some? && s.assignment.value.RefId? && s.assignment.value.ref != "" ==>
              k == Some(s.assignment.value.ref)
    ensures s.assignment == Some(RefId("")) ==> k == (if Truthy(s.assignmentId) then s.assignmentId else None)
    ensures s.assignment.Some? && s.assignment.value.RefDoc? && Truthy(s.assignment.value.refDocId) ==>
              k == s.assignment.value.refDocId
    ensures s.assignment.Some? && s.assignment.value.RefDoc? && !Truthy(s.assignment.value.refDocId) ==>
              k == Some(ObjectKey)
    ensures s.assignment.None? ==> k == (if Truthy(s.assignmentId) then s.assignmentId else None)
  {
    match s.assignment
    case Some(RefDoc(d)) => if Truthy(d) then d else Some(ObjectKey)
    case Some(RefId(x)) =>
      if x != "" then Some(x) else if Truthy(s.assignmentId) then s.assignmentId else None
    case None => if Truthy(s.assignmentId) then s.assignmentId else None
  }

  type LatestMap = map<string, Submission>

  /** One iteration of the reducer: a keyed submission replaces the entry only when there is none or it is strictly newer. */
  function Step(m: LatestMap, s: Submission): LatestMap
  {
    match AssignmentKey(s)
    case None => m
    case Some(k) => if k !in m || s.createdAt > m[k].createdAt then m[k := s] else m
  }

  /** The reducer folded over `subs` from the first element to the last. */
  function Latest(subs: seq<Submission>): LatestMap
  {
    if subs == [] then map[] else Step(Latest(subs[..|subs| - 1]), subs[|subs| - 1])
  }

  /** The ids the submissions resolve to, skipped submissions left out. */
  function KeysOf(subs: seq<Submission>): set<string>
  {
    set i | 0 <= i < |subs| && AssignmentKey(subs[i]).Some? :: AssignmentKey(subs[i]).value
  }

  /**
   * `subs[i]` is the entry the projection should hold for `k`: it is filed
   * under `k`, no submission filed under `k` is newer, and every earlier
   * one filed under `k` is strictly older (the first of equally new ones).
   */
  ghost predicate LatestAt(subs: seq<Submission>, k: string, i: int)
  {
    && 0 <= i < |subs|
    && AssignmentKey(subs[i]) == Some(k)
    && (forall j :: 0 <= j < |subs| && AssignmentKey(subs[j]) == Some(k) ==> subs[j].createdAt <= subs[i].createdAt)
    && (forall j :: 0 <= j < i && AssignmentKey(subs[j]) == Some(k) ==> subs[j].createdAt < subs[i].createdAt)
  }

  /** The projection's keys are exactly the ids the submissions resolve to. */
  lemma {:induction false} LatestKeys(subs: seq<Submission>)
    ensures Latest(subs).Keys == KeysOf(subs)
  {
    if subs != [] {
      var p := subs[..|subs| - 1];
      LatestKeys(p);
      assert forall i :: 0 <= i < |p| ==> p[i] == subs[i];
      var last := subs[|subs| - 1];
      if AssignmentKey(last).Some? {
        assert KeysOf(subs) == KeysOf(p) + {AssignmentKey(last).value};
      } else {
        assert KeysOf(subs) == KeysOf(p);
      }
    }
  }

  /** The index of the submission the projection holds for `k`: the latest, first-seen one filed under `k`. */
  lemma {:induction false} LatestIndex(subs: seq<Submission>, k: string) returns (i: int)
    requires k in Latest(subs)
    ensures LatestAt(subs, k, i) && Latest(subs)[k] == subs[i]
  {
    var n := |subs| - 1;
    var p := subs[..n];
    var last := subs[n];
    assert Latest(subs) == Step(Latest(p), last);
    assert forall j :: 0 <= j < n ==> p[j] == subs[j];
    if AssignmentKey(last) == Some(k) && (k !in Latest(p) || last.createdAt > Latest(p)[k].createdAt) {
      i := n;
      if k in Latest(p) {
        var i' := LatestIndex(p, k);
      } else {
        // No earlier submission is filed under `k`, so `last` is the first one.
        LatestKeys(p);
      }
    } else {
      i := LatestIndex(p, k);
    }
  }

  /** Every entry of the projection is the latest, first-seen submission for its id. */
  lemma LatestEntries(subs: seq<Submission>)
    ensures forall k :: k in Latest(subs) ==> exists i :: LatestAt(subs, k, i) && Latest(subs)[k] == subs[i]
  {
    forall k | k in Latest(subs)
      ensures exists i :: LatestAt(subs, k, i) && Latest(subs)[k] == subs[i]
    {
      var i := LatestIndex(subs, k);
    }
  }

  /** At most one index is the latest, first-seen submission for an id, so the projection is well determined. */
  lemma LatestAtUnique(subs: seq<Submission>, k: string, i: int, j: int)
    requires LatestAt(subs, k, i) && LatestAt(subs, k, j)
    ensures i == j
  {
  }

  /** The `forEach` of `loadAll` that builds the map from the submissions list. */
  method BuildSubmissionsMap(subs: seq<Submission>) returns (m: LatestMap)
    ensures m == Latest(subs)
    ensures m.Keys == KeysOf(subs)
    ensures forall k :: k in m ==> exists i :: LatestAt(subs, k, i) && m[k] == subs[i]
  {
    m := map[];
    var i := 0;
    while i < |subs|
      invariant 0 <= i <= |subs|
      invariant m == Latest(subs[..i])
    {
      var s := subs[i];
      assert subs[..i + 1][..i] == subs[..i];
      var aid := AssignmentKey(s);
      if aid.Some? {
        if aid.value !in m || s.createdAt > m[aid.value].createdAt {
          m := m[aid.value := s];
        }
      }
      i := i + 1;
    }
    assert subs[..|subs|] == subs;
    LatestKeys(subs);
    LatestEntries(subs);
  }

  /** What one `loadAll` issues and leaves behind. */
  datatype LoadOutcome = LoadOutcome(sent: seq<Request>, assignments: seq<Assignment>, byAssignment: LatestMap)

  function SubmissionsPath(studentId: string): string
  {
    "/submissions/student/" + studentId
  }

  /**
   * The load policy: the assignments are fetched first and a failure
   * empties both the list and the map; the submissions are fetched only
   * for a known student, and a failure there only empties the map.
   */
  function StudentLoad(studentId: Option<string>, assignmentsReply: Reply<seq<Assignment>>,
                       submissionsReply: Reply<seq<Submission>>): (o: LoadOutcome)
    ensures |o.sent| >= 1 && o.sent[0] == GetRequest("/assignments")
    ensures assignmentsReply.Fail? ==> o.sent == [GetRequest("/assignments")] && o.assignments == [] && o.byAssignment == map[]
    ensures assignmentsReply.Ok? ==> o.assignments == assignmentsReply.value
    ensures assignmentsReply.Ok? ==>
              o.sent == [GetRequest("/assignments")]
                        + (if studentId.Some? then [GetRequest(SubmissionsPath(studentId.value))] else [])
    ensures (studentId.None? || submissionsReply.Fail?) ==> o.byAssignment == map[]
    ensures assignmentsReply.Ok? && studentId.Some? && submissionsReply.Ok? ==>
              o.byAssignment.Keys == KeysOf(submissionsReply.value)
              && forall k :: k in o.byAssignment ==>
                   exists i :: LatestAt(submissionsReply.value, k, i) && o.byAssignment[k] == submissionsReply.value[i]
  {
    match assignmentsReply
    case Fail(_) => LoadOutcome([GetRequest("/assignments")], [], map[])
    case Ok(list) =>
      if studentId.None? then
        LoadOutcome([GetRequest("/assignments")], list, map[])
      else
        var subs := if submissionsReply.Ok? then submissionsReply.value else [];
        LatestKeys(subs);
        LatestEntries(subs);
        LoadOutcome([GetRequest("/assignments"), GetRequest(SubmissionsPath(studentId.value))], list, Latest(subs))
  }

  /** The outcome of the submit handler's guards. */
  datatype SubmitDecision = NoAssignment | NotLoggedIn | AlreadySubmitted | Send(assignmentId: Option<string>)

  /**
   * The guards of `handleSubmitAssignment`, in order: no current
   * assignment; neither a student id nor a stored token; an entry for the
   * assignment already in the map. Only past all three is a request made.
   */
  function DecideSubmit(current: Option<Assignment>, studentId: Option<string>, storage: Store,
                        byAssignment: LatestMap): (d: SubmitDecision)
    ensures d == NoAssignment <==> current.None?
    ensures d == NotLoggedIn <==> current.Some? && studentId.None? && !Truthy(GetItem(storage, "token"))
    ensures d == AlreadySubmitted <==>
              current.Some? && (studentId.Some? || Truthy(GetItem(storage, "token")))
              && IdText(AssignmentIdOf(current.value)) in byAssignment
    ensures d.Send? ==> current.Some? && d.assignmentId == AssignmentIdOf(current.value)
                        && IdText(d.assignmentId) !in byAssignment
  {
    if current.None? then NoAssignment
    else if studentId.None? && !Truthy(GetItem(storage, "token")) then NotLoggedIn
    else
      var assignmentId := AssignmentIdOf(current.value);
      if IdText(assignmentId) in byAssignment then AlreadySubmitted else Send(assignmentId)
  }

  /** Submitting for an assignment already in the projection never reaches the network. */
  lemma DuplicateNeverSent(current: Assignment, studentId: Option<string>, storage: Store, byAssignment: LatestMap)
    requires IdText(AssignmentIdOf(current)) in byAssignment
    ensures !DecideSubmit(Some(current), studentId, storage, byAssignment).Send?
  {
  }

  class StudentDashboard {
    const studentId: Option<string>
    var assignments: seq<Assignment>
    var submissionsMap: LatestMap
    var loading: bool
    var subModalOpen: bool
    var currentAssignment: Option<Assignment>
    var submissionContent: string
    var submitting: bool
    var viewingSubmission: Option<Submission>
    /** The `alert` messages shown, in order. */
    var alerts: seq<string>

    /** The modal is never in view mode and create mode at once. */
    ghost predicate Valid()
      reads this
    {
      !(currentAssignment.Some? && viewingSubmission.Some?)
    }

    /** The dashboard's first render for a session user and storage. */
    constructor (user: Option<User>, storage: Store)
      ensures studentId == ResolveUserId(user, storage)
      ensures assignments == [] && submissionsMap == map[] && !loading
      ensures !subModalOpen && currentAssignment.None? && submissionContent == ""
      ensures !submitting && viewingSubmission.None? && alerts == []
      ensures Valid()
    {
      studentId := ResolveUserId(user, storage);
      assignments := [];
      submissionsMap := map[];
      loading := false;
      subModalOpen := false;
      currentAssignment := None;
      submissionContent := "";
      submitting := false;
      viewingSubmission := None;
      alerts := [];
    }

    /** `loadAll`: the list and the map follow the load policy, and loading ends false. */
    method LoadAll(assignmentsReply: Reply<seq<Assignment>>, submissionsReply: Reply<seq<Submission>>)
      returns (sent: seq<Request>)
      modifies this`assignments, this`submissionsMap, this`loading
      ensures var o := StudentLoad(studentId, assignmentsReply, submissionsReply);
              sent == o.sent && assignments == o.assignments && submissionsMap == o.byAssignment
      ensures !loading
    {
      loading := true;
      sent := [GetRequest("/assignments")];
      match assignmentsReply {
        case Fail(_) =>
          assignments := [];
          submissionsMap := map[];
        case Ok(list) =>
          var subs := [];
          if studentId.Some? {
            sent := sent + [GetRequest(SubmissionsPath(studentId.value))];
            match submissionsReply {
              case Ok(fetched) => subs := fetched;
              case Fail(_) => subs := [];
            }
          }
          var m := BuildSubmissionsMap(subs);
          assignments := list;
          submissionsMap := m;
      }
      loading := false;
    }

    /** `openSubmissionModal`: create mode for `a`, with empty text. */
    method OpenSubmissionModal(a: Assignment)
      modifies this`currentAssignment, this`submissionContent, this`viewingSubmission, this`subModalOpen
      ensures currentAssignment == Some(a) && submissionContent == "" && viewingSubmission == None && subModalOpen
      ensures Valid()
    {
      currentAssignment := Some(a);
      submissionContent := "";
      viewingSubmission := None;
      subModalOpen := true;
    }

    /** `openViewSubmission`: view mode for `s`, with no current assignment. */
    method OpenViewSubmission(s: Submission)
      modifies this`currentAssignment, this`submissionContent, this`viewingSubmission, this`subModalOpen
      ensures viewingSubmission == Some(s) && subModalOpen && currentAssignment == None && submissionContent == ""
      ensures Valid()
    {
      viewingSubmission := Some(s);
      subModalOpen := true;
      currentAssignment := None;
      submissionContent := "";
    }

    /** `closeSubmissionModal`: all four modal fields are reset. */
    method CloseSubmissionModal()
      modifies this`currentAssignment, this`submissionContent, this`viewingSubmission, this`subModalOpen
      ensures !subModalOpen && currentAssignment == None && submissionContent == "" && viewingSubmission == None
      ensures Valid()
    {
      subModalOpen := false;
      currentAssignment := None;
      submissionContent := "";
      viewingSubmission := None;
    }

    /**
     * `handleSubmitAssignment`, with `storage` the `localStorage` it reads:
     * the guards decide first; a refused submit sends nothing, and a
     * duplicate also closes the modal. Otherwise one `POST /submissions`;
     * on success the dashboard reloads and the modal closes, on failure
     * the error is alerted and everything else stays as it was.
     */
    method HandleSubmitAssignment(storage: Store, postReply: Reply<()>,
                                  assignmentsReply: Reply<seq<Assignment>>, submissionsReply: Reply<seq<Submission>>)
      returns (sent: seq<Request>)
      requires Valid()
      modifies this
      ensures Valid()
      ensures var d := DecideSubmit(old(currentAssignment), studentId, storage, old(submissionsMap));
              match d
              case NoAssignment =>
                sent == [] && unchanged(this)
              case NotLoggedIn =>
                && sent == [] && alerts == old(alerts) + ["You must be logged in to submit."]
                && assignments == old(assignments) && submissionsMap == old(submissionsMap)
                && subModalOpen == old(subModalOpen) && currentAssignment == old(currentAssignment)
                && submissionContent == old(submissionContent) && viewingSubmission == old(viewingSubmission)
                && submitting == old(submitting) && loading == old(loading)
              case AlreadySubmitted =>
                && sent == [] && alerts == old(alerts) + ["You have already submitted this assignment."]
                && assignments == old(assignments) && submissionsMap == old(submissionsMap)
                && !subModalOpen && currentAssignment.None? && submissionContent == "" && viewingSubmission.None?
                && submitting == old(submitting) && loading == old(loading)
              case Send(assignmentId) =>
                && |sent| >= 1
                && sent[0] == Request(Post, "/submissions", NewSubmission(assignmentId, old(submissionContent)))
                && !submitting
                && (postReply.Ok? ==>
                      var o := StudentLoad(studentId, assignmentsReply, submissionsReply);
                      && sent == [sent[0]] + o.sent
                      && assignments == o.assignments && submissionsMap == o.byAssignment && !loading
                      && alerts == old(alerts) + ["Submitted successfully"]
                      && !subModalOpen && currentAssignment.None? && submissionContent == "" && viewingSubmission.None?)
                && (postReply.Fail? ==>
                      && sent == [sent[0]]
                      && alerts == old(alerts) + [MessageOrErrorOr(postReply.error, "Submit failed")]
                      && assignments == old(assignments) && submissionsMap == old(submissionsMap)
                      && loading == old(loading)
                      && subModalOpen == old(subModalOpen) && currentAssignment == old(currentAssignment)
                      && submissionContent == old(submissionContent) && viewingSubmission == old(viewingSubmission))
    {
      sent := [];
      if currentAssignment.None? {
        return;
      }
      if studentId.None? && !Truthy(GetItem(storage, "token")) {
        alerts := alerts + ["You must be logged in to submit."];
        return;
      }
      var assignmentId := AssignmentIdOf(currentAssignment.value);
      if IdText(assignmentId) in submissionsMap {
        alerts := alerts + ["You have already submitted this assignment."];
        CloseSubmissionModal();
        return;
      }
      submitting := true;
      var post := Request(Post, "/submissions", NewSubmission(assignmentId, submissionContent));
      sent := [post];
      match postReply {
        case Ok(_) =>
          var reloaded := LoadAll(assignmentsReply, submissionsReply);
          sent := sent + reloaded;
          alerts := alerts + ["Submitted successfully"];
          CloseSubmissionModal();
        case Fail(e) =>
          alerts := alerts + [MessageOrErrorOr(e, "Submit failed")];
      }
      submitting := false;
    }

    /**
     * The header's "Sign Out": `logout()`, then the "token" and "userId"
     * keys removed again directly, then a full navigation to "/login".
     */
    method SignOut(auth: AuthProvider) returns (location: string)
      modifies auth
      ensures auth.storage == old(auth.storage) - (SessionKeys + {"userId"})
      ensures auth.user == None
      ensures location == "/login"
    {
      auth.Logout();
      auth.storage := RemoveItem(auth.storage, TokenKey);
      auth.storage := RemoveItem(auth.storage, "userId");
      location := "/login";
    }
  }
}
