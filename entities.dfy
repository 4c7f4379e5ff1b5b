/**
 * The backend's entities as the components read them. Every optional
 * field is `None` when the JSON object lacks it. `docId` is the
 * document's `_id`, `id` its `id`.
 */
module Entities {
  import opened Common

  datatype Assignment = Assignment(
    docId: Option<string>,
    id: Option<string>,
    title: Option<string>,
    description: Option<string>,
    dueDate: Option<string>,
    status: Option<string>)

  /** A submission's `assignment` field: an id string, or the populated assignment document with its `_id`. */
  datatype AssignmentRef = RefId(ref: string) | RefDoc(refDocId: Option<string>)

  /** `createdAt` is a timestamp; dates that do not parse are not modelled. */
  datatype Submission = Submission(
    docId: Option<string>,
    assignment: Option<AssignmentRef>,
    assignmentId: Option<string>,
    content: string,
    fileUrl: Option<string>,
    createdAt: int)

  /** `a._id || a.id`: may still be falsy. */
  function AssignmentIdOf(a: Assignment): Option<string>
  {
    Or(a.docId, a.id)
  }

  /** The text JavaScript gives a possibly-undefined id in a template literal or as a property key. */
  function IdText(id: Option<string>): string
  {
    if id.Some? then id.value else "undefined"
  }
}
