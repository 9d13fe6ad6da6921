/** The confirmation screen of the entry form and the commands it sends (6_step_confirmation.go). */
module ConfirmStep {
  import opened Models
  import opened FormModel

  /** The button text. */
  function ConfirmLabel(editing: bool): (r: string)
    ensures editing <==> r == "Update"
    ensures !editing <==> r == "Create"
  {
    if editing then "Update" else "Create"
  }

  /** The values `submitTimeEntry` and `updateTimeEntry` hand to the client. */
  function Args(m: Form): (a: EntryArgs)
    ensures a.apiKey == m.apiKey && a.workspaceId == m.workspaceId
    ensures a.projectId == m.selectedProj.id && a.taskId == m.selectedTask.id
    ensures a.description == m.description.value
    ensures a.startTime == m.timeStart.value && a.endTime == m.timeEnd.value
    ensures a.date == m.date
  {
    EntryArgs(m.apiKey, m.workspaceId, m.selectedProj.id, m.selectedTask.id,
              m.description.value, m.timeStart.value, m.timeEnd.value, m.date)
  }

  /** `submitTimeEntry` when creating, `updateTimeEntry` with the entry's id when editing. */
  function SubmitCmd(m: Form): (c: Cmd)
    ensures c.UpdateTimeEntry? <==> m.editing
    ensures c.CreateTimeEntry? <==> !m.editing
    ensures c.UpdateTimeEntry? ==> c.entryId == m.selectedEntry.id && c.update == Args(m)
    ensures c.CreateTimeEntry? ==> c.create == Args(m)
  {
    if m.editing then UpdateTimeEntry(m.selectedEntry.id, Args(m)) else CreateTimeEntry(Args(m))
  }

  /** What the client call returns: the saved entry, or an error. */
  datatype ClientResult = Saved(entry: Entry) | ClientError(err: string)

  /** The message the command produces once the client has answered. */
  datatype Reply = ErrorMsg(err: string) | EntrySavedMsg(saved: Entry) | EntryUpdatedMsg(updated: Entry)

  /**
   * The body of the returned command: an error becomes `ErrorMsg`; a saved
   * entry becomes `EntrySavedMsg` after a create and `EntryUpdatedMsg` after
   * an update, carrying the entry the client returned.
   */
  function ReplyOf(c: Cmd, res: ClientResult): (r: Reply)
    requires c.CreateTimeEntry? || c.UpdateTimeEntry?
    ensures r.ErrorMsg? <==> res.ClientError?
    ensures r.ErrorMsg? ==> r.err == res.err
    ensures r.EntrySavedMsg? <==> c.CreateTimeEntry? && res.Saved?
    ensures r.EntryUpdatedMsg? <==> c.UpdateTimeEntry? && res.Saved?
    ensures r.EntrySavedMsg? ==> r.saved == res.entry
    ensures r.EntryUpdatedMsg? ==> r.updated == res.entry
  {
    match res
    case ClientError(e) => ErrorMsg(e)
    case Saved(e) => if c.CreateTimeEntry? then EntrySavedMsg(e) else EntryUpdatedMsg(e)
  }

  /** The button promises what the command does: "Update" exactly when an update is sent. */
  lemma LabelMatchesCommand(m: Form)
    ensures ConfirmLabel(m.editing) == "Update" <==> SubmitCmd(m).UpdateTimeEntry?
    ensures ConfirmLabel(m.editing) == "Create" <==> SubmitCmd(m).CreateTimeEntry?
  {
  }

  /** A successful save reports back the kind of save the form chose. */
  lemma SavedReplyMatchesMode(m: Form, e: Entry)
    ensures ReplyOf(SubmitCmd(m), Saved(e)) == if m.editing then EntryUpdatedMsg(e) else EntrySavedMsg(e)
  {
  }
}
