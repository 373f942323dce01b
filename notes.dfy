/** The notes tool's `execute` action dispatch (src/tools/notes.ts). The
    language-model call is the opaque `analyze(notes, query)`. */
module Notes {
  import opened Wrappers

  /** `z.enum(["read", "update"])` */
  datatype Action = Read | Update

  /** The record `execute` resolves with: a read carries the analysis, the
      other two outcomes a message. */
  datatype NotesResult<A> = NotesResult(notes: string, analysis: Option<A>, message: Option<string>, updated: bool)

  const UpdatedMessage := "Notes have been updated successfully."
  const NoActionMessage := "No valid action specified or missing required parameters."

  /** `execute({query, action, updatedContent})` for the notes `notesData`. */
  function Execute<A>(notesData: string, query: string, action: Action, updatedContent: Option<string>,
                      analyze: (string, string) -> A): (r: NotesResult<A>)
    ensures r.updated <==> action.Update? && updatedContent.Some? && updatedContent.value != ""
    ensures r.updated ==> r.notes == updatedContent.value && r.message == Some(UpdatedMessage)
    ensures action.Read? ==> r == NotesResult(notesData, Some(analyze(notesData, query)), None, false)
    ensures action.Update? && !r.updated ==> r == NotesResult(notesData, None, Some(NoActionMessage), false)
    ensures r.notes == notesData || (updatedContent.Some? && r.notes == updatedContent.value)
  {
    if action.Read? then NotesResult(notesData, Some(analyze(notesData, query)), None, false)
    else if updatedContent.Some? && updatedContent.value != "" then NotesResult(updatedContent.value, None, Some(UpdatedMessage), true)
    else NotesResult(notesData, None, Some(NoActionMessage), false)
  }

  /** Only a read consults the model; an update's outcome does not depend on
      it. */
  lemma UpdateIgnoresModel<A>(notesData: string, query: string, updatedContent: Option<string>,
                              f: (string, string) -> A, g: (string, string) -> A)
    ensures Execute(notesData, query, Update, updatedContent, f) == Execute(notesData, query, Update, updatedContent, g)
  {
  }

  /** Applying an update and then reading analyses the new notes. */
  lemma ReadAfterUpdate<A>(notesData: string, query: string, content: string, analyze: (string, string) -> A)
    requires content != ""
    ensures var u := Execute(notesData, query, Update, Some(content), analyze);
      Execute(u.notes, query, Read, None, analyze).analysis == Some(analyze(content, query))
  {
  }
}
