/** The Note schema of models/Note.js: the document, its `required` rules
    and the pre-save hook that stamps `updatedAt`. */
module NoteModel {
  import opened Common

  /** One note. `summary` is optional in the schema; `tags` is an ordered
      list of strings. */
  datatype Note = Note(
    user: UserId,
    subject: string,
    title: string,
    content: string,
    summary: Option<string>,
    tags: seq<string>,
    createdAt: Time,
    updatedAt: Time)

  /** The schema's rules: `user`, `subject`, `title` and `content` are
      required (non-empty strings); `summary` and `tags` are not. */
  predicate Valid(n: Note) {
    Filled(n.subject) && Filled(n.title) && Filled(n.content)
  }

  /** The summary and the tags never decide validity. */
  lemma ValidIgnoresSummaryAndTags(n: Note, summary: Option<string>, tags: seq<string>)
    ensures Valid(n.(summary := summary, tags := tags)) <==> Valid(n)
  {
  }

  /** The pre-save hook: `updatedAt` becomes the current time and nothing
      else changes. */
  function PreSave(n: Note, now: Time): (r: Note)
    ensures r.updatedAt == now
    ensures r.(updatedAt := n.updatedAt) == n
  {
    n.(updatedAt := now)
  }

  /** `save()`: validation first, then the hook; an invalid note is not
      written. */
  function Save(n: Note, now: Time): (r: Option<Note>)
    ensures r.Some? <==> Valid(n)
    ensures r.Some? ==> Valid(r.value) && r.value == n.(updatedAt := now)
  {
    if Valid(n) then Some(PreSave(n, now)) else None
  }
}
