# Academic organizer backend: an ownership-scoped document store in Dafny

This project models the core of a small Express/Mongoose backend that keeps a
student's timetable, assignments, attendance records, notes and calendar
events. Each of the five resources is a MongoDB collection; every document
carries the `user` who owns it, and every route handler receives the
authenticated caller's identity.

The model keeps each collection as a class holding `docs: map<Id, Record>`,
and each route handler as a method (state changes) or a function (queries)
that takes the caller explicitly, and the current time where the handler reads
the clock. Replies are `Ok(document)`, `Removed`, `NotFound` (404) or
`ServerError` (500).

What every route file shares, and what the model proves of it:

- **Ownership lookup.** Update, delete and each transition first look the
  document up by identifier *and* owner. A miss answers `NotFound` and leaves
  the collection unchanged; a hit changes exactly that one document, or
  removes exactly it.
- **Owner binding on create.** A created document is owned by the caller,
  whatever `user` the request body holds.
- **Create and save validate; PUT does not.** `create` and `save()` run the
  schema's `required` and `enum` rules (a required string must be non-empty),
  then the pre-save hook. PUT hands the raw body to `findByIdAndUpdate`, which
  runs neither validators nor hooks. So a PUT can overwrite any field,
  including the owner. It can store a value the schema forbids, and it leaves
  the attendance `percentage` stale. The model keeps this behaviour as it is
  and proves each consequence.
- **Queries.** `find({ user })` followed by `.sort(spec)` is modelled by
  `Query.SortByKey` over the caller's documents. The result holds every one of
  the caller's documents exactly once, none of anyone else's, in the order of
  the sort key. Sort keys follow MongoDB's comparison: numbers and dates
  numerically, strings by character code, a missing value first. Timetable
  days therefore sort as strings, so "Friday" comes before "Monday".
  `Query.SortWhere` proves that a narrower filter returns the broader
  query's result with the unselected documents removed, in the same order.
  This is how `/events/upcoming` is shown to be the event list with past
  events dropped.

Resource-specific rules: the attendance percentage derived on save, the
attendance increment, the assignment status toggle, the note summaries
(150 characters on create and update, 500 on summarize, then "..."), and the
upcoming-events filter.

The model follows the code as written, including where one might expect otherwise:

- Saving an attendance record with no classes held leaves `percentage` as it
  was. It is not reset to 0.
- The owner is not immutable, because a PUT body may carry `user`.
- The toggle maps any status other than "completed" to "completed". A PUT may
  store any status at all.
- A note's summary is recomputed on PUT only when the new content is
  non-empty and differs from the stored content. Only the local truncation
  exists in the code; there is no external summarisation.
- Upcoming events are in non-decreasing date order; equal dates are allowed.

Files: `common.dfy` (identifiers, optional fields, replies), `order.dfy`
(string and sort-key orders), `query.dfy` (filter and sort),
`attendance_model.dfy`, `note_model.dfy`, `event_model.dfy`,
`timetable_model.dfy` (the schemas and their hooks), and one routes file
per resource.

## Model

| member | source | states |
|---|---|---|
| Query.Where | routes/attendance.js:10 | `find(filter)`: the documents of a collection that the filter selects, with their own contents |
| Query.SortByKey | routes/attendance.js:10-11 | a sorted query lists every selected document exactly once, with its own identifier and contents, in non-decreasing key order |
| Query.SortWhere | routes/events.js:84-88 | sorting a filtered collection equals filtering the sorted collection, so a narrower query is an order-preserving subsequence of the broader one |
| Order.StrLe | routes/timetable.js:11 | MongoDB's string comparison: lexicographic by character code, a proper prefix first |
| Order.FieldLe | routes/assignment.js:11 | MongoDB's comparison of one sort field: a missing value before numbers and dates, numbers before strings, then by value |
| Order.StringOrderIsNotWeekdayOrder | routes/timetable.js:11 | under string order "Friday" precedes "Monday" and "Sunday" precedes "Tuesday", unlike the calendar order |
| Order.StrLeTransitive | routes/timetable.js:11 | the string order used by the sorts is transitive (with StrLeTotal and StrLeAntisymmetric, a total order) |
| Order.KeyLeTotal | routes/timetable.js:11 | any two compound sort keys are comparable, so the sort is well defined |
| AttendanceModel.Valid | models/Attendance.js:4-27 | the schema's rule: the record is valid exactly when `subject` is non-empty; the counts and percentage always have a value and carry no bound |
| AttendanceModel.Build | routes/attendance.js:21-28 | `Attendance.create` builds a record exactly when the body has a subject: owner the caller whatever the body says, counts from the body or the schema default 0, percentage 0 before the hook, timestamps now |
| AttendanceModel.BuildDefaults | models/Attendance.js:13-35 | a record created without counts has zero classes held, zero attended and 0 percent, the caller as owner and creation time now |
| AttendanceModel.PreSave | models/Attendance.js:39-45 | with classes held, percentage times total equals attended times 100; with none it keeps its value; updatedAt becomes now; nothing else changes |
| AttendanceModel.Save | models/Attendance.js:4-45 | save succeeds exactly when the record is valid (non-empty subject); the saved record is valid, keeps owner, subject and counts, and has updatedAt now |
| AttendanceModel.PercentageInRange | models/Attendance.js:40-42 | with 0 <= attended <= total and total > 0, the saved percentage lies in [0, 100] |
| AttendanceModel.PercentageExample | models/Attendance.js:40-42 | 7 of 10 classes give 70 percent |
| AttendanceModel.SaveAcceptsOverAttendance | models/Attendance.js:13-45 | with no bound on the counts, a valid record with 3 of 2 classes attended saves, at 150 percent |
| AttendanceRoutes.Increment | routes/attendance.js:92-95 | total grows by one, attended grows by one exactly when the body says attended, and no other field changes |
| AttendanceRoutes.IncrementKeepsBound | routes/attendance.js:92-95 | 0 <= attended <= total is preserved by the increment |
| AttendanceRoutes.IncrementThenSave | routes/attendance.js:92-97 | from a non-negative total, the increment makes total at least 1, so the save recomputes percentage from the new counts |
| AttendanceRoutes.IncrementExamples | routes/attendance.js:92-97 | from 3 of 4: attended gives 4 of 5 at 80 percent, missed gives 3 of 5 at 60 percent |
| AttendanceRoutes.Merge | routes/attendance.js:48-52 | `findByIdAndUpdate`: each field the body holds, owner included, takes the body's value; each field it leaves out keeps the stored one; an empty body changes nothing |
| AttendanceRoutes.MergeIdempotent | routes/attendance.js:48-52 | sending the same PUT twice leaves the record as the first one did |
| AttendanceRoutes.MergeKeepsStalePercentage | routes/attendance.js:48-52 | a PUT without a percentage keeps the stored percentage, while `totalClasses` and `attendedClasses` each take the body's value where the body holds one |
| AttendanceRoutes.StalePercentageExample | routes/attendance.js:48-52 | 7 of 10 at 70 percent edited by PUT to 7 of 20 still reads 70 percent, where a save would give 35 |
| AttendanceRoutes.MergeCanChangeOwner | routes/attendance.js:48-52 | any PUT body holding `user`, whatever else it holds, reassigns the record to that user, so a different user takes it from its owner |
| AttendanceRoutes.SubjectKey | routes/attendance.js:11 | the sort specification `{ subject: 1 }`: the subject as a string field |
| AttendanceRoutes.SubjectOrder | routes/attendance.js:11 | a listing sorted by `{ subject: 1 }` has subjects in string order |
| AttendanceRoutes.AttendanceCollection.Owns | routes/attendance.js:39-42 | `findOne({ _id: id, user: caller })` finds the record: the id is stored and the caller owns it |
| AttendanceRoutes.AttendanceCollection.Mine | routes/attendance.js:10 | `find({ user: caller })` selects exactly the ids the caller owns, each with its stored contents, so it agrees with `findOne` |
| AttendanceRoutes.AttendanceCollection.List | routes/attendance.js:8-16 | exactly the caller's records, each once, in ascending subject string order |
| AttendanceRoutes.AttendanceCollection.Create | routes/attendance.js:19-34 | succeeds exactly when the body has a non-empty subject; stores the record under the fresh id with the caller as owner, the body's counts (0 when absent), the derived percentage and both timestamps now; otherwise stores nothing |
| AttendanceRoutes.AttendanceCollection.Update | routes/attendance.js:37-58 | NotFound and no change unless the caller owns the id; otherwise the body merged into the record, unvalidated, no other record changed |
| AttendanceRoutes.AttendanceCollection.Delete | routes/attendance.js:61-77 | NotFound and no change unless the caller owns the id; otherwise exactly that record is removed |
| AttendanceRoutes.AttendanceCollection.Mark | routes/attendance.js:80-102 | NotFound and no change unless the caller owns the id; otherwise the incremented record is saved (hook applied), or ServerError and no change when validation rejects it |
| NoteModel.Valid | models/Note.js:3-35 | the schema's rule: a note is valid exactly when subject, title and content are non-empty |
| NoteModel.ValidIgnoresSummaryAndTags | models/Note.js:21-26 | summary and tags are optional: they never decide validity |
| NoteModel.PreSave | models/Note.js:38-41 | the hook sets updatedAt to now and changes no other field |
| NoteModel.Save | models/Note.js:4-41 | save succeeds exactly when subject, title and content are non-empty, and then only updatedAt changes |
| NotesRoutes.Summary | routes/notes.js:28 | the summary is a prefix of the content followed by "...", at most n + 3 characters long, the whole content plus "..." when the content has at most n characters, exactly n + 3 characters otherwise |
| NotesRoutes.ResummarizeExtends | routes/notes.js:101 | the 500-character summary's text extends the 150-character one's |
| NotesRoutes.Build | routes/notes.js:21-29 | `Note.create` builds a note exactly when subject and title are present: owner the caller, summary the first 150 characters of the content plus "...", tags from the body or empty, timestamps now |
| NotesRoutes.Rewrite | routes/notes.js:51-54 | the PUT handler's rewrite changes only the body's summary, and only when the body's content is non-empty and differs from the stored content, to that content's 150-character summary |
| NotesRoutes.Merge | routes/notes.js:56-60 | `findByIdAndUpdate`: each field the body holds, owner included, takes the body's value; each field it leaves out keeps the stored one; an empty body changes nothing |
| NotesRoutes.UpdateSummary | routes/notes.js:51-60 | a PUT with new non-empty content stores the summary of that content; otherwise the body's summary if it has one, else the stored one |
| NotesRoutes.UpdateKeepsAbsentFields | routes/notes.js:51-60 | apart from the summary, each of owner, subject, title, content, tags, createdAt and updatedAt keeps its stored value when the PUT body leaves it out and takes the body's value when the body holds it |
| NotesRoutes.UpdateRepeated | routes/notes.js:51-60 | a PUT body without a summary, sent twice, leaves the note as the first PUT did |
| NotesRoutes.UpdateRepeatedWithSummary | routes/notes.js:51-60 | for every note and every PUT body with non-empty content differing from the stored content and a summary: the first PUT stores that content's 150-character summary, the same PUT sent again stores the body's summary |
| NotesRoutes.UpdateRepeatedWithSummaryExample | routes/notes.js:51-60 | stored content "old" and a body with content "new" and summary "mine": the first PUT stores "new...", the same PUT again stores "mine" |
| NotesRoutes.NewestFirst | routes/notes.js:11 | the sort specification `{ createdAt: -1 }`: the creation time, negated for descending order |
| NotesRoutes.NewestFirstOrder | routes/notes.js:11 | a listing sorted by `{ createdAt: -1 }` has creation times in non-increasing order |
| NotesRoutes.NoteCollection.Owns | routes/notes.js:42-45 | `findOne({ _id: id, user: caller })` finds the note: the id is stored and the caller owns it |
| NotesRoutes.NoteCollection.Mine | routes/notes.js:10 | `find({ user: caller })` selects exactly the ids the caller owns, each with its stored contents, so it agrees with `findOne` |
| NotesRoutes.NoteCollection.List | routes/notes.js:8-16 | exactly the caller's notes, each once, newest createdAt first |
| NotesRoutes.NoteCollection.Create | routes/notes.js:19-37 | without content it fails before storing anything; it succeeds exactly when content, subject and title are present and valid, storing a note owned by the caller with summary = first 150 characters + "...", tags from the body or empty, timestamps now |
| NotesRoutes.NoteCollection.Update | routes/notes.js:40-67 | NotFound and no change unless the caller owns the id; otherwise the rewritten body merged into the note, unvalidated, no other note changed |
| NotesRoutes.NoteCollection.Delete | routes/notes.js:70-87 | NotFound and no change unless the caller owns the id; otherwise exactly that note is removed |
| NotesRoutes.NoteCollection.Summarize | routes/notes.js:90-109 | NotFound and no change unless the caller owns the id; a note a PUT left invalid gives ServerError and no change; otherwise summary = first 500 characters + "..." with content, title, subject, tags, owner and createdAt unchanged and updatedAt now |
| EventModel.Valid | models/Event.js:3-37 | the schema's rule: an event is valid exactly when title and description are non-empty and the type is one of exam, fest, holiday, other |
| EventModel.ValidTypes | models/Event.js:4-28 | every type outside exam, fest, holiday and other ("party" for one) is rejected; non-empty title and description with any of the four types are valid; location never matters |
| EventModel.PreSave | models/Event.js:40-43 | the hook sets updatedAt to now and changes no other field |
| EventModel.Save | models/Event.js:3-43 | save succeeds exactly when the event is valid, and then only updatedAt changes |
| EventsRoutes.Build | routes/events.js:21-31 | `Event.create` builds an event exactly when title, description, date and type are present: owner the caller, the body's fields and optional location, timestamps now |
| EventsRoutes.Merge | routes/events.js:50-54 | `findByIdAndUpdate`: each field the body holds, owner included, takes the body's value; each field it leaves out keeps the stored one; an empty body changes nothing |
| EventsRoutes.MergeIdempotent | routes/events.js:50-54 | sending the same PUT twice leaves the event as the first one did |
| EventsRoutes.MergeSkipsValidation | routes/events.js:50-54 | a PUT can turn a valid event into one with a type outside the enum |
| EventsRoutes.DateKey | routes/events.js:11 | the sort specification `{ date: 1 }`: the date as a number |
| EventsRoutes.DateOrder | routes/events.js:88 | a listing sorted by `{ date: 1 }` has dates in non-decreasing order |
| EventsRoutes.From | routes/events.js:84-87 | the upcoming filter `date: { $gte: now }` |
| EventsRoutes.FromBoundary | routes/events.js:84-87 | the bound is inclusive: an event dated exactly now is upcoming, an earlier one is not, and a later clock selects no event an earlier one leaves out |
| EventsRoutes.EventCollection.Owns | routes/events.js:41-44 | `findOne({ _id: id, user: caller })` finds the event: the id is stored and the caller owns it |
| EventsRoutes.EventCollection.Mine | routes/events.js:10 | `find({ user: caller })` selects exactly the ids the caller owns, each with its stored contents, so it agrees with `findOne` |
| EventsRoutes.EventCollection.List | routes/events.js:8-16 | exactly the caller's events, each once, in ascending date order |
| EventsRoutes.EventCollection.Upcoming | routes/events.js:82-94 | exactly the caller's events dated now or later, each once, ascending by date; equal to the list with earlier events filtered out |
| EventsRoutes.EventCollection.Create | routes/events.js:19-36 | succeeds exactly when title, description, date and type are present, the strings non-empty and the type in the enum; stores the body's fields with the caller as owner, optional location, timestamps now; otherwise stores nothing |
| EventsRoutes.EventCollection.Update | routes/events.js:39-60 | NotFound and no change unless the caller owns the id; otherwise the body merged into the event, unvalidated |
| EventsRoutes.EventCollection.Delete | routes/events.js:63-79 | NotFound and no change unless the caller owns the id; otherwise exactly that event is removed |
| TimetableModel.Valid | models/Timetable.js:3-38 | the schema's rule: an entry is valid exactly when the day is a weekday name and the five other strings are non-empty; no order between the times |
| TimetableModel.ValidExamples | models/Timetable.js:3-38 | every day outside the seven weekday names ("Funday" for one) is invalid; validity does not depend on the order of start and end time, so a slot ending before it starts is valid |
| TimetableRoutes.Build | routes/timetable.js:21-32 | `Timetable.create` builds an entry exactly when all six slot fields are present: owner the caller, the body's fields, createdAt now |
| TimetableRoutes.Merge | routes/timetable.js:51-55 | `findByIdAndUpdate`: each field the body holds, owner and createdAt included, takes the body's value; each field it leaves out keeps the stored one; an empty body changes nothing |
| TimetableRoutes.MergeOverwritesPresentFields | routes/timetable.js:51-55 | a PUT leaves an entry unchanged exactly when every field its body holds, owner and createdAt included, already has that value; sending it again changes nothing more |
| TimetableRoutes.DayThenStart | routes/timetable.js:11 | the sort specification `{ day: 1, startTime: 1 }`: day then start time, both as strings |
| TimetableRoutes.DayThenStartOrder | routes/timetable.js:11 | a listing sorted by `{ day: 1, startTime: 1 }` has days in string order and, within a day, start times in string order |
| TimetableRoutes.FridayListedBeforeMonday | routes/timetable.js:10-11 | in the listing no Friday slot comes after a Monday slot |
| TimetableRoutes.TimetableCollection.Owns | routes/timetable.js:42-45 | `findOne({ _id: id, user: caller })` finds the entry: the id is stored and the caller owns it |
| TimetableRoutes.TimetableCollection.Mine | routes/timetable.js:10 | `find({ user: caller })` selects exactly the ids the caller owns, each with its stored contents, so it agrees with `findOne` |
| TimetableRoutes.TimetableCollection.List | routes/timetable.js:8-16 | exactly the caller's entries, each once, by day string then start-time string |
| TimetableRoutes.TimetableCollection.Create | routes/timetable.js:19-37 | succeeds exactly when all six fields are present, non-empty and the day is a weekday name; stores them with the caller as owner and createdAt now; otherwise stores nothing |
| TimetableRoutes.TimetableCollection.Update | routes/timetable.js:40-61 | NotFound and no change unless the caller owns the id; otherwise the body merged into the entry, unvalidated |
| TimetableRoutes.TimetableCollection.Delete | routes/timetable.js:64-80 | NotFound and no change unless the caller owns the id; otherwise exactly that entry is removed |
| AssignmentRoutes.Toggled | routes/assignment.js:93 | the result is always "pending" or "completed", and it is "pending" exactly when the status was "completed" |
| AssignmentRoutes.ToggleTwice | routes/assignment.js:93 | toggling twice restores "pending" and "completed" |
| AssignmentRoutes.ToggleTwiceOther | routes/assignment.js:93 | any other status becomes "pending" after two toggles, so it is not restored |
| AssignmentRoutes.Merge | routes/assignment.js:50-54 | `findByIdAndUpdate`: each field the body holds, owner and status included, takes the body's value; each field it leaves out keeps the stored one; an empty body changes nothing |
| AssignmentRoutes.MergeIdempotent | routes/assignment.js:50-54 | sending the same PUT twice leaves the assignment as the first one did |
| AssignmentRoutes.DueKey | routes/assignment.js:11 | the sort specification `{ dueDate: 1 }`: the due date, or null when there is none |
| AssignmentRoutes.DueOrder | routes/assignment.js:11 | in a listing sorted by `{ dueDate: 1 }`, assignments without a due date come first and dated ones ascend |
| AssignmentRoutes.AssignmentCollection.Owns | routes/assignment.js:41-44 | `findOne({ _id: id, user: caller })` finds the assignment: the id is stored and the caller owns it |
| AssignmentRoutes.AssignmentCollection.Mine | routes/assignment.js:10 | `find({ user: caller })` selects exactly the ids the caller owns, each with its stored contents, so it agrees with `findOne` |
| AssignmentRoutes.AssignmentCollection.List | routes/assignment.js:8-16 | exactly the caller's assignments, each once, ascending by due date |
| AssignmentRoutes.AssignmentCollection.Create | routes/assignment.js:19-36 | stores an assignment owned by the caller with the body's five fields and status "pending", ignoring any user or status in the body |
| AssignmentRoutes.AssignmentCollection.Update | routes/assignment.js:39-60 | NotFound and no change unless the caller owns the id; otherwise the body merged in, status and owner included |
| AssignmentRoutes.AssignmentCollection.Delete | routes/assignment.js:63-79 | NotFound and no change unless the caller owns the id; otherwise exactly that assignment is removed |
| AssignmentRoutes.AssignmentCollection.ToggleStatus | routes/assignment.js:82-100 | NotFound and no change unless the caller owns the id; otherwise only that assignment's status changes, to its toggle |

## Left out

- Authentication: the `protect` middleware and the user model are not part of this model. The caller's identity is a trusted parameter.
- Server bootstrap (app.js): CORS, JSON parsing, the database connection, route mounting, the catch-all error handler and `listen`.
- models/Assignment.js is not part of this model. Assignments are therefore never validated, and their body fields are optional. Status starts as "pending", and timestamps are not modelled for them.
- Identifier generation: a new document's `_id` is a parameter, required to be unused.
- Storage and driver failures, and Mongoose cast errors on mistyped values, are not modelled. Body fields are typed, and a JSON `null` is not distinguished from an absent field. The `ServerError` replies come from schema validation and from the missing-content exception on note creation.
- Concurrency: the race between `findOne` and `findByIdAndUpdate` is not modelled. Neither is `findByIdAndUpdate` returning nothing after a concurrent delete.
- Floating point: `percentage` is an exact real, and the class counts are integers.
- Clocks: `Date.now()` and `new Date()` are a `now` parameter in milliseconds.
- Ties in sorting: MongoDB leaves the order of documents with equal keys unspecified. The model breaks such ties by identifier.
- Character encoding: strings are sequences of characters. MongoDB compares strings by their UTF-8 bytes, which orders them as the model's code-point order does. `substring` counts UTF-16 code units, which agrees with the model's character count only on characters of the Basic Multilingual Plane.
- The `attended` flag of the increment is a boolean; JavaScript truthiness of other values is not modelled.
- Documents are values. An in-place field assignment followed by `save()` becomes the replacement of that map entry.
- HTTP status codes, response messages and `console.error` logging become the `Reply` constructors.
