/** The Timetable schema of models/Timetable.js: a declarative schema with a
    weekday enum and required fields, no hook and no `updatedAt`. */
module TimetableModel {
  import opened Common

  /** One weekly class slot. */
  datatype Timetable = Timetable(
    user: UserId,
    day: string,
    startTime: string,
    endTime: string,
    subject: string,
    room: string,
    instructor: string,
    createdAt: Time)

  /** The values the schema's `day` enum admits. */
  const Weekdays: set<string> :=
    {"Monday", "Tuesday", "Wednesday", "Thursday", "Friday", "Saturday", "Sunday"}

  /** The schema's rules: every field is required (strings non-empty) and
      `day` is a weekday name. No order between the two times is required. */
  predicate Valid(t: Timetable) {
    && t.day in Weekdays
    && Filled(t.startTime) && Filled(t.endTime)
    && Filled(t.subject) && Filled(t.room) && Filled(t.instructor)
  }

  /** A day outside the seven weekday names, "Funday" for one, is never
      valid; validity does not depend on the order of the two times, so a
      slot that ends before it starts is valid. */
  lemma ValidExamples(t: Timetable, start: string, end: string, user: UserId, now: Time)
    ensures t.day !in Weekdays ==> !Valid(t)
    ensures Valid(t) && Filled(start) && Filled(end) ==>
      Valid(t.(startTime := start, endTime := end))
    ensures Valid(Timetable(user, "Monday", "10:00", "09:00", "Maths", "A1", "Rao", now))
    ensures !Valid(Timetable(user, "Funday", "09:00", "10:00", "Maths", "A1", "Rao", now))
  {
  }
}
