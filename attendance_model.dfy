/** The Attendance schema of models/Attendance.js: the document, its
    validity under the schema's `required` rules, its defaults, and the
    pre-save hook that derives `percentage` and stamps `updatedAt`. */
module AttendanceModel {
  import opened Common

  /** One attendance record. `percentage` is kept as an exact real; the
      source stores a JavaScript number. */
  datatype Attendance = Attendance(
    user: UserId,
    subject: string,
    totalClasses: int,
    attendedClasses: int,
    percentage: real,
    createdAt: Time,
    updatedAt: Time)

  /** The schema's rules: `user` and `subject` are required (a required
      string must not be empty); the three numbers are required too, but
      always have a value here. */
  predicate Valid(a: Attendance) {
    Filled(a.subject)
  }

  /** The document `Attendance.create` builds from the caller and the body,
      before saving: the schema default 0 stands for every count the body
      leaves out, and both timestamps default to the current time. There is
      no document when the body has no subject. */
  function Build(user: UserId, subject: Option<string>, totalClasses: Option<int>,
                 attendedClasses: Option<int>, now: Time): (r: Option<Attendance>)
    ensures r.Some? <==> subject.Some?
    ensures r.Some? ==>
      && r.value.user == user && r.value.subject == subject.value
      && (totalClasses.Some? ==> r.value.totalClasses == totalClasses.value)
      && (totalClasses.None? ==> r.value.totalClasses == 0)
      && (attendedClasses.Some? ==> r.value.attendedClasses == attendedClasses.value)
      && (attendedClasses.None? ==> r.value.attendedClasses == 0)
      && r.value.percentage == 0.0 && r.value.createdAt == now && r.value.updatedAt == now
  {
    match subject
    case None => None
    case Some(s) =>
      Some(Attendance(user, s, totalClasses.GetOr(0), attendedClasses.GetOr(0), 0.0, now, now))
  }

  /** A record built without counts starts at zero classes and 0 percent. */
  lemma BuildDefaults(user: UserId, subject: string, now: Time)
    ensures Build(user, Some(subject), None, None, now).Some?
    ensures var a := Build(user, Some(subject), None, None, now).value;
      a.totalClasses == 0 && a.attendedClasses == 0 && a.percentage == 0.0
      && a.user == user && a.createdAt == now
  {
  }

  /** The pre-save hook: with at least one class held, `percentage` becomes
      the share of attended classes in percent; otherwise it keeps its value.
      `updatedAt` becomes the current time and nothing else changes. */
  function PreSave(a: Attendance, now: Time): (r: Attendance)
    ensures r.updatedAt == now
    ensures r.(percentage := a.percentage, updatedAt := a.updatedAt) == a
    ensures a.totalClasses > 0 ==>
      r.percentage * (a.totalClasses as real) == (a.attendedClasses as real) * 100.0
    ensures a.totalClasses <= 0 ==> r.percentage == a.percentage
  {
    if a.totalClasses > 0 then
      a.(percentage := (a.attendedClasses as real) / (a.totalClasses as real) * 100.0, updatedAt := now)
    else
      a.(updatedAt := now)
  }

  /** `save()`: the schema's validators run first and reject an invalid
      document (nothing is written); a valid one passes through the
      pre-save hook and is what gets stored. */
  function Save(a: Attendance, now: Time): (r: Option<Attendance>)
    ensures r.Some? <==> Valid(a)
    ensures r.Some? ==> Valid(r.value) && r.value.updatedAt == now
    ensures r.Some? ==> r.value.(percentage := a.percentage, updatedAt := a.updatedAt) == a
    ensures r.Some? && a.totalClasses > 0 ==>
      r.value.percentage * (a.totalClasses as real) == (a.attendedClasses as real) * 100.0
    ensures r.Some? && a.totalClasses <= 0 ==> r.value.percentage == a.percentage
  {
    if Valid(a) then Some(PreSave(a, now)) else None
  }

  /** When no more classes were attended than held, and some were held, the
      saved percentage lies between 0 and 100. */
  lemma PercentageInRange(a: Attendance, now: Time)
    requires 0 <= a.attendedClasses <= a.totalClasses && a.totalClasses > 0
    ensures 0.0 <= PreSave(a, now).percentage <= 100.0
  {
    var t, d := a.totalClasses as real, a.attendedClasses as real;
    var p := PreSave(a, now).percentage;
    assert p * t == d * 100.0;
    assert d * 100.0 <= t * 100.0;
  }

  /** The schema puts no bound on the counts, so saving accepts more
      classes attended than held, and the percentage then exceeds 100:
      three of two classes save as 150 percent. */
  lemma SaveAcceptsOverAttendance(a: Attendance, now: Time)
    requires Valid(a) && a.totalClasses == 2 && a.attendedClasses == 3
    ensures Save(a, now).Some? && Save(a, now).value.percentage == 150.0
  {
  }

  /** Ten classes held and seven attended give 70 percent. */
  lemma PercentageExample(a: Attendance, now: Time)
    requires a.totalClasses == 10 && a.attendedClasses == 7
    ensures PreSave(a, now).percentage == 70.0
  {
  }
}
