/** The handlers of routes/attendance.js over the attendance collection.
    Every handler that names a record first looks it up by identifier AND
    owner; a miss answers 404 and changes nothing. */
module AttendanceRoutes {
  import opened Common
  import opened Order
  import opened Query
  import opened AttendanceModel

  /** A JSON request body for this resource: any field may be present. The
      POST handler reads only subject and the two counts; PUT hands the
      whole body to `findByIdAndUpdate`. */
  datatype AttendanceBody = AttendanceBody(
    user: Option<UserId>,
    subject: Option<string>,
    totalClasses: Option<int>,
    attendedClasses: Option<int>,
    percentage: Option<real>,
    createdAt: Option<Time>,
    updatedAt: Option<Time>)

  /** `findByIdAndUpdate(id, body)`: every field present in the body
      overwrites the stored one (the owner included); neither validators nor
      the pre-save hook run, so `percentage` is not recomputed. */
  function Merge(a: Attendance, b: AttendanceBody): (r: Attendance)
    ensures (b.user.None? ==> r.user == a.user) && (b.user.Some? ==> r.user == b.user.value)
    ensures (b.subject.None? ==> r.subject == a.subject)
      && (b.subject.Some? ==> r.subject == b.subject.value)
    ensures (b.totalClasses.None? ==> r.totalClasses == a.totalClasses)
      && (b.totalClasses.Some? ==> r.totalClasses == b.totalClasses.value)
    ensures (b.attendedClasses.None? ==> r.attendedClasses == a.attendedClasses)
      && (b.attendedClasses.Some? ==> r.attendedClasses == b.attendedClasses.value)
    ensures (b.percentage.None? ==> r.percentage == a.percentage)
      && (b.percentage.Some? ==> r.percentage == b.percentage.value)
    ensures (b.createdAt.None? ==> r.createdAt == a.createdAt)
      && (b.createdAt.Some? ==> r.createdAt == b.createdAt.value)
    ensures (b.updatedAt.None? ==> r.updatedAt == a.updatedAt)
      && (b.updatedAt.Some? ==> r.updatedAt == b.updatedAt.value)
    ensures b == AttendanceBody(None, None, None, None, None, None, None) ==> r == a
  {
    Attendance(
      b.user.GetOr(a.user),
      b.subject.GetOr(a.subject),
      b.totalClasses.GetOr(a.totalClasses),
      b.attendedClasses.GetOr(a.attendedClasses),
      b.percentage.GetOr(a.percentage),
      b.createdAt.GetOr(a.createdAt),
      b.updatedAt.GetOr(a.updatedAt))
  }

  /** Sending the same PUT twice leaves the record as the first one did. */
  lemma MergeIdempotent(a: Attendance, b: AttendanceBody)
    ensures Merge(Merge(a, b), b) == Merge(a, b)
  {
  }

  /** A PUT that changes the counts but not `percentage` leaves the stored
      percentage as it was, however far it now is from the counts: both
      counts take the body's values where it holds them, and the
      percentage keeps the stored one. */
  lemma MergeKeepsStalePercentage(a: Attendance, b: AttendanceBody)
    requires b.percentage.None?
    ensures Merge(a, b).percentage == a.percentage
    ensures Merge(a, b).totalClasses == b.totalClasses.GetOr(a.totalClasses)
    ensures Merge(a, b).attendedClasses == b.attendedClasses.GetOr(a.attendedClasses)
  {
  }

  /** Concretely: 7 of 10 classes (70 percent) edited to 7 of 20 by PUT still
      reads 70 percent, where saving would give 35. */
  lemma StalePercentageExample(a: Attendance)
    requires a.totalClasses == 10 && a.attendedClasses == 7 && a.percentage == 70.0
    ensures var b := AttendanceBody(None, None, Some(20), None, None, None, None);
      Merge(a, b).percentage == 70.0 && PreSave(Merge(a, b), 0).percentage == 35.0
  {
  }

  /** Any PUT whose body carries `user` hands the record to that user,
      whatever else the body holds; a different user means the record is
      no longer its former owner's. */
  lemma MergeCanChangeOwner(a: Attendance, b: AttendanceBody)
    requires b.user.Some?
    ensures Merge(a, b).user == b.user.value
    ensures b.user.value != a.user ==> Merge(a, b).user != a.user
  {
  }

  /** The PATCH `/:id/update` transition before saving: one more class held,
      and one more attended when the body says so. */
  function Increment(a: Attendance, attended: bool): (r: Attendance)
    ensures r.totalClasses == a.totalClasses + 1
    ensures r.attendedClasses == if attended then a.attendedClasses + 1 else a.attendedClasses
    ensures r.(totalClasses := a.totalClasses, attendedClasses := a.attendedClasses) == a
  {
    var held := a.(totalClasses := a.totalClasses + 1);
    if attended then held.(attendedClasses := held.attendedClasses + 1) else held
  }

  /** Incrementing keeps "no more attended than held". */
  lemma IncrementKeepsBound(a: Attendance, attended: bool)
    requires 0 <= a.attendedClasses <= a.totalClasses
    ensures 0 <= Increment(a, attended).attendedClasses <= Increment(a, attended).totalClasses
  {
  }

  /** After an increment on a record with a non-negative class count, the
      save recomputes the percentage from the new counts (the new total is at
      least 1, so the hook's condition holds). */
  lemma IncrementThenSave(a: Attendance, attended: bool, now: Time)
    requires a.totalClasses >= 0
    ensures var r := PreSave(Increment(a, attended), now);
      r.percentage * (r.totalClasses as real) == (r.attendedClasses as real) * 100.0
      && r.totalClasses >= 1
  {
  }

  /** From 3 of 4: attending gives 4 of 5 (80 percent), missing gives 3 of 5
      (60 percent). */
  lemma IncrementExamples(a: Attendance, now: Time)
    requires a.totalClasses == 4 && a.attendedClasses == 3
    ensures var r := PreSave(Increment(a, true), now);
      r.totalClasses == 5 && r.attendedClasses == 4 && r.percentage == 80.0
    ensures var r := PreSave(Increment(a, false), now);
      r.totalClasses == 5 && r.attendedClasses == 3 && r.percentage == 60.0
  {
  }

  /** The sort specification `{ subject: 1 }`. */
  function SubjectKey(a: Attendance): Key {
    [Str(a.subject)]
  }

  lemma SubjectOrder(r: seq<Entry<Attendance>>)
    requires SortedBy(r, SubjectKey)
    ensures forall i, j :: 0 <= i < j < |r| ==> StrLe(r[i].doc.subject, r[j].doc.subject)
  {
    forall i, j | 0 <= i < j < |r| ensures StrLe(r[i].doc.subject, r[j].doc.subject) {
      SingleKeyLe(Str(r[i].doc.subject), Str(r[j].doc.subject));
    }
  }

  /** The attendance collection. */
  class AttendanceCollection {
    var docs: map<Id, Attendance>

    constructor ()
      ensures docs == map[]
    {
      docs := map[];
    }

    /** `findOne({ _id: id, user: caller })` finds a record. */
    predicate Owns(caller: UserId, id: Id)
      reads this
    {
      id in docs && docs[id].user == caller
    }

    /** `find({ user: caller })`. */
    function Mine(caller: UserId): (r: map<Id, Attendance>)
      reads this
      ensures forall k :: k in r <==> Owns(caller, k)
      ensures forall k :: k in r ==> k in docs && r[k] == docs[k]
    {
      Where(docs, (d: Attendance) => d.user == caller)
    }

    /** GET `/`: exactly the caller's records, each once, by subject. */
    function List(caller: UserId): (r: seq<Entry<Attendance>>)
      reads this
      ensures forall i :: 0 <= i < |r| ==>
        r[i].id in docs && r[i].doc == docs[r[i].id] && r[i].doc.user == caller
      ensures forall k :: Owns(caller, k) ==> k in Ids(r)
      ensures forall i, j :: 0 <= i < j < |r| ==> r[i].id != r[j].id
      ensures forall i, j :: 0 <= i < j < |r| ==> StrLe(r[i].doc.subject, r[j].doc.subject)
    {
      var r := SortByKey(Mine(caller), SubjectKey);
      SubjectOrder(r);
      r
    }

    /** POST `/`: a new record owned by the caller (whatever `user` the body
        holds) with the body's subject and counts, saved through the hook.
        A body without a valid subject fails validation and stores nothing. */
    method Create(caller: UserId, id: Id, body: AttendanceBody, now: Time) returns (r: Reply<Attendance>)
      requires id !in docs
      modifies this
      ensures r.Ok? || r == ServerError
      ensures r.Ok? <==> body.subject.Some? && Filled(body.subject.value)
      ensures r.Ok? ==>
        && docs == old(docs)[id := r.value]
        && r.value.user == caller
        && r.value.subject == body.subject.value
        && r.value.totalClasses == body.totalClasses.GetOr(0)
        && r.value.attendedClasses == body.attendedClasses.GetOr(0)
        && r.value.createdAt == now && r.value.updatedAt == now
        && (r.value.totalClasses > 0 ==>
              r.value.percentage * (r.value.totalClasses as real) == (r.value.attendedClasses as real) * 100.0)
        && (r.value.totalClasses <= 0 ==> r.value.percentage == 0.0)
      ensures r == ServerError ==> docs == old(docs)
    {
      var built := Build(caller, body.subject, body.totalClasses, body.attendedClasses, now);
      if built.None? {
        return ServerError;
      }
      var saved := Save(built.value, now);
      if saved.None? {
        return ServerError;
      }
      docs := docs[id := saved.value];
      r := Ok(saved.value);
    }

    /** PUT `/:id`: the owner's record with the body merged in, unchecked. */
    method Update(caller: UserId, id: Id, body: AttendanceBody) returns (r: Reply<Attendance>)
      modifies this
      ensures !old(Owns(caller, id)) ==> r == NotFound && docs == old(docs)
      ensures old(Owns(caller, id)) ==>
        r == Ok(Merge(old(docs)[id], body)) && docs == old(docs)[id := r.value]
    {
      if !Owns(caller, id) {
        return NotFound;
      }
      var updated := Merge(docs[id], body);
      docs := docs[id := updated];
      r := Ok(updated);
    }

    /** DELETE `/:id`: removes exactly the owner's record. */
    method Delete(caller: UserId, id: Id) returns (r: Reply<Attendance>)
      modifies this
      ensures !old(Owns(caller, id)) ==> r == NotFound && docs == old(docs)
      ensures old(Owns(caller, id)) ==> r == Removed && docs == old(docs) - {id}
    {
      if !Owns(caller, id) {
        return NotFound;
      }
      docs := docs - {id};
      r := Removed;
    }

    /** PATCH `/:id/update`: increments the owner's record and saves it; the
        save's validation can still reject a record a PUT left invalid. */
    method Mark(caller: UserId, id: Id, attended: bool, now: Time) returns (r: Reply<Attendance>)
      modifies this
      ensures !old(Owns(caller, id)) ==> r == NotFound && docs == old(docs)
      ensures old(Owns(caller, id)) ==>
        match Save(Increment(old(docs)[id], attended), now)
        case Some(saved) => r == Ok(saved) && docs == old(docs)[id := saved]
        case None => r == ServerError && docs == old(docs)
    {
      if !Owns(caller, id) {
        return NotFound;
      }
      var saved := Save(Increment(docs[id], attended), now);
      if saved.None? {
        return ServerError;
      }
      docs := docs[id := saved.value];
      r := Ok(saved.value);
    }
  }
}
