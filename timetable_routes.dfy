/** The handlers of routes/timetable.js over the timetable collection. */
module TimetableRoutes {
  import opened Common
  import opened Order
  import opened Query
  import opened TimetableModel

  /** A JSON request body for this resource: any field may be present. POST
      reads the six slot fields; PUT hands the whole body to
      `findByIdAndUpdate`. */
  datatype TimetableBody = TimetableBody(
    user: Option<UserId>,
    day: Option<string>,
    startTime: Option<string>,
    endTime: Option<string>,
    subject: Option<string>,
    room: Option<string>,
    instructor: Option<string>,
    createdAt: Option<Time>)

  /** The entry `Timetable.create` builds: owner from the caller, the body's
      fields, `createdAt` now. There is no entry when a field is missing. */
  function Build(user: UserId, b: TimetableBody, now: Time): (r: Option<Timetable>)
    ensures r.Some? <==>
      && b.day.Some? && b.startTime.Some? && b.endTime.Some?
      && b.subject.Some? && b.room.Some? && b.instructor.Some?
    ensures r.Some? ==>
      && r.value.user == user && r.value.day == b.day.value
      && r.value.startTime == b.startTime.value && r.value.endTime == b.endTime.value
      && r.value.subject == b.subject.value && r.value.room == b.room.value
      && r.value.instructor == b.instructor.value && r.value.createdAt == now
  {
    if b.day.None? || b.startTime.None? || b.endTime.None? || b.subject.None?
       || b.room.None? || b.instructor.None? then None
    else Some(Timetable(user, b.day.value, b.startTime.value, b.endTime.value,
                        b.subject.value, b.room.value, b.instructor.value, now))
  }

  /** `findByIdAndUpdate(id, body)`: every field present in the body
      overwrites the stored one (the owner included), unvalidated. */
  function Merge(t: Timetable, b: TimetableBody): (r: Timetable)
    ensures (b.user.None? ==> r.user == t.user) && (b.user.Some? ==> r.user == b.user.value)
    ensures (b.day.None? ==> r.day == t.day) && (b.day.Some? ==> r.day == b.day.value)
    ensures (b.startTime.None? ==> r.startTime == t.startTime)
      && (b.startTime.Some? ==> r.startTime == b.startTime.value)
    ensures (b.endTime.None? ==> r.endTime == t.endTime)
      && (b.endTime.Some? ==> r.endTime == b.endTime.value)
    ensures (b.subject.None? ==> r.subject == t.subject)
      && (b.subject.Some? ==> r.subject == b.subject.value)
    ensures (b.room.None? ==> r.room == t.room) && (b.room.Some? ==> r.room == b.room.value)
    ensures (b.instructor.None? ==> r.instructor == t.instructor)
      && (b.instructor.Some? ==> r.instructor == b.instructor.value)
    ensures (b.createdAt.None? ==> r.createdAt == t.createdAt)
      && (b.createdAt.Some? ==> r.createdAt == b.createdAt.value)
    ensures b == TimetableBody(None, None, None, None, None, None, None, None) ==> r == t
  {
    Timetable(
      b.user.GetOr(t.user),
      b.day.GetOr(t.day),
      b.startTime.GetOr(t.startTime),
      b.endTime.GetOr(t.endTime),
      b.subject.GetOr(t.subject),
      b.room.GetOr(t.room),
      b.instructor.GetOr(t.instructor),
      b.createdAt.GetOr(t.createdAt))
  }

  /** A PUT overwrites exactly the fields its body holds, so it leaves an
      entry unchanged exactly when every field the body holds already has
      that value, and sending it a second time changes nothing more. */
  lemma MergeOverwritesPresentFields(t: Timetable, b: TimetableBody)
    ensures Merge(t, b) == t <==>
      && (b.user.Some? ==> b.user.value == t.user)
      && (b.day.Some? ==> b.day.value == t.day)
      && (b.startTime.Some? ==> b.startTime.value == t.startTime)
      && (b.endTime.Some? ==> b.endTime.value == t.endTime)
      && (b.subject.Some? ==> b.subject.value == t.subject)
      && (b.room.Some? ==> b.room.value == t.room)
      && (b.instructor.Some? ==> b.instructor.value == t.instructor)
      && (b.createdAt.Some? ==> b.createdAt.value == t.createdAt)
    ensures Merge(Merge(t, b), b) == Merge(t, b)
  {
  }

  /** The sort specification `{ day: 1, startTime: 1 }`: day names compared
      as strings, then start times compared as strings. */
  function DayThenStart(t: Timetable): Key {
    [Str(t.day), Str(t.startTime)]
  }

  lemma DayThenStartOrder(r: seq<Entry<Timetable>>)
    requires SortedBy(r, DayThenStart)
    ensures forall i, j :: 0 <= i < j < |r| ==>
      StrLe(r[i].doc.day, r[j].doc.day)
      && (r[i].doc.day == r[j].doc.day ==> StrLe(r[i].doc.startTime, r[j].doc.startTime))
  {
    forall i, j | 0 <= i < j < |r|
      ensures StrLe(r[i].doc.day, r[j].doc.day)
      ensures r[i].doc.day == r[j].doc.day ==> StrLe(r[i].doc.startTime, r[j].doc.startTime)
    {
      var a, b := r[i].doc, r[j].doc;
      PairKeyLe(Str(a.day), Str(a.startTime), Str(b.day), Str(b.startTime));
    }
  }

  /** The timetable collection. */
  class TimetableCollection {
    var docs: map<Id, Timetable>

    constructor ()
      ensures docs == map[]
    {
      docs := map[];
    }

    /** `findOne({ _id: id, user: caller })` finds an entry. */
    predicate Owns(caller: UserId, id: Id)
      reads this
    {
      id in docs && docs[id].user == caller
    }

    /** `find({ user: caller })`. */
    function Mine(caller: UserId): (r: map<Id, Timetable>)
      reads this
      ensures forall k :: k in r <==> Owns(caller, k)
      ensures forall k :: k in r ==> k in docs && r[k] == docs[k]
    {
      Where(docs, (d: Timetable) => d.user == caller)
    }

    /** GET `/`: exactly the caller's entries, each once, by day name as a
        string and then by start time as a string. */
    function List(caller: UserId): (r: seq<Entry<Timetable>>)
      reads this
      ensures forall i :: 0 <= i < |r| ==>
        r[i].id in docs && r[i].doc == docs[r[i].id] && r[i].doc.user == caller
      ensures forall k :: Owns(caller, k) ==> k in Ids(r)
      ensures forall i, j :: 0 <= i < j < |r| ==> r[i].id != r[j].id
      ensures forall i, j :: 0 <= i < j < |r| ==>
        StrLe(r[i].doc.day, r[j].doc.day)
        && (r[i].doc.day == r[j].doc.day ==> StrLe(r[i].doc.startTime, r[j].doc.startTime))
    {
      var r := SortByKey(Mine(caller), DayThenStart);
      DayThenStartOrder(r);
      r
    }

    /** POST `/`: a valid entry owned by the caller (whatever `user` the
        body holds) with the body's fields; anything else stores nothing. */
    method Create(caller: UserId, id: Id, body: TimetableBody, now: Time) returns (r: Reply<Timetable>)
      requires id !in docs
      modifies this
      ensures r.Ok? || r == ServerError
      ensures r.Ok? <==>
        && body.day.Some? && body.startTime.Some? && body.endTime.Some?
        && body.subject.Some? && body.room.Some? && body.instructor.Some?
        && body.day.value in Weekdays
        && Filled(body.startTime.value) && Filled(body.endTime.value)
        && Filled(body.subject.value) && Filled(body.room.value) && Filled(body.instructor.value)
      ensures r.Ok? ==>
        && docs == old(docs)[id := r.value]
        && Valid(r.value)
        && r.value.user == caller
        && r.value.day == body.day.value
        && r.value.startTime == body.startTime.value && r.value.endTime == body.endTime.value
        && r.value.subject == body.subject.value && r.value.room == body.room.value
        && r.value.instructor == body.instructor.value
        && r.value.createdAt == now
      ensures r == ServerError ==> docs == old(docs)
    {
      var built := Build(caller, body, now);
      if built.None? || !Valid(built.value) {
        return ServerError;
      }
      docs := docs[id := built.value];
      r := Ok(built.value);
    }

    /** PUT `/:id`: the owner's entry with the body merged in, unchecked. */
    method Update(caller: UserId, id: Id, body: TimetableBody) returns (r: Reply<Timetable>)
      modifies this
      ensures !old(Owns(caller, id)) ==> r == NotFound && docs == old(docs)
      ensures old(Owns(caller, id)) ==>
        r == Ok(Merge(old(docs)[id], body)) && docs == old(docs)[id := r.value]
    {
      if !Owns(caller, id) {
        return NotFound;
      }
      var updated := Merge(docs[id], body);
      docs := docs[id := updated];
      r := Ok(updated);
    }

    /** DELETE `/:id`: removes exactly the owner's entry. */
    method Delete(caller: UserId, id: Id) returns (r: Reply<Timetable>)
      modifies this
      ensures !old(Owns(caller, id)) ==> r == NotFound && docs == old(docs)
      ensures old(Owns(caller, id)) ==> r == Removed && docs == old(docs) - {id}
    {
      if !Owns(caller, id) {
        return NotFound;
      }
      docs := docs - {id};
      r := Removed;
    }
  }

  /** Because days compare as strings, in a listing ordered as `List`
      orders it no Friday slot comes after a Monday slot. */
  lemma FridayListedBeforeMonday(r: seq<Entry<Timetable>>, i: nat, j: nat)
    requires forall i, j :: 0 <= i < j < |r| ==> StrLe(r[i].doc.day, r[j].doc.day)
    requires i < j < |r| && r[i].doc.day == "Monday"
    ensures r[j].doc.day != "Friday"
  {
    StringOrderIsNotWeekdayOrder();
  }
}
