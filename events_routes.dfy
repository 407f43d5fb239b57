/** The handlers of routes/events.js over the event collection, including
    the query for upcoming events. */
module EventsRoutes {
  import opened Common
  import opened Order
  import opened Query
  import opened EventModel

  /** A JSON request body for this resource: any field may be present. POST
      reads title, description, date, type and location; PUT hands the whole
      body to `findByIdAndUpdate`. */
  datatype EventBody = EventBody(
    user: Option<UserId>,
    title: Option<string>,
    description: Option<string>,
    date: Option<Time>,
    eventType: Option<string>,
    location: Option<string>,
    createdAt: Option<Time>,
    updatedAt: Option<Time>)

  /** The event `Event.create` builds: owner from the caller, the body's
      fields, both timestamps now. There is no event when a required field
      is missing. */
  function Build(user: UserId, b: EventBody, now: Time): (r: Option<Event>)
    ensures r.Some? <==>
      b.title.Some? && b.description.Some? && b.date.Some? && b.eventType.Some?
    ensures r.Some? ==>
      && r.value.user == user && r.value.title == b.title.value
      && r.value.description == b.description.value && r.value.date == b.date.value
      && r.value.eventType == b.eventType.value && r.value.location == b.location
      && r.value.createdAt == now && r.value.updatedAt == now
  {
    if b.title.None? || b.description.None? || b.date.None? || b.eventType.None? then None
    else Some(Event(user, b.title.value, b.description.value, b.date.value,
                    b.eventType.value, b.location, now, now))
  }

  /** `findByIdAndUpdate(id, body)`: every field present in the body
      overwrites the stored one (the owner included), unvalidated and
      without the hook. */
  function Merge(e: Event, b: EventBody): (r: Event)
    ensures (b.user.None? ==> r.user == e.user) && (b.user.Some? ==> r.user == b.user.value)
    ensures (b.title.None? ==> r.title == e.title)
      && (b.title.Some? ==> r.title == b.title.value)
    ensures (b.description.None? ==> r.description == e.description)
      && (b.description.Some? ==> r.description == b.description.value)
    ensures (b.date.None? ==> r.date == e.date) && (b.date.Some? ==> r.date == b.date.value)
    ensures (b.eventType.None? ==> r.eventType == e.eventType)
      && (b.eventType.Some? ==> r.eventType == b.eventType.value)
    ensures (b.location.None? ==> r.location == e.location)
      && (b.location.Some? ==> r.location == b.location)
    ensures (b.createdAt.None? ==> r.createdAt == e.createdAt)
      && (b.createdAt.Some? ==> r.createdAt == b.createdAt.value)
    ensures (b.updatedAt.None? ==> r.updatedAt == e.updatedAt)
      && (b.updatedAt.Some? ==> r.updatedAt == b.updatedAt.value)
    ensures b == EventBody(None, None, None, None, None, None, None, None) ==> r == e
  {
    Event(
      b.user.GetOr(e.user),
      b.title.GetOr(e.title),
      b.description.GetOr(e.description),
      b.date.GetOr(e.date),
      b.eventType.GetOr(e.eventType),
      if b.location.Some? then b.location else e.location,
      b.createdAt.GetOr(e.createdAt),
      b.updatedAt.GetOr(e.updatedAt))
  }

  /** Sending the same PUT twice leaves the event as the first one did. */
  lemma MergeIdempotent(d: Event, b: EventBody)
    ensures Merge(Merge(d, b), b) == Merge(d, b)
  {
  }

  /** Because a PUT skips validation, it can store an event whose type is
      outside the enum, which `create` would have refused. */
  lemma MergeSkipsValidation(e: Event)
    requires Valid(e)
    ensures !Valid(Merge(e, EventBody(None, None, None, None, Some("party"), None, None, None)))
  {
  }

  /** The sort specification `{ date: 1 }`. */
  function DateKey(e: Event): Key {
    [Num(e.date)]
  }

  /** The filter `date: { $gte: now }`. */
  function From(now: Time): Event -> bool {
    (e: Event) => e.date >= now
  }

  /** The bound is inclusive: an event dated exactly now is upcoming, an
      earlier one is not, and a later clock selects no event an earlier one
      leaves out. */
  lemma FromBoundary(e: Event, now: Time, later: Time)
    ensures e.date == now ==> From(now)(e)
    ensures e.date < now ==> !From(now)(e)
    ensures now <= later && From(later)(e) ==> From(now)(e)
  {
  }

  lemma DateOrder(r: seq<Entry<Event>>)
    requires SortedBy(r, DateKey)
    ensures forall i, j :: 0 <= i < j < |r| ==> r[i].doc.date <= r[j].doc.date
  {
    forall i, j | 0 <= i < j < |r| ensures r[i].doc.date <= r[j].doc.date {
      SingleKeyLe(Num(r[i].doc.date), Num(r[j].doc.date));
    }
  }

  /** The event collection. */
  class EventCollection {
    var docs: map<Id, Event>

    constructor ()
      ensures docs == map[]
    {
      docs := map[];
    }

    /** `findOne({ _id: id, user: caller })` finds an event. */
    predicate Owns(caller: UserId, id: Id)
      reads this
    {
      id in docs && docs[id].user == caller
    }

    /** `find({ user: caller })`. */
    function Mine(caller: UserId): (r: map<Id, Event>)
      reads this
      ensures forall k :: k in r <==> Owns(caller, k)
      ensures forall k :: k in r ==> k in docs && r[k] == docs[k]
    {
      Where(docs, (d: Event) => d.user == caller)
    }

    /** GET `/`: exactly the caller's events, each once, by date. */
    function List(caller: UserId): (r: seq<Entry<Event>>)
      reads this
      ensures forall i :: 0 <= i < |r| ==>
        r[i].id in docs && r[i].doc == docs[r[i].id] && r[i].doc.user == caller
      ensures forall k :: Owns(caller, k) ==> k in Ids(r)
      ensures forall i, j :: 0 <= i < j < |r| ==> r[i].id != r[j].id
      ensures forall i, j :: 0 <= i < j < |r| ==> r[i].doc.date <= r[j].doc.date
    {
      var r := SortByKey(Mine(caller), DateKey);
      DateOrder(r);
      r
    }

    /** GET `/upcoming`: exactly the caller's events dated now or later, each
        once, by date; that is, the full list with the past events removed. */
    function Upcoming(caller: UserId, now: Time): (r: seq<Entry<Event>>)
      reads this
      ensures forall i :: 0 <= i < |r| ==>
        r[i].id in docs && r[i].doc == docs[r[i].id] && r[i].doc.user == caller && r[i].doc.date >= now
      ensures forall k :: Owns(caller, k) && docs[k].date >= now ==> k in Ids(r)
      ensures forall i, j :: 0 <= i < j < |r| ==> r[i].id != r[j].id
      ensures forall i, j :: 0 <= i < j < |r| ==> r[i].doc.date <= r[j].doc.date
      ensures r == Filter(List(caller), From(now))
    {
      var r := SortByKey(Where(Mine(caller), From(now)), DateKey);
      DateOrder(r);
      SortWhere(Mine(caller), DateKey, From(now));
      r
    }

    /** POST `/`: a valid event owned by the caller (whatever `user` the
        body holds) with the body's fields; anything else stores nothing. */
    method Create(caller: UserId, id: Id, body: EventBody, now: Time) returns (r: Reply<Event>)
      requires id !in docs
      modifies this
      ensures r.Ok? || r == ServerError
      ensures r.Ok? <==>
        && body.title.Some? && body.description.Some? && body.date.Some? && body.eventType.Some?
        && Filled(body.title.value) && Filled(body.description.value)
        && body.eventType.value in EventTypes
      ensures r.Ok? ==>
        && docs == old(docs)[id := r.value]
        && Valid(r.value)
        && r.value.user == caller
        && r.value.title == body.title.value && r.value.description == body.description.value
        && r.value.date == body.date.value && r.value.eventType == body.eventType.value
        && r.value.location == body.location
        && r.value.createdAt == now && r.value.updatedAt == now
      ensures r == ServerError ==> docs == old(docs)
    {
      var built := Build(caller, body, now);
      if built.None? {
        return ServerError;
      }
      var saved := Save(built.value, now);
      if saved.None? {
        return ServerError;
      }
      docs := docs[id := saved.value];
      r := Ok(saved.value);
    }

    /** PUT `/:id`: the owner's event with the body merged in, unchecked. */
    method Update(caller: UserId, id: Id, body: EventBody) returns (r: Reply<Event>)
      modifies this
      ensures !old(Owns(caller, id)) ==> r == NotFound && docs == old(docs)
      ensures old(Owns(caller, id)) ==>
        r == Ok(Merge(old(docs)[id], body)) && docs == old(docs)[id := r.value]
    {
      if !Owns(caller, id) {
        return NotFound;
      }
      var updated := Merge(docs[id], body);
      docs := docs[id := updated];
      r := Ok(updated);
    }

    /** DELETE `/:id`: removes exactly the owner's event. */
    method Delete(caller: UserId, id: Id) returns (r: Reply<Event>)
      modifies this
      ensures !old(Owns(caller, id)) ==> r == NotFound && docs == old(docs)
      ensures old(Owns(caller, id)) ==> r == Removed && docs == old(docs) - {id}
    {
      if !Owns(caller, id) {
        return NotFound;
      }
      docs := docs - {id};
      r := Removed;
    }
  }
}
