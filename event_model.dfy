/** The Event schema of models/Event.js: the document, its `required` and
    `enum` rules and the pre-save hook that stamps `updatedAt`. */
module EventModel {
  import opened Common

  /** One calendar event; `eventType` is the schema's `type` field. */
  datatype Event = Event(
    user: UserId,
    title: string,
    description: string,
    date: Time,
    eventType: string,
    location: Option<string>,
    createdAt: Time,
    updatedAt: Time)

  /** The values the schema's `type` enum admits. */
  const EventTypes: set<string> := {"exam", "fest", "holiday", "other"}

  /** The schema's rules: `user`, `title`, `description`, `date` and `type`
      are required (strings non-empty), `type` is one of the enum values and
      `location` is optional. */
  predicate Valid(e: Event) {
    Filled(e.title) && Filled(e.description) && e.eventType in EventTypes
  }

  /** An event whose type is outside the enum, "party" for one, is
      rejected; an event with non-empty title and description is accepted
      with any of the four types; the location never matters. */
  lemma ValidTypes(e: Event, location: Option<string>)
    ensures e.eventType !in EventTypes ==> !Valid(e)
    ensures e.eventType == "party" ==> !Valid(e)
    ensures Filled(e.title) && Filled(e.description) && e.eventType in EventTypes ==> Valid(e)
    ensures Valid(e.(location := location)) <==> Valid(e)
  {
  }

  /** The pre-save hook: `updatedAt` becomes the current time and nothing
      else changes. */
  function PreSave(e: Event, now: Time): (r: Event)
    ensures r.updatedAt == now
    ensures r.(updatedAt := e.updatedAt) == e
  {
    e.(updatedAt := now)
  }

  /** `save()`: validation first, then the hook; an invalid event is not
      written. */
  function Save(e: Event, now: Time): (r: Option<Event>)
    ensures r.Some? <==> Valid(e)
    ensures r.Some? ==> Valid(r.value) && r.value == e.(updatedAt := now)
  {
    if Valid(e) then Some(PreSave(e, now)) else None
  }
}
