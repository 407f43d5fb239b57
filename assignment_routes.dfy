/** The handlers of routes/assignment.js over the assignment collection,
    with the status toggle. The assignment schema (models/Assignment.js) is
    not part of this model: no schema validation is modelled, the fields it
    may leave unset are optional, and a new assignment's status is
    "pending". */
module AssignmentRoutes {
  import opened Common
  import opened Order
  import opened Query

  /** One assignment. */
  datatype Assignment = Assignment(
    user: UserId,
    title: Option<string>,
    description: Option<string>,
    subject: Option<string>,
    dueDate: Option<Time>,
    priority: Option<string>,
    status: string)

  const Pending := "pending"
  const Completed := "completed"

  /** The status a new assignment starts with. */
  const DefaultStatus := Pending

  /** The toggle: "completed" becomes "pending" and every other status,
      whatever it is, becomes "completed". */
  function Toggled(status: string): (r: string)
    ensures r == Pending || r == Completed
    ensures r == Pending <==> status == Completed
  {
    if status == Completed then Pending else Completed
  }

  /** Toggling twice restores a status that was "pending" or "completed". */
  lemma ToggleTwice(status: string)
    requires status == Pending || status == Completed
    ensures Toggled(Toggled(status)) == status
  {
  }

  /** Any other status (one a PUT may store) is not restored: it ends up
      "pending" after two toggles. */
  lemma ToggleTwiceOther(status: string)
    requires status != Pending && status != Completed
    ensures Toggled(Toggled(status)) == Pending != status
  {
  }

  /** A JSON request body for this resource: any field may be present. POST
      reads title, description, subject, dueDate and priority (never
      status); PUT hands the whole body to `findByIdAndUpdate`. */
  datatype AssignmentBody = AssignmentBody(
    user: Option<UserId>,
    title: Option<string>,
    description: Option<string>,
    subject: Option<string>,
    dueDate: Option<Time>,
    priority: Option<string>,
    status: Option<string>)

  /** `findByIdAndUpdate(id, body)`: every field present in the body
      overwrites the stored one (owner and status included). */
  function Merge(a: Assignment, b: AssignmentBody): (r: Assignment)
    ensures (b.user.None? ==> r.user == a.user) && (b.user.Some? ==> r.user == b.user.value)
    ensures (b.title.None? ==> r.title == a.title) && (b.title.Some? ==> r.title == b.title)
    ensures (b.description.None? ==> r.description == a.description)
      && (b.description.Some? ==> r.description == b.description)
    ensures (b.subject.None? ==> r.subject == a.subject)
      && (b.subject.Some? ==> r.subject == b.subject)
    ensures (b.dueDate.None? ==> r.dueDate == a.dueDate)
      && (b.dueDate.Some? ==> r.dueDate == b.dueDate)
    ensures (b.priority.None? ==> r.priority == a.priority)
      && (b.priority.Some? ==> r.priority == b.priority)
    ensures (b.status.None? ==> r.status == a.status)
      && (b.status.Some? ==> r.status == b.status.value)
    ensures b == AssignmentBody(None, None, None, None, None, None, None) ==> r == a
  {
    Assignment(
      b.user.GetOr(a.user),
      if b.title.Some? then b.title else a.title,
      if b.description.Some? then b.description else a.description,
      if b.subject.Some? then b.subject else a.subject,
      if b.dueDate.Some? then b.dueDate else a.dueDate,
      if b.priority.Some? then b.priority else a.priority,
      b.status.GetOr(a.status))
  }

  /** Sending the same PUT twice leaves the assignment as the first one did. */
  lemma MergeIdempotent(d: Assignment, b: AssignmentBody)
    ensures Merge(Merge(d, b), b) == Merge(d, b)
  {
  }

  /** The sort specification `{ dueDate: 1 }`; an assignment without a due
      date sorts first, as a missing value does in MongoDB. */
  function DueKey(a: Assignment): Key {
    match a.dueDate
    case None => [Null]
    case Some(d) => [Num(d)]
  }

  lemma DueOrder(r: seq<Entry<Assignment>>)
    requires SortedBy(r, DueKey)
    ensures forall i, j :: 0 <= i < j < |r| && r[i].doc.dueDate.Some? ==>
      r[j].doc.dueDate.Some? && r[i].doc.dueDate.value <= r[j].doc.dueDate.value
  {
    forall i, j | 0 <= i < j < |r| && r[i].doc.dueDate.Some?
      ensures r[j].doc.dueDate.Some? && r[i].doc.dueDate.value <= r[j].doc.dueDate.value
    {
      SingleKeyLe(DueKey(r[i].doc)[0], DueKey(r[j].doc)[0]);
    }
  }

  /** The assignment collection. */
  class AssignmentCollection {
    var docs: map<Id, Assignment>

    constructor ()
      ensures docs == map[]
    {
      docs := map[];
    }

    /** `findOne({ _id: id, user: caller })` finds an assignment. */
    predicate Owns(caller: UserId, id: Id)
      reads this
    {
      id in docs && docs[id].user == caller
    }

    /** `find({ user: caller })`. */
    function Mine(caller: UserId): (r: map<Id, Assignment>)
      reads this
      ensures forall k :: k in r <==> Owns(caller, k)
      ensures forall k :: k in r ==> k in docs && r[k] == docs[k]
    {
      Where(docs, (d: Assignment) => d.user == caller)
    }

    /** GET `/`: exactly the caller's assignments, each once, by due date
        (those without one first). */
    function List(caller: UserId): (r: seq<Entry<Assignment>>)
      reads this
      ensures forall i :: 0 <= i < |r| ==>
        r[i].id in docs && r[i].doc == docs[r[i].id] && r[i].doc.user == caller
      ensures forall k :: Owns(caller, k) ==> k in Ids(r)
      ensures forall i, j :: 0 <= i < j < |r| ==> r[i].id != r[j].id
      ensures forall i, j :: 0 <= i < j < |r| && r[i].doc.dueDate.Some? ==>
        r[j].doc.dueDate.Some? && r[i].doc.dueDate.value <= r[j].doc.dueDate.value
    {
      var r := SortByKey(Mine(caller), DueKey);
      DueOrder(r);
      r
    }

    /** POST `/`: a new assignment owned by the caller (whatever `user` the
        body holds) with the body's five fields and the default status
        (whatever `status` the body holds). */
    method Create(caller: UserId, id: Id, body: AssignmentBody) returns (r: Reply<Assignment>)
      requires id !in docs
      modifies this
      ensures r.Ok? && docs == old(docs)[id := r.value]
      ensures r.value.user == caller && r.value.status == DefaultStatus
      ensures r.value.title == body.title && r.value.description == body.description
      ensures r.value.subject == body.subject && r.value.dueDate == body.dueDate
      ensures r.value.priority == body.priority
    {
      var a := Assignment(caller, body.title, body.description, body.subject,
                          body.dueDate, body.priority, DefaultStatus);
      docs := docs[id := a];
      r := Ok(a);
    }

    /** PUT `/:id`: the owner's assignment with the body merged in. */
    method Update(caller: UserId, id: Id, body: AssignmentBody) returns (r: Reply<Assignment>)
      modifies this
      ensures !old(Owns(caller, id)) ==> r == NotFound && docs == old(docs)
      ensures old(Owns(caller, id)) ==>
        r == Ok(Merge(old(docs)[id], body)) && docs == old(docs)[id := r.value]
    {
      if !Owns(caller, id) {
        return NotFound;
      }
      var updated := Merge(docs[id], body);
      docs := docs[id := updated];
      r := Ok(updated);
    }

    /** DELETE `/:id`: removes exactly the owner's assignment. */
    method Delete(caller: UserId, id: Id) returns (r: Reply<Assignment>)
      modifies this
      ensures !old(Owns(caller, id)) ==> r == NotFound && docs == old(docs)
      ensures old(Owns(caller, id)) ==> r == Removed && docs == old(docs) - {id}
    {
      if !Owns(caller, id) {
        return NotFound;
      }
      docs := docs - {id};
      r := Removed;
    }

    /** PATCH `/:id/status`: toggles the status of the owner's assignment,
        and changes nothing else, in it or in the collection. */
    method ToggleStatus(caller: UserId, id: Id) returns (r: Reply<Assignment>)
      modifies this
      ensures !old(Owns(caller, id)) ==> r == NotFound && docs == old(docs)
      ensures old(Owns(caller, id)) ==>
        && r.Ok? && docs == old(docs)[id := r.value]
        && r.value == old(docs)[id].(status := Toggled(old(docs)[id].status))
    {
      if !Owns(caller, id) {
        return NotFound;
      }
      var a := docs[id];
      a := a.(status := Toggled(a.status));
      docs := docs[id := a];
      r := Ok(a);
    }
  }
}
