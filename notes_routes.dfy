/** The handlers of routes/notes.js over the note collection, with the
    truncation rule that derives a note's summary from its content. */
module NotesRoutes {
  import opened Common
  import opened Order
  import opened Query
  import opened NoteModel

  /** Characters of content kept by the summary written on create and
      update. */
  const CreateSummaryLength: nat := 150

  /** Characters of content kept by the summary written on summarize. */
  const ResummarizeLength: nat := 500

  /** `content.substring(0, n) + '...'`: at most the first `n` characters of
      the content, then an ellipsis. */
  function Summary(content: string, n: nat): (r: string)
    ensures |r| <= n + 3
    ensures |r| >= 3 && r[|r| - 3..] == "..."
    ensures r[..|r| - 3] <= content
    ensures |content| <= n ==> r == content + "..."
    ensures |content| >= n ==> |r| == n + 3
  {
    var kept := if |content| < n then |content| else n;
    content[..kept] + "..."
  }

  /** The summary written on summarize extends the one written on create:
      both keep a prefix of the same content, the longer limit keeping more. */
  lemma ResummarizeExtends(content: string)
    ensures var short := Summary(content, CreateSummaryLength);
      var long := Summary(content, ResummarizeLength);
      short[..|short| - 3] <= long[..|long| - 3]
  {
  }

  /** A JSON request body for this resource: any field may be present. POST
      reads subject, title, content and tags; PUT hands the (possibly
      rewritten) body to `findByIdAndUpdate`. */
  datatype NoteBody = NoteBody(
    user: Option<UserId>,
    subject: Option<string>,
    title: Option<string>,
    content: Option<string>,
    summary: Option<string>,
    tags: Option<seq<string>>,
    createdAt: Option<Time>,
    updatedAt: Option<Time>)

  /** The note `Note.create` builds: owner from the caller, summary from the
      content, no tags when the body gives none, both timestamps now. There
      is no note when subject or title is missing. */
  function Build(user: UserId, b: NoteBody, content: string, now: Time): (r: Option<Note>)
    ensures r.Some? <==> b.subject.Some? && b.title.Some?
    ensures r.Some? ==>
      && r.value.user == user && r.value.content == content
      && r.value.subject == b.subject.value && r.value.title == b.title.value
      && r.value.summary == Some(Summary(content, CreateSummaryLength))
      && (b.tags.Some? ==> r.value.tags == b.tags.value) && (b.tags.None? ==> r.value.tags == [])
      && r.value.createdAt == now && r.value.updatedAt == now
  {
    if b.subject.None? || b.title.None? then None
    else Some(Note(user, b.subject.value, b.title.value, content,
                   Some(Summary(content, CreateSummaryLength)), b.tags.GetOr([]), now, now))
  }

  /** The PUT handler's rewrite of the body: a non-empty content that differs
      from the stored one brings a fresh summary with it. */
  function Rewrite(n: Note, b: NoteBody): (r: NoteBody)
    ensures r.(summary := b.summary) == b
    ensures b.content.Some? && Filled(b.content.value) && b.content.value != n.content ==>
      r.summary == Some(Summary(b.content.value, CreateSummaryLength))
    ensures r.summary != b.summary ==>
      && b.content.Some? && Filled(b.content.value) && b.content.value != n.content
      && r.summary == Some(Summary(b.content.value, CreateSummaryLength))
  {
    if b.content.Some? && Filled(b.content.value) && b.content.value != n.content then
      b.(summary := Some(Summary(b.content.value, CreateSummaryLength)))
    else b
  }

  /** `findByIdAndUpdate(id, body)`: every field present in the body
      overwrites the stored one (the owner included), unvalidated and
      without the hook. */
  function Merge(n: Note, b: NoteBody): (r: Note)
    ensures (b.user.None? ==> r.user == n.user) && (b.user.Some? ==> r.user == b.user.value)
    ensures (b.subject.None? ==> r.subject == n.subject)
      && (b.subject.Some? ==> r.subject == b.subject.value)
    ensures (b.title.None? ==> r.title == n.title)
      && (b.title.Some? ==> r.title == b.title.value)
    ensures (b.content.None? ==> r.content == n.content)
      && (b.content.Some? ==> r.content == b.content.value)
    ensures (b.summary.None? ==> r.summary == n.summary)
      && (b.summary.Some? ==> r.summary == b.summary)
    ensures (b.tags.None? ==> r.tags == n.tags) && (b.tags.Some? ==> r.tags == b.tags.value)
    ensures (b.createdAt.None? ==> r.createdAt == n.createdAt)
      && (b.createdAt.Some? ==> r.createdAt == b.createdAt.value)
    ensures (b.updatedAt.None? ==> r.updatedAt == n.updatedAt)
      && (b.updatedAt.Some? ==> r.updatedAt == b.updatedAt.value)
    ensures b == NoteBody(None, None, None, None, None, None, None, None) ==> r == n
  {
    Note(
      b.user.GetOr(n.user),
      b.subject.GetOr(n.subject),
      b.title.GetOr(n.title),
      b.content.GetOr(n.content),
      if b.summary.Some? then b.summary else n.summary,
      b.tags.GetOr(n.tags),
      b.createdAt.GetOr(n.createdAt),
      b.updatedAt.GetOr(n.updatedAt))
  }

  /** What a PUT does to the summary: new non-empty content that differs
      from the stored content brings the summary of the new content;
      otherwise the summary is the body's, if it has one, or the stored one. */
  lemma UpdateSummary(n: Note, b: NoteBody)
    ensures var u := Merge(n, Rewrite(n, b));
      if b.content.Some? && Filled(b.content.value) && b.content.value != n.content then
        u.content == b.content.value && u.summary == Some(Summary(u.content, CreateSummaryLength))
      else
        u.summary == (if b.summary.Some? then b.summary else n.summary)
  {
  }

  /** Apart from the summary, a PUT overwrites exactly the fields its body
      holds: an absent field keeps its stored value, a present one takes
      the body's, whatever the content rewrite does. */
  lemma UpdateKeepsAbsentFields(n: Note, b: NoteBody)
    ensures var u := Merge(n, Rewrite(n, b));
      && (b.user.None? ==> u.user == n.user) && (b.user.Some? ==> u.user == b.user.value)
      && (b.subject.None? ==> u.subject == n.subject)
      && (b.subject.Some? ==> u.subject == b.subject.value)
      && (b.title.None? ==> u.title == n.title) && (b.title.Some? ==> u.title == b.title.value)
      && (b.content.None? ==> u.content == n.content)
      && (b.content.Some? ==> u.content == b.content.value)
      && (b.tags.None? ==> u.tags == n.tags) && (b.tags.Some? ==> u.tags == b.tags.value)
      && (b.createdAt.None? ==> u.createdAt == n.createdAt)
      && (b.createdAt.Some? ==> u.createdAt == b.createdAt.value)
      && (b.updatedAt.None? ==> u.updatedAt == n.updatedAt)
      && (b.updatedAt.Some? ==> u.updatedAt == b.updatedAt.value)
  {
  }

  /** Sending the same PUT twice leaves the note as the first one did when
      the body carries no summary: the second time the content no longer
      differs, so no summary is recomputed and the first one stays. */
  lemma UpdateRepeated(n: Note, b: NoteBody)
    requires b.summary.None?
    ensures var u := Merge(n, Rewrite(n, b));
      Merge(u, Rewrite(u, b)) == u
  {
  }

  /** With a summary in the body it does not: a first PUT of new non-empty
      content stores the computed summary in place of the body's, and the
      same PUT sent again stores the body's summary. */
  lemma UpdateRepeatedWithSummary(n: Note, b: NoteBody)
    requires b.content.Some? && Filled(b.content.value) && b.content.value != n.content
    requires b.summary.Some?
    ensures var u := Merge(n, Rewrite(n, b));
      && u.summary == Some(Summary(b.content.value, CreateSummaryLength))
      && Merge(u, Rewrite(u, b)).summary == b.summary
  {
  }

  /** Concretely: stored content "old", body content "new" with summary
      "mine" stores "new..." the first time and "mine" the second. */
  lemma UpdateRepeatedWithSummaryExample(n: Note)
    requires n.content == "old"
    ensures var b := NoteBody(None, None, None, Some("new"), Some("mine"), None, None, None);
      var u := Merge(n, Rewrite(n, b));
      u.summary == Some("new...") && Merge(u, Rewrite(u, b)).summary == Some("mine")
  {
    var b := NoteBody(None, None, None, Some("new"), Some("mine"), None, None, None);
    assert "new"[0] != n.content[0];
    assert Summary("new", CreateSummaryLength) == "new" + "..." == "new...";
  }

  /** The sort specification `{ createdAt: -1 }`, newest first. */
  function NewestFirst(n: Note): Key {
    [Num(-n.createdAt)]
  }

  lemma NewestFirstOrder(r: seq<Entry<Note>>)
    requires SortedBy(r, NewestFirst)
    ensures forall i, j :: 0 <= i < j < |r| ==> r[i].doc.createdAt >= r[j].doc.createdAt
  {
    forall i, j | 0 <= i < j < |r| ensures r[i].doc.createdAt >= r[j].doc.createdAt {
      SingleKeyLe(Num(-r[i].doc.createdAt), Num(-r[j].doc.createdAt));
    }
  }

  /** The note collection. */
  class NoteCollection {
    var docs: map<Id, Note>

    constructor ()
      ensures docs == map[]
    {
      docs := map[];
    }

    /** `findOne({ _id: id, user: caller })` finds a note. */
    predicate Owns(caller: UserId, id: Id)
      reads this
    {
      id in docs && docs[id].user == caller
    }

    /** `find({ user: caller })`. */
    function Mine(caller: UserId): (r: map<Id, Note>)
      reads this
      ensures forall k :: k in r <==> Owns(caller, k)
      ensures forall k :: k in r ==> k in docs && r[k] == docs[k]
    {
      Where(docs, (d: Note) => d.user == caller)
    }

    /** GET `/`: exactly the caller's notes, each once, newest first. */
    function List(caller: UserId): (r: seq<Entry<Note>>)
      reads this
      ensures forall i :: 0 <= i < |r| ==>
        r[i].id in docs && r[i].doc == docs[r[i].id] && r[i].doc.user == caller
      ensures forall k :: Owns(caller, k) ==> k in Ids(r)
      ensures forall i, j :: 0 <= i < j < |r| ==> r[i].id != r[j].id
      ensures forall i, j :: 0 <= i < j < |r| ==> r[i].doc.createdAt >= r[j].doc.createdAt
    {
      var r := SortByKey(Mine(caller), NewestFirst);
      NewestFirstOrder(r);
      r
    }

    /** POST `/`: without content the handler throws before anything is
        stored; otherwise a valid note owned by the caller (whatever `user`
        the body holds), summarised from its content, is stored. */
    method Create(caller: UserId, id: Id, body: NoteBody, now: Time) returns (r: Reply<Note>)
      requires id !in docs
      modifies this
      ensures r.Ok? || r == ServerError
      ensures body.content.None? ==> r == ServerError
      ensures r.Ok? <==>
        && body.content.Some? && body.subject.Some? && body.title.Some?
        && Valid(Note(caller, body.subject.value, body.title.value, body.content.value, None, [], now, now))
      ensures r.Ok? ==>
        && docs == old(docs)[id := r.value]
        && Valid(r.value)
        && r.value.user == caller
        && r.value.subject == body.subject.value && r.value.title == body.title.value
        && r.value.content == body.content.value
        && r.value.summary == Some(Summary(r.value.content, CreateSummaryLength))
        && r.value.tags == body.tags.GetOr([])
        && r.value.createdAt == now && r.value.updatedAt == now
      ensures r == ServerError ==> docs == old(docs)
    {
      if body.content.None? {
        return ServerError;
      }
      var built := Build(caller, body, body.content.value, now);
      if built.None? {
        return ServerError;
      }
      var saved := Save(built.value, now);
      if saved.None? {
        return ServerError;
      }
      docs := docs[id := saved.value];
      r := Ok(saved.value);
    }

    /** PUT `/:id`: the owner's note with the rewritten body merged in. */
    method Update(caller: UserId, id: Id, body: NoteBody) returns (r: Reply<Note>)
      modifies this
      ensures !old(Owns(caller, id)) ==> r == NotFound && docs == old(docs)
      ensures old(Owns(caller, id)) ==>
        var n := old(docs)[id];
        r == Ok(Merge(n, Rewrite(n, body))) && docs == old(docs)[id := r.value]
    {
      if !Owns(caller, id) {
        return NotFound;
      }
      var n := docs[id];
      var updated := Merge(n, Rewrite(n, body));
      docs := docs[id := updated];
      r := Ok(updated);
    }

    /** DELETE `/:id`: removes exactly the owner's note. */
    method Delete(caller: UserId, id: Id) returns (r: Reply<Note>)
      modifies this
      ensures !old(Owns(caller, id)) ==> r == NotFound && docs == old(docs)
      ensures old(Owns(caller, id)) ==> r == Removed && docs == old(docs) - {id}
    {
      if !Owns(caller, id) {
        return NotFound;
      }
      docs := docs - {id};
      r := Removed;
    }

    /** POST `/:id/summarize`: the summary of the first 500 characters,
        saved; content, title, subject and tags stay as they were. */
    method Summarize(caller: UserId, id: Id, now: Time) returns (r: Reply<Note>)
      modifies this
      ensures !old(Owns(caller, id)) ==> r == NotFound && docs == old(docs)
      ensures old(Owns(caller, id)) && !Valid(old(docs)[id]) ==> r == ServerError && docs == old(docs)
      ensures old(Owns(caller, id)) && Valid(old(docs)[id]) ==>
        var n := old(docs)[id];
        && r.Ok? && docs == old(docs)[id := r.value]
        && r.value.summary == Some(Summary(n.content, ResummarizeLength))
        && r.value.content == n.content && r.value.title == n.title
        && r.value.subject == n.subject && r.value.tags == n.tags
        && r.value.user == n.user && r.value.createdAt == n.createdAt
        && r.value.updatedAt == now
    {
      if !Owns(caller, id) {
        return NotFound;
      }
      var n := docs[id];
      var saved := Save(n.(summary := Some(Summary(n.content, ResummarizeLength))), now);
      if saved.None? {
        return ServerError;
      }
      docs := docs[id := saved.value];
      r := Ok(saved.value);
    }
  }
}
