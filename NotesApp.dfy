/** The notes reconciler: the local, ordered array of note records and the
    rules by which it follows the server. Each rule is first a function on
    the array (`Created`, `Updated`, `Deleted`, `AppliedReply`) with the
    lemmas that say what it does; the class `NotesApp` then performs it in
    place, with the loops of `notesapp.cpp`, and forwards non-local changes to
    the connection. */
module Notes {

  import opened Wrappers
  import opened Json
  import opened Sequences
  import Nextcloud

  /** A note record's id, read as `toInt(default)` from its `id` field;
      records that are not objects read as having no fields. */
  function RecordId(record: Json, default: Int32): (r: Int32)
    ensures r == default || Value(AsObject(record), "id") == Num(r as real)
    ensures Value(AsObject(record), "id").Num? && IsInt32(Value(AsObject(record), "id").d)
            ==> r as real == Value(AsObject(record), "id").d
  {
    ToInt(Value(AsObject(record), "id"), default)
  }

  // ---------------------------------------------------------------------
  // createNote

  /** The array after `createNote`: the note is appended unless a
      structurally equal record is already there. */
  function Created(notes: seq<Json>, note: Object): (r: seq<Json>)
    ensures Obj(note) in r
    ensures |notes| <= |r| <= |notes| + 1 && r[..|notes|] == notes
    ensures Obj(note) in notes ==> r == notes
    ensures Obj(note) !in notes ==> |r| == |notes| + 1
  {
    if Obj(note) in notes then notes else notes + [Obj(note)]
  }

  /** Creating the same note twice is creating it once. */
  lemma CreateIdempotent(notes: seq<Json>, note: Object)
    ensures Created(Created(notes, note), note) == Created(notes, note)
  {
  }

  /** `createNote` never introduces a duplicate: a note that was absent
      occurs exactly once afterwards, and every other record keeps its count. */
  lemma CreateNoDuplicate(notes: seq<Json>, note: Object)
    requires Obj(note) !in notes
    ensures multiset(Created(notes, note))[Obj(note)] == 1
    ensures forall x :: x != Obj(note) ==> multiset(Created(notes, note))[x] == multiset(notes)[x]
  {
    assert multiset(notes)[Obj(note)] == 0;
    assert multiset(Created(notes, note)) == multiset(notes) + multiset{Obj(note)};
  }

  // ---------------------------------------------------------------------
  // updateNote

  /** The scan test of `updateNote`: a record with a positive id (read with
      default -1) matches on that id; any other record matches when its
      `content` equals the note's, a missing `content` on both sides included. */
  predicate MatchesUpdate(record: Json, id: int, note: Object)
  {
    var localId := RecordId(record, -1);
    if localId > 0 then localId == id
    else Value(AsObject(record), "content") == Value(note, "content")
  }

  function UpdateMatch(id: int, note: Object): Json -> bool
  {
    record => MatchesUpdate(record, id, note)
  }

  /** The array after `updateNote`: unchanged when an equal record is
      present; otherwise the first matching record is overwritten by the
      note, and nothing happens when no record matches. */
  function Updated(notes: seq<Json>, id: int, note: Object): (r: seq<Json>)
    ensures |r| == |notes|
    ensures Obj(note) in notes ==> r == notes
    ensures forall j :: 0 <= j < |notes| && r[j] != notes[j] ==> r[j] == Obj(note)
  {
    if Obj(note) in notes then notes
    else
      var k := FirstWhere(notes, UpdateMatch(id, note));
      if k < |notes| then notes[k := Obj(note)] else notes
  }

  /** The local result of `updateNote`: an equal record was present or a record matched. */
  predicate UpdateDone(notes: seq<Json>, id: int, note: Object)
  {
    Obj(note) in notes || exists j :: 0 <= j < |notes| && MatchesUpdate(notes[j], id, note)
  }

  /** Without an equal record, exactly the first matching record is replaced. */
  lemma UpdateReplacesFirstMatch(notes: seq<Json>, id: int, note: Object, k: nat)
    requires Obj(note) !in notes
    requires k < |notes| && MatchesUpdate(notes[k], id, note)
    requires forall j :: 0 <= j < k ==> !MatchesUpdate(notes[j], id, note)
    ensures Updated(notes, id, note) == notes[k := Obj(note)]
  {
    var p := UpdateMatch(id, note);
    forall j | 0 <= j < k
      ensures !p(notes[j])
    {
    }
    FirstWhereIs(notes, p, k);
  }

  /** `updateNote` never inserts: when no record matches, nothing changes. */
  lemma UpdateWithoutMatch(notes: seq<Json>, id: int, note: Object)
    requires forall j :: 0 <= j < |notes| ==> !MatchesUpdate(notes[j], id, note)
    ensures Updated(notes, id, note) == notes
  {
    var p := UpdateMatch(id, note);
    forall j | 0 <= j < |notes|
      ensures !p(notes[j])
    {
    }
    FirstWhereNone(notes, p);
  }

  /** A local `updateNote` reports success exactly when the note is in the array afterwards. */
  lemma UpdateDoneIffPresent(notes: seq<Json>, id: int, note: Object)
    ensures UpdateDone(notes, id, note) <==> Obj(note) in Updated(notes, id, note)
  {
    if Obj(note) !in notes {
      var p := UpdateMatch(id, note);
      var k := FirstWhere(notes, p);
      if k < |notes| {
        assert Updated(notes, id, note)[k] == Obj(note);
      } else {
        FirstWhereNone(notes, p);
        forall j | 0 <= j < |notes|
          ensures !MatchesUpdate(notes[j], id, note)
        {
          assert !p(notes[j]);
        }
      }
    }
  }

  /** Applying the same update twice is applying it once. */
  lemma UpdateIdempotent(notes: seq<Json>, id: int, note: Object)
    ensures Updated(Updated(notes, id, note), id, note) == Updated(notes, id, note)
  {
    var r := Updated(notes, id, note);
    UpdateDoneIffPresent(notes, id, note);
    if Obj(note) !in r {
      UpdateWithoutMatch(notes, id, note);
      UpdateWithoutMatch(r, id, note);
    }
  }

  // ---------------------------------------------------------------------
  // deleteNote

  /** The scan test of `deleteNote`: the id read with default 0 equals the argument. */
  predicate MatchesDelete(record: Json, id: int)
  {
    RecordId(record, 0) == id
  }

  function DeleteMatch(id: int): Json -> bool
  {
    record => MatchesDelete(record, id)
  }

  /** The local result of `deleteNote`: some record carries the id. */
  predicate HasId(notes: seq<Json>, id: int)
  {
    exists j :: 0 <= j < |notes| && MatchesDelete(notes[j], id)
  }

  /** The array after `deleteNote`: the first record carrying the id is
      removed, the others keep their order. */
  function Deleted(notes: seq<Json>, id: int): (r: seq<Json>)
    ensures HasId(notes, id) ==> |r| == |notes| - 1
    ensures !HasId(notes, id) ==> r == notes
    ensures multiset(r) <= multiset(notes)
  {
    var p := DeleteMatch(id);
    var k := FirstWhere(notes, p);
    FirstWhereNone(notes, p);
    if k < |notes| then
      RemoveAtMultiset(notes, k);
      RemoveAt(notes, k)
    else
      assert forall j :: 0 <= j < |notes| ==> !p(notes[j]);
      notes
  }

  /** Exactly the first record carrying the id is removed. */
  lemma DeleteRemovesFirstMatch(notes: seq<Json>, id: int, k: nat)
    requires k < |notes| && MatchesDelete(notes[k], id)
    requires forall j :: 0 <= j < k ==> !MatchesDelete(notes[j], id)
    ensures Deleted(notes, id) == RemoveAt(notes, k)
  {
    var p := DeleteMatch(id);
    forall j | 0 <= j < k
      ensures !p(notes[j])
    {
    }
    FirstWhereIs(notes, p, k);
  }

  /** When at most one record carries the id, a second delete finds nothing. */
  lemma DeleteTwice(notes: seq<Json>, id: int)
    requires forall i, j :: 0 <= i < j < |notes| && MatchesDelete(notes[i], id) ==> !MatchesDelete(notes[j], id)
    ensures !HasId(Deleted(notes, id), id)
    ensures Deleted(Deleted(notes, id), id) == Deleted(notes, id)
  {
    var p := DeleteMatch(id);
    var k := FirstWhere(notes, p);
    if k < |notes| {
      var r := Deleted(notes, id);
      assert r == RemoveAt(notes, k);
      forall j | 0 <= j < |r|
        ensures !MatchesDelete(r[j], id)
      {
        if j < k {
          assert !p(notes[j]);
        } else {
          assert MatchesDelete(notes[k], id);
        }
      }
    }
  }

  // ---------------------------------------------------------------------
  // updateReply

  /** A reply body as parsed by QJsonDocument::fromJson: an object, an
      array, or anything else (including text that does not parse). */
  datatype Document = ObjectDocument(obj: Object) | ArrayDocument(items: seq<Json>) | InvalidDocument

  /** The id a reply record is applied under: `toInt()` with default 0. */
  function ReplyId(obj: Object): Int32
  {
    ToInt(Value(obj, "id"), 0)
  }

  /** The array after a local `updateNote` for each reply element in turn;
      elements that are not objects are applied as empty objects. */
  function ApplyEach(notes: seq<Json>, items: seq<Json>): (r: seq<Json>)
    ensures |r| == |notes|
    decreases |items|
  {
    if items == [] then notes
    else
      var last := AsObject(items[|items| - 1]);
      Updated(ApplyEach(notes, items[..|items| - 1]), ReplyId(last), last)
  }

  /** The array after `updateReply`. */
  function AppliedReply(notes: seq<Json>, reply: Document): (r: seq<Json>)
    ensures |r| == |notes|
    ensures reply.InvalidDocument? ==> r == notes
  {
    match reply
    case ObjectDocument(obj) => Updated(notes, ReplyId(obj), obj)
    case ArrayDocument(items) => ApplyEach(notes, items)
    case InvalidDocument => notes
  }

  /** The reply array is applied from its first element to its last. */
  lemma {:induction false} ApplyEachFirstToLast(notes: seq<Json>, item: Json, items: seq<Json>)
    ensures ApplyEach(notes, [item] + items)
            == ApplyEach(Updated(notes, ReplyId(AsObject(item)), AsObject(item)), items)
    decreases |items|
  {
    var obj := AsObject(item);
    if items == [] {
      assert ([item] + items)[..0] == [];
    } else {
      var front := items[..|items| - 1];
      var last := AsObject(items[|items| - 1]);
      assert ([item] + items)[..|items|] == [item] + front;
      ApplyEachFirstToLast(notes, item, front);
    }
  }

  /** Every record after a reply is an old record or one of the reply's objects:
      a reply replaces records, it never makes any up. */
  lemma {:induction false} ApplyEachFromReply(notes: seq<Json>, items: seq<Json>)
    ensures forall x :: x in ApplyEach(notes, items) ==>
              x in notes || exists j :: 0 <= j < |items| && x == Obj(AsObject(items[j]))
    decreases |items|
  {
    if items != [] {
      var front := items[..|items| - 1];
      var last := AsObject(items[|items| - 1]);
      var before := ApplyEach(notes, front);
      ApplyEachFromReply(notes, front);
      forall x | x in ApplyEach(notes, items)
        ensures x in notes || exists j :: 0 <= j < |items| && x == Obj(AsObject(items[j]))
      {
        var after := ApplyEach(notes, items);
        var i :| 0 <= i < |after| && after[i] == x;
        if x != before[i] {
          assert x == Obj(last);
        } else if x !in notes {
          var j :| 0 <= j < |front| && x == Obj(AsObject(front[j]));
          assert front[j] == items[j];
        }
      }
    }
  }

  /** A reply about a note the array does not know changes nothing: a note
      that exists only on the server is not added by `updateReply`. */
  lemma UnknownReplyIgnored(notes: seq<Json>, obj: Object)
    requires ReplyId(obj) > 0
    requires forall j :: 0 <= j < |notes| ==> RecordId(notes[j], -1) > 0 && RecordId(notes[j], -1) != ReplyId(obj)
    ensures AppliedReply(notes, ObjectDocument(obj)) == notes
  {
    UpdateWithoutMatch(notes, ReplyId(obj), obj);
  }

  // ---------------------------------------------------------------------
  // Capabilities

  /** A version as produced by QVersionNumber::fromString; the text is kept
      and its parsing is not part of this model. */
  datatype VersionNumber = FromString(text: string)

  /** The version a capability value denotes: values that are not strings read as empty text. */
  function VersionOf(v: Json): (r: VersionNumber)
    ensures !v.Str? ==> r == FromString("")
  {
    FromString(AsString(v))
  }

  // ---------------------------------------------------------------------
  // The reconciler object.

  class NotesApp {
    /** The local note records, in order. */
    var notes: seq<Json>
    /** The capabilities object of the notes app, as reported by the server. */
    var capabilities: Object
    const api: Nextcloud.NextcloudApi

    constructor (api: Nextcloud.NextcloudApi)
      ensures this.api == api && notes == [] && capabilities == map[]
    {
      this.api := api;
      notes := [];
      capabilities := map[];
    }

    function ServerVersion(): (v: VersionNumber)
      reads this
      ensures "version" !in capabilities ==> v == FromString("")
    {
      VersionOf(Value(capabilities, "version"))
    }

    /** One version per element of `api_version`, in the same order. */
    method ApiVersions() returns (versions: seq<VersionNumber>)
      ensures var items := AsArray(Value(capabilities, "api_version"));
              |versions| == |items|
              && forall j :: 0 <= j < |items| ==> versions[j] == VersionOf(items[j])
    {
      var items := AsArray(Value(capabilities, "api_version"));
      versions := [];
      var i := 0;
      while i < |items|
        invariant 0 <= i <= |items|
        invariant |versions| == i
        invariant forall j :: 0 <= j < i ==> versions[j] == VersionOf(items[j])
      {
        versions := versions + [VersionOf(items[i])];
        i := i + 1;
      }
    }

    method GetAllNotes(exclude: seq<string>) returns (accepted: bool)
      modifies api`runningRequests, api`sent
      ensures accepted == Nextcloud.DispatchAccepted(api.url)
      ensures api.runningRequests == old(api.runningRequests) + (if accepted then 1 else 0)
      ensures api.sent == old(api.sent)
                          + if accepted then [api.RequestFor(Nextcloud.GET, Nextcloud.NotesEndpoint(exclude), Nextcloud.EmptyBody, true)]
                            else []
    {
      accepted := api.Get(Nextcloud.NotesEndpoint(exclude), true);
    }

    method GetNote(id: Int32) returns (accepted: bool)
      modifies api`runningRequests, api`sent
      ensures accepted == Nextcloud.DispatchAccepted(api.url)
      ensures api.runningRequests == old(api.runningRequests) + (if accepted then 1 else 0)
      ensures api.sent == old(api.sent)
                          + if accepted then [api.RequestFor(Nextcloud.GET, Nextcloud.NoteEndpoint(id), Nextcloud.EmptyBody, true)]
                            else []
    {
      accepted := api.Get(Nextcloud.NoteEndpoint(id), true);
    }

    method CreateNote(note: Object, local: bool) returns (result: bool)
      modifies this`notes, api`runningRequests, api`sent
      ensures notes == Created(old(notes), note)
      ensures local ==> result && api.runningRequests == old(api.runningRequests) && api.sent == old(api.sent)
      ensures !local ==> result == Nextcloud.DispatchAccepted(api.url)
      ensures !local ==> api.runningRequests == old(api.runningRequests) + (if result then 1 else 0)
      ensures !local ==> api.sent == old(api.sent)
                          + if result then [api.RequestFor(Nextcloud.POST, Nextcloud.NotesEndpoint([]), Nextcloud.JsonBody(note), true)]
                            else []
    {
      if Obj(note) !in notes {
        notes := notes + [Obj(note)];
      }
      if !local {
        result := api.Post(Nextcloud.NotesEndpoint([]), Nextcloud.JsonBody(note), true);
      } else {
        result := true;
      }
    }

    method UpdateNote(id: Int32, note: Object, local: bool) returns (result: bool)
      modifies this`notes, api`runningRequests, api`sent
      ensures notes == Updated(old(notes), id, note)
      ensures local ==> result == UpdateDone(old(notes), id, note)
      ensures local ==> api.runningRequests == old(api.runningRequests) && api.sent == old(api.sent)
      ensures !local ==> result == Nextcloud.DispatchAccepted(api.url)
      ensures !local ==> api.runningRequests == old(api.runningRequests) + (if result then 1 else 0)
      ensures !local ==> api.sent == old(api.sent)
                          + if result then [api.RequestFor(Nextcloud.PUT, Nextcloud.NoteEndpoint(id), Nextcloud.JsonBody(note), true)]
                            else []
    {
      var done := true;
      if Obj(note) !in notes {
        done := false;
        var i := 0;
        while i < |notes| && !done
          modifies this`notes
          invariant 0 <= i <= |notes| == |old(notes)|
          invariant !done ==> notes == old(notes)
          invariant !done ==> forall j :: 0 <= j < i ==> !MatchesUpdate(old(notes)[j], id, note)
          invariant done ==> 1 <= i && notes == old(notes)[i - 1 := Obj(note)]
          invariant done ==> MatchesUpdate(old(notes)[i - 1], id, note)
          invariant done ==> forall j :: 0 <= j < i - 1 ==> !MatchesUpdate(old(notes)[j], id, note)
          decreases |notes| - i
        {
          var localNote := AsObject(notes[i]);
          var localId := ToInt(Value(localNote, "id"), -1);
          if localId > 0 {
            if localId == id {
              notes := notes[i := Obj(note)];
              done := true;
            }
          } else {
            if Value(localNote, "content") == Value(note, "content") {
              notes := notes[i := Obj(note)];
              done := true;
            }
          }
          i := i + 1;
        }
        if done {
          UpdateReplacesFirstMatch(old(notes), id, note, i - 1);
        } else {
          UpdateWithoutMatch(old(notes), id, note);
        }
      }
      if !local {
        result := api.Put(Nextcloud.NoteEndpoint(id), Nextcloud.JsonBody(note), true);
      } else {
        result := done;
      }
    }

    method DeleteNote(id: Int32, local: bool) returns (result: bool)
      modifies this`notes, api`runningRequests, api`sent
      ensures notes == Deleted(old(notes), id)
      ensures local ==> result == HasId(old(notes), id)
      ensures local ==> api.runningRequests == old(api.runningRequests) && api.sent == old(api.sent)
      ensures !local ==> result == Nextcloud.DispatchAccepted(api.url)
      ensures !local ==> api.runningRequests == old(api.runningRequests) + (if result then 1 else 0)
      ensures !local ==> api.sent == old(api.sent)
                          + if result then [api.RequestFor(Nextcloud.DELETE, Nextcloud.NoteEndpoint(id), Nextcloud.EmptyBody, true)]
                            else []
    {
      var done := false;
      var i := 0;
      while i < |notes| && !done
        modifies this`notes
        invariant 0 <= i <= |old(notes)|
        invariant !done ==> notes == old(notes)
        invariant !done ==> forall j :: 0 <= j < i ==> !MatchesDelete(old(notes)[j], id)
        invariant done ==> 1 <= i && notes == RemoveAt(old(notes), i - 1)
        invariant done ==> MatchesDelete(old(notes)[i - 1], id)
        invariant done ==> forall j :: 0 <= j < i - 1 ==> !MatchesDelete(old(notes)[j], id)
        decreases |old(notes)| - i
      {
        var localNote := AsObject(notes[i]);
        if ToInt(Value(localNote, "id"), 0) == id {
          notes := RemoveAt(notes, i);
          done := true;
        }
        i := i + 1;
      }
      if done {
        DeleteRemovesFirstMatch(old(notes), id, i - 1);
      }
      if !local {
        result := api.Del(Nextcloud.NoteEndpoint(id), true);
      } else {
        result := done;
      }
    }

    method UpdateReply(reply: Document)
      modifies this`notes, api`runningRequests, api`sent
      ensures notes == AppliedReply(old(notes), reply)
      ensures api.runningRequests == old(api.runningRequests) && api.sent == old(api.sent)
    {
      match reply {
        case ObjectDocument(obj) =>
          var done := UpdateNote(ReplyId(obj), obj, true);
        case ArrayDocument(items) =>
          var i := 0;
          while i < |items|
            invariant 0 <= i <= |items|
            invariant notes == ApplyEach(old(notes), items[..i])
            invariant api.runningRequests == old(api.runningRequests) && api.sent == old(api.sent)
          {
            var obj := AsObject(items[i]);
            var done := UpdateNote(ReplyId(obj), obj, true);
            assert items[..i + 1][..i] == items[..i];
            i := i + 1;
          }
          assert items[..i] == items;
        case InvalidDocument =>
      }
    }
  }
}
