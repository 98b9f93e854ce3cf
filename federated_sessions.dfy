/** The federated-intelligence session store: one JSON file per chat session in a
    storage directory. The directory is a map from a file's stem (the session id the
    file was written for) to what the file holds, plus the order in which the
    directory lists its files. */
module FederatedSessions {
  import opened Common

  /** The `metadata` dictionary; its values are modelled as strings. */
  type Metadata = map<string, string>

  datatype Message = Message(role: string, content: string, timestamp: string)

  /** `Session`: `createdAt`/`updatedAt` are `None` only when a file held null or
      nothing there; `metadata` is `None` only when a file held null. */
  datatype Session = Session(
    id: string,
    messages: seq<Message>,
    createdAt: Option<string>,
    updatedAt: Option<string>,
    metadata: Option<Metadata>)

  /** A JSON field that may be missing, null or present. */
  datatype Field<T> = Missing | Null | Present(value: T)

  /** One entry of a file's `messages` list as `json.load` gives it: `role` or `content`
      may be missing, and `otherKeys` says the entry has a key `Message` does not take. */
  datatype RawMessage = RawMessage(role: Option<string>, content: Option<string>, timestamp: string, otherKeys: bool)

  /** `Message(**m)` accepts the entry. */
  predicate Rebuilds(m: RawMessage)
  {
    m.role.Some? && m.content.Some? && !m.otherKeys
  }

  /** The entry `asdict` writes for a message. */
  function RawOf(m: Message): (r: RawMessage)
    ensures Rebuilds(r)
  {
    RawMessage(Some(m.role), Some(m.content), m.timestamp, false)
  }

  function RawsOf(ms: seq<Message>): (r: seq<RawMessage>)
    ensures |r| == |ms| && forall i :: 0 <= i < |ms| ==> r[i] == RawOf(ms[i])
  {
    seq(|ms|, i requires 0 <= i < |ms| => RawOf(ms[i]))
  }

  /** `[Message(**m) for m in messages]`: the first entry `Message` refuses raises. */
  function MessagesOf(raws: seq<RawMessage>): (r: Option<seq<Message>>)
    ensures r.Some? <==> forall i :: 0 <= i < |raws| ==> Rebuilds(raws[i])
    ensures r.Some? ==> |r.value| == |raws| && forall i :: 0 <= i < |raws| ==> RawOf(r.value[i]) == raws[i]
  {
    if raws == [] then Some([])
    else if !Rebuilds(raws[0]) then None
    else
      var rest := MessagesOf(raws[1..]);
      assert forall i :: 1 <= i < |raws| ==> raws[i] == raws[1..][i - 1];
      if rest.None? then None
      else
        var m := Message(raws[0].role.value, raws[0].content.value, raws[0].timestamp);
        assert RawOf(m) == raws[0];
        var r := [m] + rest.value;
        assert forall i :: 1 <= i < |raws| ==> r[i] == rest.value[i - 1];
        Some(r)
  }

  /** Rebuilding the entries `asdict` wrote gives the messages back. */
  lemma MessagesOfRaws(ms: seq<Message>)
    ensures MessagesOf(RawsOf(ms)) == Some(ms)
  {
    var r := MessagesOf(RawsOf(ms));
    assert r.Some?;
    assert |r.value| == |ms|;
    forall i | 0 <= i < |ms| ensures r.value[i] == ms[i] {
      var a, b := r.value[i], ms[i];
      assert RawOf(a) == RawsOf(ms)[i] == RawOf(b);
      assert a.role == b.role && a.content == b.content && a.timestamp == b.timestamp;
    }
    assert r.value == ms;
  }

  /** A file of the directory: something `json.load` refuses, or a dictionary. An
      optional key is `None` when it is missing, which `data.get` reads as absent. A file
      whose `messages` is null is `Unreadable`: both readers raise on it (iterating over
      `None`, `len(None)`). */
  datatype SessionFile =
    | Unreadable
    | Record(
        id: Option<string>,
        messages: Option<seq<RawMessage>>,
        createdAt: Option<string>,
        updatedAt: Option<string>,
        metadata: Field<Metadata>)

  /** Every entry of the file's `messages` (if any) is one `Message` accepts. */
  predicate MessagesRebuild(f: SessionFile)
    requires f.Record?
  {
    f.messages.Some? ==> forall i :: 0 <= i < |f.messages.value| ==> Rebuilds(f.messages.value[i])
  }

  /** `asdict(session)`. */
  function RecordOf(s: Session): (f: SessionFile)
    ensures f.Record? && f.id == Some(s.id) && f.messages == Some(RawsOf(s.messages))
  {
    Record(Some(s.id), Some(RawsOf(s.messages)), s.createdAt, s.updatedAt,
           if s.metadata.Some? then Present(s.metadata.value) else Null)
  }

  /** What `get_session` rebuilds from a file: nothing for an unreadable file, one with
      an entry `Message` refuses, or one without an `id` (each exception is caught);
      otherwise the documented defaults. */
  function SessionOf(f: SessionFile): (r: Option<Session>)
    ensures r.Some? <==> f.Record? && f.id.Some? && MessagesRebuild(f)
    ensures r.Some? ==> r.value.id == f.id.value && r.value.createdAt == f.createdAt && r.value.updatedAt == f.updatedAt
    ensures r.Some? && f.messages.None? ==> r.value.messages == []
    ensures r.Some? && f.messages.Some? ==>
              |r.value.messages| == |f.messages.value|
              && forall i :: 0 <= i < |f.messages.value| ==> RawOf(r.value.messages[i]) == f.messages.value[i]
    ensures r.Some? && f.metadata.Missing? ==> r.value.metadata == Some(map[])
  {
    if f.Unreadable? then None
    else
      var msgs := if f.messages.Some? then MessagesOf(f.messages.value) else Some([]);
      if msgs.None? || f.id.None? then None
      else Some(Session(
        f.id.value,
        msgs.value,
        f.createdAt,
        f.updatedAt,
        match f.metadata
          case Missing => Some(map[])
          case Null => None
          case Present(m) => Some(m)))
  }

  /** Reading back what `save_session` wrote gives the session. */
  lemma SessionOfRecord(s: Session)
    ensures SessionOf(RecordOf(s)) == Some(s)
  {
    MessagesOfRaws(s.messages);
  }

  /** One row of `list_sessions`. */
  datatype ListEntry = ListEntry(id: string, createdAt: Option<string>, messageCount: nat, preview: string)

  /** The row a file contributes, if any: the last message's first 50 characters is the
      preview, or "" when there are no messages. Only the count and the last entry's
      `content` are read, so an entry `Message` would refuse does not stop the row. */
  function EntryOf(f: SessionFile): (r: Option<ListEntry>)
    ensures r.Some? <==> f.Record? && f.id.Some? && (LastEntry(f).Some? ==> LastEntry(f).value.content.Some?)
    ensures r.Some? ==> r.value.id == f.id.value && r.value.createdAt == f.createdAt
    ensures r.Some? ==> r.value.messageCount == (if f.messages.Some? then |f.messages.value| else 0)
    ensures r.Some? ==> |r.value.preview| <= 50
    ensures r.Some? && LastEntry(f).Some? ==> r.value.preview == Take(LastEntry(f).value.content.value, 50)
    ensures r.Some? && LastEntry(f).None? ==> r.value.preview == ""
  {
    if f.Unreadable? || f.id.None? then None
    else
      var raws := if f.messages.Some? then f.messages.value else [];
      if raws == [] then Some(ListEntry(f.id.value, f.createdAt, 0, ""))
      else
        var last := raws[|raws| - 1];
        if last.content.None? then None
        else Some(ListEntry(f.id.value, f.createdAt, |raws|, Take(last.content.value, 50)))
  }

  /** The last entry of a file's `messages`, when there is one. */
  function LastEntry(f: SessionFile): Option<RawMessage>
  {
    if f.Record? && f.messages.Some? && f.messages.value != [] then Some(f.messages.value[|f.messages.value| - 1])
    else None
  }

  /** The two readers refuse different files: one whose earlier entry `Message` refuses
      but whose last entry has a `content` is listed, yet `get_session` cannot read it. */
  lemma ListedButUnread(f: SessionFile, i: nat)
    requires f.Record? && f.id.Some? && f.messages.Some? && i < |f.messages.value|
    requires !Rebuilds(f.messages.value[i]) && f.messages.value[|f.messages.value| - 1].content.Some?
    ensures EntryOf(f).Some? && SessionOf(f).None?
  {
  }

  /** Every file `get_session` can read is also listed, with its message count. */
  lemma ReadIsListed(f: SessionFile)
    requires SessionOf(f).Some?
    ensures EntryOf(f).Some? && EntryOf(f).value.messageCount == |SessionOf(f).value.messages|
  {
    if LastEntry(f).Some? {
      var raws := f.messages.value;
      assert Rebuilds(raws[|raws| - 1]);
    }
  }

  /** The rows of the files in listing order. */
  function Entries(names: seq<string>, files: map<string, SessionFile>): (r: seq<ListEntry>)
    requires forall n :: n in names ==> n in files
    ensures |r| <= |names|
    ensures forall e :: e in r ==> exists n :: n in names && EntryOf(files[n]) == Some(e)
    ensures forall n :: n in names && EntryOf(files[n]).Some? ==> EntryOf(files[n]).value in r
  {
    if names == [] then []
    else
      var n := names[|names| - 1];
      Entries(names[..|names| - 1], files) + (if EntryOf(files[n]).Some? then [EntryOf(files[n]).value] else [])
  }

  function CreatedKey(e: ListEntry): string
  {
    if e.createdAt.Some? then e.createdAt.value else ""
  }

  predicate SomeUndated(entries: seq<ListEntry>)
  {
    exists i :: 0 <= i < |entries| && entries[i].createdAt.None?
  }

  /** `sorted(sessions, key=created_at, reverse=True)`: comparing a null `created_at`
      raises `TypeError`, which happens as soon as there are two rows and one of them
      has none; otherwise a stable sort, newest first. */
  function Listed(entries: seq<ListEntry>): (r: Option<seq<ListEntry>>)
    ensures r.None? <==> |entries| >= 2 && SomeUndated(entries)
    ensures r.Some? ==> multiset(r.value) == multiset(entries)
  {
    if |entries| >= 2 && SomeUndated(entries) then None else Some(SortDesc(entries, CreatedKey))
  }

  lemma ListedSorted(entries: seq<ListEntry>)
    requires Listed(entries).Some?
    ensures SortedDesc(Listed(entries).value, CreatedKey)
  {
    SortDescSorted(entries, CreatedKey);
  }

  /** `get_session` on a directory: nothing for an id with no file or one it cannot rebuild. */
  function Read(files: map<string, SessionFile>, id: string): (r: Option<Session>)
    ensures id !in files ==> r == None
    ensures r.Some? <==> id in files && files[id].Record? && files[id].id.Some? && MessagesRebuild(files[id])
  {
    if id in files then SessionOf(files[id]) else None
  }

  /** The directory after `add_message(id, ...)`: unchanged when the session cannot be
      read; otherwise the session read back, with the message appended, is written to
      the file of its own id. */
  function AfterAdd(files: map<string, SessionFile>, id: string, m: Message, now: string): (r: map<string, SessionFile>)
    ensures Read(files, id).None? ==> r == files
    ensures Read(files, id).Some? ==> r == files[Read(files, id).value.id := RecordOf(Appended(Read(files, id).value, m, now))]
  {
    match Read(files, id)
    case None => files
    case Some(s) => files[s.id := RecordOf(Appended(s, m, now))]
  }

  predicate Distinct(xs: seq<string>)
  {
    forall i, j :: 0 <= i < j < |xs| ==> xs[i] != xs[j]
  }

  /** `SessionManager`: the storage directory. */
  class SessionManager {
    var files: map<string, SessionFile>
    /** The order in which the directory lists its files (new files at the end). */
    var names: seq<string>

    ghost predicate Valid()
      reads this
    {
      Distinct(names) && (forall n :: n in files <==> n in names)
    }

    /** Every file with an `id` holds the session it is named after, which is what the
        store itself writes. */
    ghost predicate NamedByIds()
      reads this
    {
      forall n :: n in files && files[n].Record? && files[n].id.Some? ==> files[n].id.value == n
    }

    constructor (files: map<string, SessionFile>, names: seq<string>)
      requires Distinct(names) && (forall n :: n in files <==> n in names)
      ensures Valid()
      ensures this.files == files && this.names == names
    {
      this.files := files;
      this.names := names;
    }

    /** `get_session`: nothing for an id with no file or one it cannot rebuild. */
    function GetSession(id: string): (r: Option<Session>)
      reads this
      ensures r == Read(files, id)
      ensures r.Some? && NamedByIds() ==> r.value.id == id
    {
      Read(files, id)
    }

    /** `save_session`: stamps `updated_at` with `now` and writes the session to the file
        named after its id, which joins the listing if it is new. */
    method SaveSession(s: Session, now: string) returns (saved: Session)
      requires Valid()
      modifies this
      ensures Valid()
      ensures saved == s.(updatedAt := Some(now))
      ensures files == old(files)[s.id := RecordOf(saved)]
      ensures names == old(names) + (if s.id in old(files) then [] else [s.id])
      ensures old(NamedByIds()) ==> NamedByIds()
    {
      saved := s.(updatedAt := Some(now));
      if s.id !in files {
        names := names + [s.id];
      }
      files := files[s.id := RecordOf(saved)];
    }

    /** `create_session`: a fresh id, no messages, the metadata given (or `{}`), both
        timestamps `now`; the session is saved before it is returned. */
    method CreateSession(metadata: Option<Metadata>, newId: string, now: string) returns (s: Session)
      requires Valid()
      modifies this
      ensures Valid()
      ensures s == Session(newId, [], Some(now), Some(now), Some(if metadata.Some? then metadata.value else map[]))
      ensures files == old(files)[newId := RecordOf(s)]
      ensures names == old(names) + (if newId in old(files) then [] else [newId])
      ensures GetSession(newId) == Some(s)
      ensures old(NamedByIds()) ==> NamedByIds()
    {
      var blank := Session(newId, [], Some(now), Some(now), Some(if metadata.Some? then metadata.value else map[]));
      s := SaveSession(blank, now);
    }

    /** `add_message`: `false` (the `ValueError`) for an id `get_session` cannot read;
        otherwise the session read back gains the message at the end and is saved. */
    method AddMessage(id: string, role: string, content: string, now: string) returns (ok: bool)
      requires Valid()
      modifies this
      ensures Valid()
      ensures ok <==> old(GetSession(id)).Some?
      ensures !ok ==> files == old(files) && names == old(names)
      ensures files == AfterAdd(old(files), id, Message(role, content, now), now)
      ensures ok && old(NamedByIds()) ==> names == old(names)
      ensures old(NamedByIds()) ==> NamedByIds()
    {
      var s := GetSession(id);
      if s.None? {
        return false;
      }
      var t := s.value.(messages := s.value.messages + [Message(role, content, now)]);
      var saved := SaveSession(t, now);
      ok := true;
    }

    /** `list_sessions`: one row per file it can read, in listing order, then sorted. */
    method ListSessions() returns (r: Option<seq<ListEntry>>)
      requires Valid()
      ensures r == Listed(Entries(names, files))
    {
      var rows: seq<ListEntry> := [];
      var i := 0;
      while i < |names|
        invariant 0 <= i <= |names|
        invariant rows == Entries(names[..i], files)
      {
        var entry := EntryOf(files[names[i]]);
        if entry.Some? {
          rows := rows + [entry.value];
        }
        assert names[..i + 1][..i] == names[..i];
        i := i + 1;
      }
      assert names[..i] == names;
      r := Listed(rows);
    }
  }

  /** The session `add_message` saves: the message at the end, `updated_at` refreshed. */
  function Appended(s: Session, m: Message, now: string): (t: Session)
    ensures |t.messages| == |s.messages| + 1 && t.messages[..|s.messages|] == s.messages
    ensures t.messages[|s.messages|] == m
    ensures t.id == s.id && t.createdAt == s.createdAt && t.metadata == s.metadata && t.updatedAt == Some(now)
  {
    s.(messages := s.messages + [m], updatedAt := Some(now))
  }

  /** After `add_message` on a session stored under its own id, reading it back gives
      the old messages and then the new one, and nothing else about it changes. */
  lemma AddMessageReadBack(files: map<string, SessionFile>, id: string, m: Message, now: string)
    requires Read(files, id).Some? && Read(files, id).value.id == id
    ensures Read(AfterAdd(files, id, m, now), id) == Some(Appended(Read(files, id).value, m, now))
    ensures Read(AfterAdd(files, id, m, now), id).value.messages == Read(files, id).value.messages + [m]
  {
    SessionOfRecord(Appended(Read(files, id).value, m, now));
  }
}
