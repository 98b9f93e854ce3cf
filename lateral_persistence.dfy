/** Lateral-synthesis history: a completed session is written as one JSON line to a
    file whose name carries a sanitised timestamp, and the newest files are read back.
    The log directory is a record of file names and their lines; JSON text itself is
    not modelled, a line is already classified as blank, malformed or a session record. */
module LateralPersistence {
  import opened Common
  import opened LateralModels

  const HistoryPrefix: string := "lateral-synthesis-session-"
  const HistorySuffix: string := ".jsonl"

  // ---------------------------------------------------------------------------
  // File names
  // ---------------------------------------------------------------------------

  /** `ts.replace(":", "").replace("-", "").split(".")[0]`. */
  function SanitizeTimestamp(ts: string): (r: string)
    ensures ':' !in r && '-' !in r && '.' !in r
    ensures |r| <= |ts|
  {
    var s := RemoveChar(RemoveChar(ts, ':'), '-');
    var r := BeforeFirst(s, '.');
    assert forall c :: c in r ==> c in s;
    r
  }

  lemma {:induction false} RemoveAbsentChar(s: string, c: char)
    requires c !in s
    ensures RemoveChar(s, c) == s
  {
    if s != [] {
      RemoveAbsentChar(s[1..], c);
    }
  }

  lemma {:induction false} BeforeAbsentSep(s: string, sep: char)
    requires sep !in s
    ensures BeforeFirst(s, sep) == s
  {
    if s != [] {
      BeforeAbsentSep(s[1..], sep);
    }
  }

  /** A timestamp that is already sanitised comes through unchanged, so sanitising twice
      is the same as sanitising once. */
  lemma SanitizeIdempotent(ts: string)
    ensures SanitizeTimestamp(SanitizeTimestamp(ts)) == SanitizeTimestamp(ts)
  {
    var r := SanitizeTimestamp(ts);
    RemoveAbsentChar(r, ':');
    RemoveAbsentChar(r, '-');
    BeforeAbsentSep(r, '.');
  }

  /** The timestamp a history file is named after: `completed_at or now`. */
  function SaveTimestamp(completedAt: Option<string>, now: string): (ts: string)
    ensures Truthy(completedAt) ==> ts == completedAt.value
    ensures !Truthy(completedAt) ==> ts == now
  {
    if completedAt.Some? && completedAt.value != "" then completedAt.value else now
  }

  /** `lateral-synthesis-session-{ts_str}-{session_id[:8]}.jsonl`. */
  function HistoryFileName(ts: string, sessionId: string): (name: string)
    ensures |name| == |HistoryPrefix| + |SanitizeTimestamp(ts)| + 1 + |Take(sessionId, 8)| + |HistorySuffix|
  {
    HistoryPrefix + SanitizeTimestamp(ts) + "-" + Take(sessionId, 8) + HistorySuffix
  }

  /** The glob `lateral-synthesis-session-*.jsonl`. */
  predicate MatchesHistoryGlob(name: string)
  {
    |HistoryPrefix| + |HistorySuffix| <= |name| && StartsWith(name, HistoryPrefix) && EndsWith(name, HistorySuffix)
  }

  /** Every file the save writes is one the load finds, and the name gives back the
      sanitised timestamp: it is everything after the prefix up to the first '-',
      since sanitising removed every '-' from it. */
  lemma HistoryFileNameRoundTrip(ts: string, sessionId: string)
    ensures MatchesHistoryGlob(HistoryFileName(ts, sessionId))
    ensures BeforeFirst(HistoryFileName(ts, sessionId)[|HistoryPrefix|..], '-') == SanitizeTimestamp(ts)
  {
    var t := SanitizeTimestamp(ts);
    var u := "-" + Take(sessionId, 8);
    assert HistoryFileName(ts, sessionId) == HistoryPrefix + (t + u) + HistorySuffix;
    Framed(HistoryPrefix, t + u, HistorySuffix);
    assert (t + u) + HistorySuffix == t + (u + HistorySuffix);
    BeforeFirstOfJoin(t, u + HistorySuffix);
  }

  /** A name built as prefix, middle, suffix starts with the prefix, ends with the suffix,
      and is the middle and suffix past the prefix. */
  lemma Framed(p: string, m: string, q: string)
    ensures |p| + |q| <= |p + m + q| && StartsWith(p + m + q, p) && EndsWith(p + m + q, q)
    ensures (p + m + q)[|p|..] == m + q
  {
    assert (p + m + q)[..|p|] == p;
    assert (p + m + q)[|p + m + q| - |q|..] == q;
  }

  lemma {:induction false} BeforeFirstOfJoin(t: string, u: string)
    requires '-' !in t && u != [] && u[0] == '-'
    ensures BeforeFirst(t + u, '-') == t
  {
    if t == [] {
    } else {
      assert (t + u)[1..] == t[1..] + u;
      BeforeFirstOfJoin(t[1..], u);
    }
  }

  // ---------------------------------------------------------------------------
  // Reading history back
  // ---------------------------------------------------------------------------

  /** A line of a log file after `line.strip()`: blank, not JSON (or not a session
      dictionary), or the dictionary `to_dict` wrote. */
  datatype LogLine = Blank | Malformed | Record(data: SessionData)

  /** The names of `names` the glob matches, in order. */
  function Matching(names: seq<string>): (r: seq<string>)
    ensures forall n :: n in r <==> n in names && MatchesHistoryGlob(n)
    ensures |r| <= |names|
  {
    if names == [] then []
    else Matching(names[..|names| - 1]) + (if MatchesHistoryGlob(names[|names| - 1]) then [names[|names| - 1]] else [])
  }

  function NameKey(name: string): string
  {
    name
  }

  /** `s.created_at or ""`. */
  function CreatedKey(s: LateralSession): string
  {
    if s.createdAt.Some? then s.createdAt.value else ""
  }

  /** `s` is what `from_dict` makes of some record line of `lines`. */
  ghost predicate FromRecordLine(s: LateralSession, lines: seq<LogLine>, now: string)
  {
    exists i :: 0 <= i < |lines| && lines[i].Record? && Decode(lines[i].data, now) == Some(s)
  }

  /** `s` comes from a record line of one of `files`. */
  ghost predicate FromHistoryFile(s: LateralSession, files: seq<string>, contents: map<string, seq<LogLine>>, now: string)
  {
    exists f :: f in files && f in contents && FromRecordLine(s, contents[f], now)
  }

  /** The sessions a file's lines yield: blank lines, bad JSON and dictionaries
      `from_dict` rejects are skipped. */
  function ParsedLines(lines: seq<LogLine>, now: string): (r: seq<LateralSession>)
    ensures |r| <= |lines|
    ensures forall s :: s in r ==> FromRecordLine(s, lines, now)
  {
    if lines == [] then []
    else
      var init := lines[..|lines| - 1];
      var last := lines[|lines| - 1];
      var r := ParsedLines(init, now)
               + (if last.Record? && Decode(last.data, now).Some? then [Decode(last.data, now).value] else []);
      assert forall s :: FromRecordLine(s, init, now) ==> FromRecordLine(s, lines, now) by {
        forall s | FromRecordLine(s, init, now) ensures FromRecordLine(s, lines, now) {
          var i :| 0 <= i < |init| && init[i].Record? && Decode(init[i].data, now) == Some(s);
          assert lines[i] == init[i];
        }
      }
      r
  }

  /** The sessions of the given files, file after file; a file that cannot be read yields none. */
  function FromFiles(files: seq<string>, contents: map<string, seq<LogLine>>, now: string): (r: seq<LateralSession>)
    ensures forall s :: s in r ==> FromHistoryFile(s, files, contents, now)
  {
    if files == [] then []
    else
      var init := files[..|files| - 1];
      var f := files[|files| - 1];
      var lines := if f in contents then contents[f] else [];
      var r := FromFiles(init, contents, now) + ParsedLines(lines, now);
      assert forall s :: s in ParsedLines(lines, now) ==> FromHistoryFile(s, files, contents, now) by {
        forall s | s in ParsedLines(lines, now) ensures FromHistoryFile(s, files, contents, now) {
          var i :| 0 <= i < |lines| && lines[i].Record? && Decode(lines[i].data, now) == Some(s);
          assert f in files && f in contents && FromRecordLine(s, contents[f], now);
        }
      }
      assert forall s :: FromHistoryFile(s, init, contents, now) ==> FromHistoryFile(s, files, contents, now) by {
        forall s | FromHistoryFile(s, init, contents, now) ensures FromHistoryFile(s, files, contents, now) {
          var g :| g in init && g in contents && FromRecordLine(s, contents[g], now);
          assert g in files;
        }
      }
      r
  }

  /** The files the load reads: of the names the glob matches, the newest `limit` by name
      (`sorted(..., reverse=True)[:limit]`); every matching name left out sorts no later
      than every name read. */
  function HistoryFiles(names: seq<string>, limit: int): (r: seq<string>)
    ensures forall f :: f in r ==> f in names && MatchesHistoryGlob(f)
    ensures limit >= 0 ==> |r| == if |Matching(names)| <= limit then |Matching(names)| else limit
    ensures forall f, g :: f in r && g in multiset(Matching(names)) - multiset(r) ==> StrLe(NameKey(g), NameKey(f))
  {
    NewestCut(Matching(names), NameKey, limit);
    var r := SliceTo(SortDesc(Matching(names), NameKey), limit);
    assert forall f :: f in r ==> f in multiset(Matching(names));
    r
  }

  /** What `load_sessions_from_history(limit)` returns for a directory. */
  function Loaded(present: bool, names: seq<string>, contents: map<string, seq<LogLine>>, limit: int, now: string): seq<LateralSession>
  {
    if !present then []
    else SliceTo(SortDesc(FromFiles(HistoryFiles(names, limit), contents, now), CreatedKey), limit)
  }

  /** Of the sessions read from the newest `limit` files, the load keeps the newest
      `min(limit, n)` by `created_at` (for a non-negative limit), newest first: every
      session it leaves out is dated no later than every session it keeps, and each kept
      session is decoded from a record line of one of those files. */
  lemma LoadedShape(present: bool, names: seq<string>, contents: map<string, seq<LogLine>>, limit: int, now: string)
    ensures !present ==> Loaded(present, names, contents, limit, now) == []
    ensures SortedDesc(Loaded(present, names, contents, limit, now), CreatedKey)
    ensures present ==>
              var all := FromFiles(HistoryFiles(names, limit), contents, now);
              var r := Loaded(present, names, contents, limit, now);
              && multiset(r) <= multiset(all)
              && (limit >= 0 ==> |r| == if |all| <= limit then |all| else limit)
              && forall x, y :: x in r && y in multiset(all) - multiset(r) ==> StrLe(CreatedKey(y), CreatedKey(x))
    ensures forall s :: s in Loaded(present, names, contents, limit, now) ==>
              FromHistoryFile(s, HistoryFiles(names, limit), contents, now)
  {
    if present {
      var all := FromFiles(HistoryFiles(names, limit), contents, now);
      NewestCut(all, CreatedKey, limit);
      var r := Loaded(present, names, contents, limit, now);
      forall s | s in r ensures FromHistoryFile(s, HistoryFiles(names, limit), contents, now) {
        assert s in multiset(r);
        assert s in all;
      }
    }
  }

  /** The log directory: whether it exists, its files in listing order, and their lines. */
  class HistoryDir {
    var present: bool
    var names: seq<string>
    var contents: map<string, seq<LogLine>>

    ghost predicate Valid()
      reads this
    {
      && (forall i, j :: 0 <= i < j < |names| ==> names[i] != names[j])
      && (forall n :: n in contents <==> n in names)
      && (!present ==> names == [])
    }

    constructor (present: bool, names: seq<string>, contents: map<string, seq<LogLine>>)
      requires forall i, j :: 0 <= i < j < |names| ==> names[i] != names[j]
      requires forall n :: n in contents <==> n in names
      requires !present ==> names == []
      ensures Valid()
      ensures this.present == present && this.names == names && this.contents == contents
    {
      this.present := present;
      this.names := names;
      this.contents := contents;
    }

    /** `save_session_to_history`: nothing when persistence is off; otherwise the
        directory is made and the file named after the session holds its one record line,
        replacing any file of that name. */
    method Save(enabled: bool, s: LateralSession, now: string)
      requires Valid()
      modifies this
      ensures Valid()
      ensures !enabled ==> unchanged(this)
      ensures enabled ==> present
      ensures enabled ==> contents == old(contents)[HistoryFileName(SaveTimestamp(s.completedAt, now), s.sessionId) := [Record(ToDict(s))]]
      ensures enabled ==> names == old(names) + (if HistoryFileName(SaveTimestamp(s.completedAt, now), s.sessionId) in old(names) then [] else [HistoryFileName(SaveTimestamp(s.completedAt, now), s.sessionId)])
    {
      if !enabled {
        return;
      }
      present := true;
      var ts := SaveTimestamp(s.completedAt, now);
      var name := HistoryFileName(ts, s.sessionId);
      if name !in names {
        names := names + [name];
      }
      contents := contents[name := [Record(ToDict(s))]];
    }

    /** `load_sessions_from_history`: the newest `limit` file names, every session line of
        those files, sorted by `created_at` (missing as "") descending and cut at `limit`. */
    method Load(limit: int, now: string) returns (r: seq<LateralSession>)
      requires Valid()
      ensures r == Loaded(present, names, contents, limit, now)
    {
      if !present {
        return [];
      }
      var files := HistoryFiles(names, limit);
      var sessions: seq<LateralSession> := [];
      var i := 0;
      while i < |files|
        invariant 0 <= i <= |files|
        invariant sessions == FromFiles(files[..i], contents, now)
      {
        var lines := if files[i] in contents then contents[files[i]] else [];
        sessions := AppendParsed(sessions, lines, now);
        FromFilesStep(files, i, contents, now);
        i := i + 1;
      }
      assert files[..i] == files;
      r := SliceTo(SortDesc(sessions, CreatedKey), limit);
    }
  }

  /** Reading one more file appends that file's sessions. */
  lemma FromFilesStep(files: seq<string>, i: nat, contents: map<string, seq<LogLine>>, now: string)
    requires i < |files|
    ensures FromFiles(files[..i + 1], contents, now)
            == FromFiles(files[..i], contents, now)
               + ParsedLines(if files[i] in contents then contents[files[i]] else [], now)
  {
    assert files[..i + 1][..i] == files[..i];
  }

  /** The inner loop of the load: each record line `from_dict` accepts is appended. */
  method AppendParsed(sessions: seq<LateralSession>, lines: seq<LogLine>, now: string) returns (out: seq<LateralSession>)
    ensures out == sessions + ParsedLines(lines, now)
  {
    out := sessions;
    var j := 0;
    while j < |lines|
      invariant 0 <= j <= |lines|
      invariant out == sessions + ParsedLines(lines[..j], now)
    {
      match lines[j] {
        case Blank =>
        case Malformed =>
        case Record(d) =>
          var parsed := FromDict(d, now);
          if parsed.Some? {
            out := out + [parsed.value];
          }
      }
      assert lines[..j + 1][..j] == lines[..j];
      j := j + 1;
    }
    assert lines[..j] == lines;
  }

  lemma SortDescSingleton<T>(x: T, key: T -> string)
    ensures SortDesc([x], key) == [x]
  {
    assert [x][..0] == [];
  }

  lemma ParsedRecord(s: LateralSession, now: string)
    ensures ParsedLines([Record(ToDict(s))], now) == [s]
  {
    DecodeToDict(s, now);
    assert [Record(ToDict(s))][..0] == [];
  }

  /** Saving with persistence on and then loading finds the saved session, when the
      history holds no other file and the limit admits one. */
  lemma SavedSessionIsLoaded(s: LateralSession, now: string, later: string)
    ensures
      var name := HistoryFileName(SaveTimestamp(s.completedAt, now), s.sessionId);
      Loaded(true, [name], map[name := [Record(ToDict(s))]], 1, later) == [s]
  {
    var name := HistoryFileName(SaveTimestamp(s.completedAt, now), s.sessionId);
    var contents := map[name := [Record(ToDict(s))]];
    HistoryFileNameRoundTrip(SaveTimestamp(s.completedAt, now), s.sessionId);
    assert Matching([name]) == [name] by {
      assert [name][..0] == [];
    }
    SortDescSingleton(name, NameKey);
    assert SliceTo([name], 1) == [name];
    ParsedRecord(s, later);
    assert FromFiles([name], contents, later) == [s] by {
      assert [name][..0] == [];
    }
    SortDescSingleton(s, CreatedKey);
    assert SliceTo([s], 1) == [s];
  }
}
