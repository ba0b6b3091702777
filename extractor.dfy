/**
  The waypoint extraction pass of the JSON Waypoints Extractor: every directory
  entry whose name ends in ".json" is parsed, and each document holding a
  "name" and a three-element "position" becomes one waypoint record; the
  records, in listing order, are written to "waypoints.json" in the same folder.

  The folder check, the directory listing, the parse of each file and the
  outcome of the final write are inputs; the lines appended to the log text
  box, the names of the files opened and the effect on the output file are
  outputs.
 */
module Extractor {
  import opened Wrappers
  import opened Json

  /** Colour of every extracted waypoint (0xFFFFFFFF). */
  const WaypointColor: int := 4294967295
  const NamePrefix: string := "Waypoints "
  const JsonSuffix: string := ".json"
  const OutputName: string := "waypoints.json"

  /** One output record: `{"color", "name", "x", "y", "z"}`. */
  datatype Waypoint = Waypoint(color: int, name: string, x: JsonValue, y: JsonValue, z: JsonValue)

  /** What opening and parsing one directory entry gave (a read, decode or syntax error is Unreadable). */
  datatype Content = Unreadable | Parsed(doc: JsonValue)

  /** One name of the directory listing, with what reading it would give. */
  datatype Entry = Entry(name: string, content: Content)

  /** Why a file's `try` block ended in its `except` branch. */
  datatype Failure = ReadFailed | Raised(error: PyError)

  /** What one ".json" file contributes. */
  datatype FileOutcome = Extracted(waypoint: Waypoint) | MissingKeys | Failed(failure: Failure)

  /** A line appended to the log text box (the message wording is not modelled). */
  datatype LogLine =
    | InvalidFolder
    | Extracting
    | ExtractedFrom(file: string)
    | ErrorReading(file: string)
    | ErrorReadingWith(file: string, failure: Failure)
    | SavedAt(path: string)
    | SaveFailed
  {
    /** A line about one source file. */
    predicate IsFileLine() {
      ExtractedFrom? || ErrorReading? || ErrorReadingWith?
    }

    predicate IsError() {
      ErrorReading? || ErrorReadingWith?
    }
  }

  /**
    How writing the output file ends: `open(path, 'w')` raises (the file is
    left as it was), `json.dump` raises after the open truncated the file, or
    the whole list is written.
   */
  datatype WriteOutcome = OpenFailed | DumpFailed | Completed

  /** What the pass does to the output file. */
  datatype OutputFile =
    | Untouched
    | Truncated(path: string)
    | Replaced(path: string, records: seq<Waypoint>)

  predicate EndsWith(s: string, suffix: string) {
    |suffix| <= |s| && s[|s| - |suffix|..] == suffix
  }

  /** The case-sensitive file filter of the pass. */
  predicate IsJsonName(name: string) {
    EndsWith(name, JsonSuffix)
  }

  /** POSIX `os.path.join(folder, "waypoints.json")`. */
  function OutputPath(folder: string): string {
    if folder == [] || folder[|folder| - 1] == '/' then folder + OutputName
    else folder + "/" + OutputName
  }

  /**
    The waypoint built from a document that passed the key test; the first
    subscript that raises is the file's failure.
   */
  function BuildWaypoint(data: JsonValue): Result<Waypoint, PyError> {
    var name :- GetKey(data, "name");
    var position :- GetKey(data, "position");
    var x :- GetIndex(position, 0);
    var y :- GetIndex(position, 1);
    var z :- GetIndex(position, 2);
    Ok(Waypoint(WaypointColor, NamePrefix + PyStr(name), x, y, z))
  }

  /**
    The body of the per-file `try`: the short-circuit key test
    `"position" in data and "name" in data`, then the record.
   */
  function ProcessFile(content: Content): FileOutcome {
    match content
    case Unreadable => Failed(ReadFailed)
    case Parsed(data) =>
      match Contains(data, "position")
      case Err(e) => Failed(Raised(e))
      case Ok(hasPosition) =>
        if !hasPosition then MissingKeys
        else
          match Contains(data, "name")
          case Err(e) => Failed(Raised(e))
          case Ok(hasName) =>
            if !hasName then MissingKeys
            else
              match BuildWaypoint(data)
              case Ok(w) => Extracted(w)
              case Err(e) => Failed(Raised(e))
  }

  /**
    Reference definition of a usable source record: a dict with a "name" and a
    "position" that has three elements to index (a list of at least three
    items, or a string of at least three characters).
   */
  predicate IsSourceRecord(doc: JsonValue) {
    && doc.JObject?
    && Lookup(doc.members, "name").Some?
    && Lookup(doc.members, "position").Some?
    && HasThreeCoordinates(Lookup(doc.members, "position").value)
  }

  predicate HasThreeCoordinates(position: JsonValue) {
    || (position.JArray? && |position.items| >= 3)
    || (position.JString? && |position.s| >= 3)
  }

  /** The results of `f` on every entry, in listing order. */
  function Gather<T>(listing: seq<Entry>, f: Entry -> seq<T>): seq<T> {
    if listing == [] then []
    else Gather(listing[..|listing| - 1], f) + f(listing[|listing| - 1])
  }

  /** The waypoint an entry contributes, if any. */
  function RecordOf(e: Entry): seq<Waypoint> {
    if IsJsonName(e.name) && ProcessFile(e.content).Extracted? then [ProcessFile(e.content).waypoint]
    else []
  }

  /** The log line an entry contributes, if any. */
  function LogOf(e: Entry): seq<LogLine> {
    if !IsJsonName(e.name) then []
    else
      match ProcessFile(e.content)
      case Extracted(_) => [ExtractedFrom(e.name)]
      case MissingKeys => [ErrorReading(e.name)]
      case Failed(f) => [ErrorReadingWith(e.name, f)]
  }

  /** The file an entry makes the pass open, if any. */
  function OpenedBy(e: Entry): seq<string> {
    if IsJsonName(e.name) then [e.name] else []
  }

  function Waypoints(listing: seq<Entry>): seq<Waypoint> {
    Gather(listing, RecordOf)
  }

  function FileLog(listing: seq<Entry>): seq<LogLine> {
    Gather(listing, LogOf)
  }

  function JsonNames(listing: seq<Entry>): seq<string> {
    Gather(listing, OpenedBy)
  }

  function CountErrors(log: seq<LogLine>): nat {
    if log == [] then 0
    else CountErrors(log[..|log| - 1]) + (if log[|log| - 1].IsError() then 1 else 0)
  }

  /** A waypoint as `json.dump` writes it, and so as `json.load` reads it back. */
  function RecordJson(w: Waypoint): JsonValue {
    JObject([("color", JInt(w.color)), ("name", JString(w.name)), ("x", w.x), ("y", w.y), ("z", w.z)])
  }

  /** The document a pass writes to "waypoints.json". */
  function OutputDocument(records: seq<Waypoint>): JsonValue {
    JArray(seq(|records|, i requires 0 <= i < |records| => RecordJson(records[i])))
  }

  /**
    One extraction pass over `folder`. `isDirectory` is `os.path.isdir(folder)`;
    `listingRaises` is whether `os.listdir(folder)` raises, and otherwise
    `listing` is what it returns, with what reading each entry gives; `write`
    is how writing the output file ends.
    Returns the lines appended to the log, the names of the files opened for
    reading, what happened to the output file, and whether an exception left
    the pass (the listing is the one call outside every `try`).
   */
  method ExtractWaypoints(folder: string, isDirectory: bool, listingRaises: bool, listing: seq<Entry>,
                          write: WriteOutcome)
    returns (log: seq<LogLine>, filesRead: seq<string>, output: OutputFile, raised: bool)
    ensures !isDirectory ==> log == [InvalidFolder] && filesRead == [] && output == Untouched && !raised
    ensures isDirectory && listingRaises ==> log == [Extracting] && filesRead == [] && output == Untouched && raised
    ensures isDirectory && !listingRaises ==> !raised && filesRead == JsonNames(listing)
    ensures isDirectory && !listingRaises ==>
      output == match write
                case OpenFailed => Untouched
                case DumpFailed => Truncated(OutputPath(folder))
                case Completed => Replaced(OutputPath(folder), Waypoints(listing))
    ensures isDirectory && !listingRaises ==>
      log == [Extracting] + FileLog(listing)
             + [if write == Completed then SavedAt(OutputPath(folder)) else SaveFailed]
  {
    if !isDirectory {
      return [InvalidFolder], [], Untouched, false;
    }
    log := [Extracting];
    filesRead := [];
    if listingRaises {
      return log, filesRead, Untouched, true;
    }
    var waypoints: seq<Waypoint> := [];
    for i := 0 to |listing|
      invariant waypoints == Waypoints(listing[..i])
      invariant log == [Extracting] + FileLog(listing[..i])
      invariant filesRead == JsonNames(listing[..i])
    {
      var entry := listing[i];
      assert listing[..i + 1][..i] == listing[..i];
      if IsJsonName(entry.name) {
        filesRead := filesRead + [entry.name];
        match ProcessFile(entry.content) {
          case Extracted(w) =>
            waypoints := waypoints + [w];
            log := log + [ExtractedFrom(entry.name)];
          case MissingKeys =>
            log := log + [ErrorReading(entry.name)];
          case Failed(f) =>
            log := log + [ErrorReadingWith(entry.name, f)];
        }
      }
    }
    assert listing[..|listing|] == listing;
    var path := OutputPath(folder);
    raised := false;
    match write {
      case OpenFailed =>
        output := Untouched;
        log := log + [SaveFailed];
      case DumpFailed =>
        output := Truncated(path);
        log := log + [SaveFailed];
      case Completed =>
        output := Replaced(path, waypoints);
        log := log + [SavedAt(path)];
    }
  }

  // ---------------------------------------------------------------------------
  // One file

  /** A file yields a waypoint exactly when its document is a source record. */
  lemma ExtractedIffSourceRecord(content: Content)
    ensures ProcessFile(content).Extracted? <==> content.Parsed? && IsSourceRecord(content.doc)
  {
  }

  /**
    A dict with a "name" and a "position" list of at least three items yields the
    record with the fixed colour, the prefixed name and the first three items.
   */
  lemma SourceRecordWaypoint(members: seq<(string, JsonValue)>, name: JsonValue, items: seq<JsonValue>)
    requires Lookup(members, "name") == Some(name)
    requires Lookup(members, "position") == Some(JArray(items))
    requires |items| >= 3
    ensures ProcessFile(Parsed(JObject(members)))
            == Extracted(Waypoint(4294967295, "Waypoints " + PyStr(name), items[0], items[1], items[2]))
  {
  }

  /** `{"name": "A", "position": [1, 2, 3]}` gives `{color: 4294967295, name: "Waypoints A", x: 1, y: 2, z: 3}`. */
  lemma ExampleRecord()
    ensures ProcessFile(Parsed(JObject([("name", JString("A")), ("position", JArray([JInt(1), JInt(2), JInt(3)]))])))
            == Extracted(Waypoint(4294967295, "Waypoints A", JInt(1), JInt(2), JInt(3)))
  {
  }

  /** A dict yields the "error reading" line without an exception exactly when it lacks a key. */
  lemma MissingKeyIff(members: seq<(string, JsonValue)>)
    ensures ProcessFile(Parsed(JObject(members))) == MissingKeys
            <==> Lookup(members, "name").None? || Lookup(members, "position").None?
  {
  }

  /**
    A dict with both keys whose position cannot give three coordinates fails
    with the exception of the subscript: IndexError for a short list or string,
    KeyError for a dict, TypeError for a number, boolean or null.
   */
  lemma BadPositionFails(members: seq<(string, JsonValue)>)
    requires Lookup(members, "name").Some? && Lookup(members, "position").Some?
    requires !HasThreeCoordinates(Lookup(members, "position").value)
    ensures var position := Lookup(members, "position").value;
      ProcessFile(Parsed(JObject(members)))
      == Failed(Raised(if position.JArray? || position.JString? then IndexError
                       else if position.JObject? then KeyError
                       else TypeError))
  {
  }

  /**
    A document that is not a dict never yields a waypoint; a number, boolean or
    null raises TypeError at the key test.
   */
  lemma NonObjectNeverExtracted(doc: JsonValue)
    requires !doc.JObject?
    ensures !ProcessFile(Parsed(doc)).Extracted?
    ensures doc.JNull? || doc.JBool? || doc.JInt? || doc.JFloat?
            ==> ProcessFile(Parsed(doc)) == Failed(Raised(TypeError))
  {
  }

  /** A previous output file is a list of dicts: it fails the key test without an exception. */
  lemma PreviousOutputIsMissingKeys(records: seq<Waypoint>)
    ensures ProcessFile(Parsed(OutputDocument(records))) == MissingKeys
  {
  }

  // ---------------------------------------------------------------------------
  // The whole listing

  lemma {:induction false} GatherAppend<T>(a: seq<Entry>, b: seq<Entry>, f: Entry -> seq<T>)
    ensures Gather(a + b, f) == Gather(a, f) + Gather(b, f)
    decreases |b|
  {
    if b == [] {
      assert a + b == a;
    } else {
      var b' := b[..|b| - 1];
      assert (a + b)[..|a + b| - 1] == a + b';
      assert (a + b)[|a + b| - 1] == b[|b| - 1];
      GatherAppend(a, b', f);
    }
  }

  lemma GatherSingle<T>(e: Entry, f: Entry -> seq<T>)
    ensures Gather([e], f) == f(e)
  {
    assert [e][..0] == [];
  }

  /**
    An entry whose name does not end in ".json" changes nothing: no waypoint,
    no log line, no file opened.
   */
  lemma NonJsonEntryIgnored(before: seq<Entry>, e: Entry, after: seq<Entry>)
    requires !IsJsonName(e.name)
    ensures Waypoints(before + [e] + after) == Waypoints(before + after)
    ensures FileLog(before + [e] + after) == FileLog(before + after)
    ensures JsonNames(before + [e] + after) == JsonNames(before + after)
  {
    GatherSkip(before, e, after, RecordOf);
    GatherSkip(before, e, after, LogOf);
    GatherSkip(before, e, after, OpenedBy);
  }

  /** An entry on which `f` gives nothing can be dropped from the listing. */
  lemma GatherSkip<T>(before: seq<Entry>, e: Entry, after: seq<Entry>, f: Entry -> seq<T>)
    requires f(e) == []
    ensures Gather(before + [e] + after, f) == Gather(before + after, f)
  {
    GatherAppend(before + [e], after, f);
    GatherAppend(before, [e], f);
    GatherAppend(before, after, f);
    GatherSingle(e, f);
  }

  /**
    Re-running over a folder holding an earlier "waypoints.json" gives the same
    records as without it: the earlier output adds no waypoint.
   */
  lemma PreviousOutputAddsNothing(before: seq<Entry>, previous: seq<Waypoint>, after: seq<Entry>)
    ensures Waypoints(before + [Entry(OutputName, Parsed(OutputDocument(previous)))] + after)
            == Waypoints(before + after)
  {
    var e := Entry(OutputName, Parsed(OutputDocument(previous)));
    PreviousOutputIsMissingKeys(previous);
    GatherSkip(before, e, after, RecordOf);
  }

  /** Every ".json" entry adds exactly one log line, about that file, in listing order. */
  lemma {:induction false} OneLogLinePerJsonFile(listing: seq<Entry>)
    ensures |FileLog(listing)| == |JsonNames(listing)|
    ensures forall k :: 0 <= k < |FileLog(listing)| ==>
              FileLog(listing)[k].IsFileLine() && FileLog(listing)[k].file == JsonNames(listing)[k]
  {
    if listing != [] {
      OneLogLinePerJsonFile(listing[..|listing| - 1]);
    }
  }

  /** Each ".json" entry that is a source record. */
  ghost predicate AllSourceRecords(listing: seq<Entry>) {
    forall i :: 0 <= i < |listing| && IsJsonName(listing[i].name) ==>
      listing[i].content.Parsed? && IsSourceRecord(listing[i].content.doc)
  }

  /** What one entry adds to the counts: at most one file, one line per file, a waypoint or an error. */
  lemma EntryCounts(e: Entry)
    ensures |OpenedBy(e)| <= 1 && |LogOf(e)| == |OpenedBy(e)| && |RecordOf(e)| <= |OpenedBy(e)|
    ensures |RecordOf(e)| == |OpenedBy(e)|
            <==> (IsJsonName(e.name) ==> e.content.Parsed? && IsSourceRecord(e.content.doc))
    ensures LogOf(e) != [] ==> (LogOf(e)[0].IsError() <==> RecordOf(e) == [])
  {
    ExtractedIffSourceRecord(e.content);
  }

  /**
    There are at most as many waypoints as ".json" entries, and one error line
    for each ".json" entry that gave no waypoint.
   */
  lemma {:induction false} WaypointCount(listing: seq<Entry>)
    ensures |Waypoints(listing)| <= |JsonNames(listing)|
    ensures CountErrors(FileLog(listing)) == |JsonNames(listing)| - |Waypoints(listing)|
  {
    if listing != [] {
      var prefix, last := listing[..|listing| - 1], listing[|listing| - 1];
      WaypointCount(prefix);
      EntryCounts(last);
      if LogOf(last) == [] {
        assert FileLog(listing) == FileLog(prefix);
      } else {
        assert FileLog(listing) == FileLog(prefix) + [LogOf(last)[0]];
        CountErrorsSnoc(FileLog(prefix), LogOf(last)[0]);
      }
    }
  }

  /** There are exactly as many waypoints as ".json" entries when, and only when, every one is a source record. */
  lemma {:induction false} WaypointCountExact(listing: seq<Entry>)
    ensures |Waypoints(listing)| == |JsonNames(listing)| <==> AllSourceRecords(listing)
  {
    if listing != [] {
      var prefix, last := listing[..|listing| - 1], listing[|listing| - 1];
      WaypointCountExact(prefix);
      WaypointCount(prefix);
      EntryCounts(last);
      if !AllSourceRecords(prefix) {
        var i :| 0 <= i < |prefix| && IsJsonName(prefix[i].name)
                 && !(prefix[i].content.Parsed? && IsSourceRecord(prefix[i].content.doc));
        assert listing[i] == prefix[i];
      } else if IsJsonName(last.name) ==> last.content.Parsed? && IsSourceRecord(last.content.doc) {
        forall i | 0 <= i < |listing| && IsJsonName(listing[i].name)
          ensures listing[i].content.Parsed? && IsSourceRecord(listing[i].content.doc)
        {
          if i < |prefix| {
            assert listing[i] == prefix[i];
          }
        }
      }
    }
  }

  lemma CountErrorsSnoc(log: seq<LogLine>, line: LogLine)
    ensures CountErrors(log + [line]) == CountErrors(log) + (if line.IsError() then 1 else 0)
  {
    assert (log + [line])[..|log|] == log;
  }

  /** The positions in the listing of the entries that yield a waypoint. */
  ghost function RecordIndices(listing: seq<Entry>): seq<nat> {
    if listing == [] then []
    else
      RecordIndices(listing[..|listing| - 1])
      + (if RecordOf(listing[|listing| - 1]) != [] then [|listing| - 1] else [])
  }

  /**
    The k-th waypoint comes from the k-th entry that yields one: a ".json" entry
    whose outcome is that very waypoint, and the entries are taken in strictly
    increasing listing order.
   */
  lemma {:induction false} WaypointsInListingOrder(listing: seq<Entry>)
    ensures |RecordIndices(listing)| == |Waypoints(listing)|
    ensures forall k :: 0 <= k < |RecordIndices(listing)| ==>
              && RecordIndices(listing)[k] < |listing|
              && IsJsonName(listing[RecordIndices(listing)[k]].name)
              && ProcessFile(listing[RecordIndices(listing)[k]].content) == Extracted(Waypoints(listing)[k])
    ensures forall k, m :: 0 <= k < m < |RecordIndices(listing)| ==>
              RecordIndices(listing)[k] < RecordIndices(listing)[m]
  {
    if listing != [] {
      var prefix := listing[..|listing| - 1];
      WaypointsInListingOrder(prefix);
      forall k | 0 <= k < |RecordIndices(prefix)|
        ensures listing[RecordIndices(prefix)[k]] == prefix[RecordIndices(prefix)[k]]
      {
      }

    }
  }

  /** Conversely, every entry that yields a waypoint is among those positions. */
  lemma {:induction false} EveryRecordIndexed(listing: seq<Entry>)
    ensures forall i :: 0 <= i < |listing| && RecordOf(listing[i]) != [] ==> i in RecordIndices(listing)
  {
    if listing != [] {
      var prefix := listing[..|listing| - 1];
      EveryRecordIndexed(prefix);
      forall i | 0 <= i < |prefix|
        ensures listing[i] == prefix[i]
      {
      }
    }
  }
}
