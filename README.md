# JSON Waypoints Extractor — verified model of the extraction pass

The JSON Waypoints Extractor is a small desktop tool. The user picks a folder.
The tool reads every file in it whose name ends in `.json`. Each document that
has a `name` and a `position` becomes a waypoint record
`{color: 4294967295, name: "Waypoints " + name, x: position[0], y: position[1], z: position[2]}`.
The records, in directory-listing order, are written as one JSON list to
`waypoints.json` in the same folder. Each file adds one line to a log box. The
tool also picks its interface language from the system locale at start-up.

This project models those two pieces of logic in Dafny and proves what they
promise:

- `wrappers.dfy` — `Option`, and a `Result` that stands for "a value, or the
  Python exception raised instead".
- `json.dfy` (module `Json`) — the value `json.load` returns: null, bool, int,
  float, str, list, dict. Dict members are kept in insertion order. It also
  holds the Python operations the pass applies to a value: `key in v` (a key
  test on a dict, an element test on a list, a substring test on a string, a
  `TypeError` on anything else); `v[key]` and `v[i]`, each with the exception
  it raises; and `str(v)`, which the f-string uses for the waypoint name.
- `extractor.dfy` (module `Extractor`) — the per-file outcome `ProcessFile`. It
  models the short-circuit key test, then the record built field by field, and
  the `except` that turns any failure into one log line. The pass is
  `ExtractWaypoints`, a method whose loop appends to the waypoint list, the log
  and the list of files read. It is proved against specification functions
  over the listing (`Waypoints`, `FileLog`, `JsonNames`). Lemmas state what
  those functions promise: filtering, counting, order, no partial records, and
  the treatment of an earlier `waypoints.json`.
- `language.dfy` (module `Language`) — `detect_language`: the text of the
  locale before the first `_`, used when a translation exists, else `"en"`.

Inputs the model takes instead of performing I/O: the result of
`os.path.isdir`; whether `os.listdir` raises, and otherwise the listing it
returns. Each listing entry carries what opening and parsing it gives. A failed
open, decode or JSON syntax error is `Unreadable`. The last input is how the
write of the output file ends: `open` raises, `json.dump` raises, or it
completes. The model returns the lines appended to the log box, the names of
the files opened, what happened to the output file, and whether an exception
left the pass.

Points where the code behaves differently from what a reader might expect (the model follows the code):

- An earlier `waypoints.json` is not skipped silently. It is a list of dicts,
  so `"position" in data` is an element test and fails. The file therefore adds
  an "error reading" line on every run (`PreviousOutputIsMissingKeys`).
- A document that is a list or a string is not always an error "of the same
  kind". A list holding the strings `"position"` and `"name"`, or a string
  containing both words, passes the key test. The subscript `data['name']` then
  raises `TypeError`.
- A `position` that is a string of three or more characters yields a waypoint
  whose coordinates are its first three characters.
- The comment at en.py:44 names French as the fallback. The code returns `"en"`.

## Model

| member | source | states |
|---|---|---|
| `Extractor.ExtractWaypoints` | en.py:82-123 | When the folder is not a directory, the only effect is one invalid-folder line: no file is read and the output file is untouched. When listing the folder raises, the exception leaves the pass after the start line, with no file read and nothing written. Otherwise exactly the `.json` entries are opened, in listing order. The log is the start line, then one line per `.json` file, then the saved line or the save-failed line. The output file is replaced by the full waypoint list of the listing (even an empty one) only when the write completes. A failing `open` leaves it as it was, and a failing `json.dump` leaves it truncated. |
| `Extractor.ExtractedIffSourceRecord` | en.py:96-114 | A file yields a waypoint if and only if it parses to a dict with `name` and `position`, and the position has three elements to index. |
| `Extractor.SourceRecordWaypoint` | en.py:101-110 | For such a dict with a list position, the record has colour 4294967295, name `"Waypoints " + str(name)`, and x, y, z equal to position[0], [1], [2]. |
| `Extractor.ExampleRecord` | en.py:102-108 | `{"name":"A","position":[1,2,3]}` gives exactly `{color: 4294967295, name: "Waypoints A", x: 1, y: 2, z: 3}`. |
| `Extractor.MissingKeyIff` | en.py:101-112 | A dict gives the plain "error reading" line (no exception) if and only if it lacks `name` or `position`. |
| `Extractor.BadPositionFails` | en.py:102-114 | A dict with both keys whose position cannot be indexed three times ends in the `except` branch. The exception is IndexError for a short list or string, KeyError for a dict, and TypeError for a scalar. |
| `Extractor.NonObjectNeverExtracted` | en.py:98-114 | A document that is not a dict never yields a waypoint. A number, boolean or null raises TypeError at the key test. |
| `Extractor.PreviousOutputIsMissingKeys` | en.py:101-120 | The list the pass writes, read back as a source, fails the key test: it adds no waypoint and one "error reading" line. |
| `Extractor.PreviousOutputAddsNothing` | en.py:93-120 | Adding an earlier output file anywhere in the listing leaves the extracted records unchanged: a re-run does not duplicate records. |
| `Extractor.NonJsonEntryIgnored` | en.py:93-94 | An entry whose name does not end in `.json` (case-sensitive) adds no waypoint, no log line and no file read, wherever it stands in the listing. |
| `Extractor.EntryCounts` | en.py:94-114 | One entry opens at most one file. Each opened file adds exactly one log line. That line is an error exactly when the file gives no waypoint. |
| `Extractor.OneLogLinePerJsonFile` | en.py:93-114 | There is one log line per `.json` entry, and the k-th line is about the k-th `.json` file of the listing. |
| `Extractor.WaypointCount` | en.py:93-114 | There are at most as many waypoints as `.json` entries. The number of error lines is the number of `.json` entries minus the number of waypoints. |
| `Extractor.WaypointCountExact` | en.py:93-109 | The number of waypoints equals the number of `.json` entries if and only if every `.json` entry is a usable source record. |
| `Extractor.WaypointsInListingOrder` | en.py:93-109 | The k-th waypoint is the outcome of a `.json` entry of the listing. These entries are strictly increasing in listing position, so waypoints keep the relative order of their files. |
| `Extractor.EveryRecordIndexed` | en.py:93-109 | Every entry that yields a waypoint is among those positions, so no waypoint-producing file is skipped. |
| `Json.Lookup` | en.py:101-107 | A dict lookup finds a value exactly when the key is present, and the value found is one stored under that key. |
| `Language.LangCodeIsFirstField` | en.py:41 | The language code is a prefix of the locale, contains no `_`, and is followed by `_` or by the end of the locale. |
| `Language.FirstFieldIsLangCode` | en.py:41 | Any text with those three properties is the language code: they define `split('_')[0]`. |
| `Language.DetectLanguage` | en.py:38-44 | The result is always a code of the translation table. It is the locale's code when that code has a table. It is `"en"` when the locale is None or its code has no table. |
| `Language.AlwaysEnglish` | en.py:13-44 | With English the only translation table, every locale starts the program in English. |

## Left out

- The window, widgets, layout, theming and main loop (en.py:8-10, 56-79, 160-172, 205-263) are presentation, not logic.
- `change_language` and the global `current_language` (en.py:47-53) are interface state. Choosing a language from the drop-down that has no table raises a KeyError in the interface; that is not modelled.
- `check_file_accessible`, `download_zip` and `download_file` (en.py:126-203) are HTTP and file I/O through `requests` and dialog boxes, and are not modelled.
- The JSON parser and serializer: a parse is an input (`Unreadable` or the parsed value), and a completed write records the path and the list passed to `json.dump`. The 4-space layout of the output is not modelled.
- `os.path.isdir`, `os.listdir`, opening and closing files: the is-directory flag, the listing and the write outcome are inputs.
- What a failed `json.dump` leaves in the file: the model records only that the file was truncated (`Truncated`), not the partial text written before the exception.
- The traceback Tk prints when the exception from `os.listdir` leaves the pass; the model returns only that an exception escaped.
- `locale.getdefaultlocale()` (en.py:39) raising ValueError for a locale name it cannot normalise: `Language.DetectLanguage` takes the locale it returns as an input, so that start-up failure is not modelled.
- A JSON document that repeats a key: a parsed dict is modelled as `json.load` returns it, with distinct keys, where the last value of a repeated key wins and the key keeps its first position. `Json.Lookup` returns the first match, so it agrees with Python only on such distinct-key dicts.
- The wording of log messages and the text of exception messages. Log lines are tagged values; a failure keeps only its kind: unreadable file, TypeError, KeyError or IndexError.
- `Json.PyRepr`, used for a `name` that is not a string: Python escapes non-printable characters above U+00FF as `\u`/`\U`; the model leaves them unescaped. A float is carried by its repr text rather than computed.
- `Extractor.OutputPath` follows POSIX `os.path.join`; Windows drive and separator rules are not modelled.
