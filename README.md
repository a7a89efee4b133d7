# OpenWebRX scheduling, DX cluster, radiosonde and bookmark core in Dafny

This project models four parts of the OpenWebRX receiver back end and proves properties of them:

- **Profile scheduling** (`schedule.dfy`, module `Schedule`) picks which SDR profile a device should run and when the next decision is due. It covers:
  - time-of-day, datetime and rotation entries;
  - the static schedule built from `"HHMM-HHMM"` keys;
  - the choice of the first current entry and of the next entry to activate;
  - the scheduler choice from the device properties;
  - the rotation scheduler.
- **DX cluster client** (`dxcluster.dfy`, module `DxCluster`) reads spot announcements from a telnet DX cluster. It covers:
  - the spot line pattern and the spot it yields;
  - the frequency conversion from kHz to Hz;
  - splitting the receive buffer into lines;
  - the list of the newest 100 spots;
  - the reconnect back-off;
  - start, stop and `get_spots`.
- **Radiosonde** (`radiosonde.dfy`, module `Radiosonde`) handles JSON records from a radiosonde decoder. It covers:
  - the line filter and the field normalisation of the parser;
  - the manager's table of sondes, with its time to live;
  - the cleanup of expired sondes;
  - the map location dictionary.
- **Bookmarks** (`bookmarks.dfy`, module `Bookmarks`) are frequency bookmarks read from the first bookmarks file that exists. They are reloaded when that file is newer and filtered by an inclusive frequency range.

Four small shared modules support these:

- `Wrappers` provides `Option`.
- `Numbers` provides powers of two.
- `Json` provides the JSON values the Python dictionaries hold, and which of them Python can format as a float.
- `Text` provides Python's `str.isspace` and `str.strip` and decimal digits.

Conventions:

- **Time.** Datetimes are whole seconds in UTC, as unbounded integers: Python's `datetime` ends with the year 9999, and adding a `timedelta` past it raises `OverflowError`, which the model does not. A time of day is a number of seconds since midnight. The rotation interval is configured in whole minutes. The radiosonde and bookmark timestamps are reals, in milliseconds and in seconds respectively.
- **Clock and files.** Wherever the source reads the clock (`datetime.utcnow()`, `time.time()`), the current time is a parameter. Wherever it reads files, the contents of the files are a parameter.
- **Exceptions.** Where the Python code raises, the model returns `None`, `Raised` or a `raised` flag. The inputs on which the model and the source still differ (Unicode digits, float rounding, a frequency too large for a double, datetimes past the year 9999, file-system errors other than a missing file) are listed under "## Left out".

## Model

| member | source | states |
|---|---|---|
| Schedule.IsCurrent | owrx/service/schedule.py:39-44 | whether an entry is active at a datetime: daily ranges compare the time of day and may wrap past midnight; datetime (62-63) and rotation (78-79) ranges include their start and exclude their end. Its properties are stated by the two lemmas below and by `CurrentUntilScheduledEnd` |
| Schedule.FullDayRange | owrx/service/schedule.py:39-44 | a daily range whose start equals its end is current at every time |
| Schedule.WrappedRangeIsComplement | owrx/service/schedule.py:39-44 | for distinct bounds, the range `s..e` wrapping past midnight is current exactly when the range `e..s` is not |
| Schedule.NextAtOrAfter | owrx/service/schedule.py:46-58 | the datetime rolled forward lies in `[now, now + 1 day)` and has the requested time of day |
| Schedule.NextAtOrAfterUnique | owrx/service/schedule.py:46-58 | only one datetime in `[now, now + 1 day)` has a given time of day |
| Schedule.RollForward | owrx/service/schedule.py:49-50 | the loop that adds whole days until the time is not before `now` ends at `NextAtOrAfter(now, tod)` |
| Schedule.ScheduledEnd | owrx/service/schedule.py:46-51 | a daily entry ends at the next occurrence of its end time within a day from now; datetime entries (65-66) and rotation entries (81-82) end at their end |
| Schedule.NextActivation | owrx/service/schedule.py:53-58 | a daily entry activates at the next occurrence of its start time; a datetime entry at its start (68-69); a rotation entry reports its end (84-85) |
| Schedule.GetScheduledEnd | owrx/service/schedule.py:46-51 | the method computes `ScheduledEnd` |
| Schedule.GetNextActivation | owrx/service/schedule.py:53-58 | the method computes `NextActivation` |
| Schedule.CurrentUntilScheduledEnd | owrx/service/schedule.py:39-51 | a daily entry current now stays current until its scheduled end; unless it covers the whole day, it is no longer current at that end |
| Schedule.IdleUntilNextActivation | owrx/service/schedule.py:39-58 | a daily entry that is not current stays inactive until its next activation, and is current at that activation |
| Schedule.ParseHHMM | owrx/service/schedule.py:141-142 | `strptime("%H%M")` accepts exactly hours 00-23 and minutes 00-59; a parsed time is a whole minute |
| Schedule.ParseFormatRoundTrip | owrx/service/schedule.py:141-142 | formatting a whole-minute time as HHMM and parsing it gives the time back |
| Schedule.FormatParseRoundTrip | owrx/service/schedule.py:141-142 | parsing an accepted HHMM string and formatting it gives the string back |
| Schedule.RangeItems | owrx/service/schedule.py:136-139 | the items kept are exactly those with nine-character keys, all from the input |
| Schedule.StaticEntries | owrx/service/schedule.py:134-143 | the static schedule's entries, or `None` where the constructor raises. Its contract is stated by `StaticEntriesFail` and `StaticEntriesContents`, and `BuildStaticSchedule` is proved to compute it |
| Schedule.StaticEntriesFail | owrx/service/schedule.py:134-143 | building fails (the constructor raises) exactly when some nine-character key has a half that does not parse |
| Schedule.StaticEntriesContents | owrx/service/schedule.py:134-143 | on success there is one daily entry per nine-character key, in key order, with the parsed start and end and that key's profile |
| Schedule.BadKeyStaysBad | owrx/service/schedule.py:136-143 | once a prefix of the keys fails, the whole list fails |
| Schedule.BuildStaticSchedule | owrx/service/schedule.py:134-143 | the constructor loop computes `StaticEntries`: it skips keys whose length is not 9 and stops with an error at the first bad key |
| Schedule.CurrentEntry | owrx/service/schedule.py:120-124 | `None` exactly when no entry is current; otherwise the first current entry in list order |
| Schedule.EarliestIndex | owrx/service/schedule.py:126-130 | the entry a stable sort by next activation puts first: the earliest activation, and the first in list order on a tie |
| Schedule.NextEntry | owrx/service/schedule.py:126-130 | `None` exactly when there are no entries; otherwise an entry whose next activation is no later than any other's |
| Schedule.Parse | owrx/service/schedule.py:90-104 | "scheduler" wins over the top-level "schedule", and its type defaults to static. No schedule at all, or an unknown type, gives none. Under "scheduler": it raises exactly when the type is known and "schedule" is missing, or when the type is static and a key is bad; a static schedule comes out exactly when the type is static and the keys parse; daylight and rotation come out exactly for their type with a schedule, carrying that schedule. A top-level schedule alone gives the static schedule built from it |
| Schedule.RotationSchedule.constructor | owrx/service/schedule.py:228-233 | profiles default to none; the interval defaults to 5 minutes and is kept in seconds; index 0; no end yet |
| Schedule.RotationSchedule.GetCurrentEntry | owrx/service/schedule.py:236-255 | no profiles gives `None`; once the current slot has ended the index advances by one modulo the count; a new slot ends one interval from now; the entry runs now until the slot's end |
| Schedule.RotationSchedule.GetNextEntry | owrx/service/schedule.py:257-265 | `None` exactly without profiles; otherwise the following profile, from now until one interval after the current end (or after now when there is none) |
| Schedule.AnnouncedProfileRunsNext | owrx/service/schedule.py:243-265 | the profile `getNextEntry` announces is the one `getCurrentEntry` selects once the slot has ended, for one interval |
| DxCluster.Span | owrx/dxcluster.py:42-44 | a greedy character-class run: every character in it is in the class and the next one is not |
| DxCluster.SpanUnique | owrx/dxcluster.py:42-44 | a run that stops at a character outside the class is the greedy run |
| DxCluster.FirstTimeAt | owrx/dxcluster.py:42-44 | the first position where `(\d{4})Z` matches, with no earlier one; `None` when there is none |
| DxCluster.TailCut | owrx/dxcluster.py:42-44 | the tail `\s*(.*?)\s*(\d{4})Z` from a position: the comment has no line feed and no white space at either end, and the time is at the first place it matches |
| DxCluster.TailComplete | owrx/dxcluster.py:42-44 | whenever any split of the tail is accepted, the tail matcher succeeds with its time no later |
| DxCluster.FrequencyEnd | owrx/dxcluster.py:42-44 | the greedy `\d+\.?\d*` group starting at a digit is a frequency text |
| DxCluster.FrequencyUnique | owrx/dxcluster.py:42-44 | a frequency text followed by white space is exactly what the greedy group takes |
| DxCluster.MatchHead | owrx/dxcluster.py:42-44 | the spotter, `:`, spaces, frequency, spaces and the start of the call, in the places the pattern puts them |
| DxCluster.LastSatisfying | owrx/dxcluster.py:42-44 | the largest candidate call end that satisfies the tail, and no larger one does |
| DxCluster.MatchGroups | owrx/dxcluster.py:42-47 | the groups found satisfy the head, the tail matches after the call, and the call lies inside the run of call characters |
| DxCluster.CallIsLongest | owrx/dxcluster.py:42-44 | backtracking of the greedy call group: no longer call is followed by a matching tail |
| DxCluster.HeadUnique | owrx/dxcluster.py:42-44 | every accepted reading has the same spotter, frequency and call start as the matcher |
| DxCluster.HeadSpans | owrx/dxcluster.py:42-44 | in an accepted reading, each greedy run ends where that piece ends |
| DxCluster.MatchGroupsComplete | owrx/dxcluster.py:42-44 | whenever some reading is accepted, the matcher finds one, with a call at least as long |
| DxCluster.MatcherCut | owrx/dxcluster.py:42-47 | the matcher's reading is accepted and its comment has no white space at either end |
| DxCluster.MatcherCutPreferred | owrx/dxcluster.py:42-47 | the matcher's reading is the preferred one: longest call, then earliest time |
| DxCluster.ParseSpot | owrx/dxcluster.py:46-58 | `parse_spot`: the matcher's reading of the stripped line, its groups stripped again, the frequency converted, and the receive time; `None` without a match. Stated by `ParseSpotMatchesPattern` and `ParseSpotIsPreferred` |
| DxCluster.ParseSpotMatchesPattern | owrx/dxcluster.py:46-58 | `parse_spot` gives a spot exactly when some reading of the stripped line matches the pattern |
| DxCluster.ParseSpotIsPreferred | owrx/dxcluster.py:46-58 | the spot returned is the one the preferred reading announces, and that reading's comment has no white space at either end |
| DxCluster.MatcherSpotIsPreferred | owrx/dxcluster.py:47-56 | the spot read from the matcher's groups is the spot of a preferred reading whose comment has no white space at either end |
| DxCluster.ReadSpotIsSpotOf | owrx/dxcluster.py:50-56 | stripping the spotter, call and comment groups once more changes nothing |
| DxCluster.SpotOfFields | owrx/dxcluster.py:42-58 | every spot has a non-empty spotter of `[A-Z0-9/-]`, a non-empty call of `[A-Z0-9/]`, a comment without line feed, a four-digit time and the receive time |
| DxCluster.SpotterStripped | owrx/dxcluster.py:51 | the spotter group holds no white space |
| DxCluster.CallStripped | owrx/dxcluster.py:53 | the call group holds no white space |
| DxCluster.KHzToHz | owrx/dxcluster.py:52 | `int(float(f) * 1000)` in exact decimal: the whole kHz and the first three decimals, padded with zeros. Stated by `KHzToHzTruncates` |
| DxCluster.KHzToHzTruncates | owrx/dxcluster.py:52 | `int(float(f) * 1000)`: the result is 1000 times the decimal value of the text, rounded down |
| DxCluster.KHzToHzLongFraction | owrx/dxcluster.py:52 | with three decimals or more, the decimals after the third are dropped |
| DxCluster.KHzToHzShortFraction | owrx/dxcluster.py:52 | with fewer than three decimals, the conversion is exact |
| DxCluster.LineFeedIndex | owrx/dxcluster.py:134 | the split point is the first line feed |
| DxCluster.Lines | owrx/dxcluster.py:133-135 | the complete lines of the buffer contain no line feed |
| DxCluster.Leftover | owrx/dxcluster.py:133-134 | what remains in the buffer contains no line feed |
| DxCluster.LinesRoundTrip | owrx/dxcluster.py:133-134 | the lines, each with its line feed, followed by the leftover, are the buffer |
| DxCluster.LinesCons | owrx/dxcluster.py:134 | splitting at the first line feed gives the first line and then the lines of the rest |
| DxCluster.NoLines | owrx/dxcluster.py:133 | a buffer without line feed has no complete line and is left whole |
| DxCluster.KeepNewest | owrx/dxcluster.py:140-141 | `spots[-100:]`: the newest `n` elements, or all of them when there are fewer |
| DxCluster.KeepNewestAppend | owrx/dxcluster.py:139-141 | cutting back after every append is the same as cutting back once at the end |
| DxCluster.LineSpots | owrx/dxcluster.py:135-138 | one line's spot: the stripped line must start with `DX de ` and parse. `ConsumeLine` is proved against it |
| DxCluster.SpotsInAppend | owrx/dxcluster.py:133-141 | the spots of two batches of lines are the spots of both, in order |
| DxCluster.SpotsInSnoc | owrx/dxcluster.py:133-141 | one more line adds that line's spot, if it has one |
| DxCluster.SpotsStep | owrx/dxcluster.py:133-141 | cutting back after each line equals cutting back once after all of them |
| DxCluster.BackoffDelay | owrx/dxcluster.py:162-165 | the delay after `j` failures is between 5 and 300 seconds |
| DxCluster.BackoffStep | owrx/dxcluster.py:165 | each failure doubles the delay, capped at 300 seconds |
| DxCluster.ReconnectDelays | owrx/dxcluster.py:79-165 | one wait per connection cycle, each between 5 and 300 seconds; a cycle waits the delay for the number of cycles since the last successful login (120), doubling from 5 |
| DxCluster.DxClusterClient.constructor | owrx/dxcluster.py:28-40 | no spots, not running, not connected, no connection parameters |
| DxCluster.DxClusterClient.Start | owrx/dxcluster.py:169-188 | saves the connection parameters, sets running, drops all spots, returns true |
| DxCluster.DxClusterClient.Stop | owrx/dxcluster.py:190-197 | no longer running or connected; spots and parameters kept |
| DxCluster.DxClusterClient.GetSpots | owrx/dxcluster.py:205-206 | a copy of the spots, at most 100 |
| DxCluster.DxClusterClient.Receive | owrx/dxcluster.py:131-141 | the new buffer is the unfinished last line; the spots become the newest 100 of the old spots followed by the spots of all complete lines, in order; the running and connected flags and the connection parameters are unchanged |
| DxCluster.DxClusterClient.ConsumeLine | owrx/dxcluster.py:134-141 | one line: its spot (stripped, starts with `DX de `, parses) is appended and the list is cut back to 100; nothing else changes |
| DxCluster.DxClusterClient.AddSpot | owrx/dxcluster.py:139-141 | append, then keep the newest 100; nothing else changes |
| Radiosonde.LocationDict | owrx/radiosonde.py:32-60 | the location dictionary: the base entries, the balloon symbol, then the record's fields under their display keys. Stated by `LocationDictFields` |
| Radiosonde.CopyFieldsSpec | owrx/radiosonde.py:35-59 | each present record key sets exactly its display key to the record's value; absent keys and every other key are left as they were |
| Radiosonde.DisplayKeysDistinct | owrx/radiosonde.py:35-59 | the twelve display keys are distinct and none is `symbol` |
| Radiosonde.LocationDictFields | owrx/radiosonde.py:32-60 | the location dictionary has the balloon symbol (line 18), each present record field under its display key, nothing for absent fields, and the rest of the location's entries |
| Radiosonde.SymbolThenFields | owrx/radiosonde.py:33-59 | the same, for any list of fields with distinct display keys |
| Radiosonde.KeyOf | owrx/radiosonde.py:93 | the dictionary key an id stands for, none for a list or an object. Stated by `KeyOfIdentifies` |
| Radiosonde.KeyOfIdentifies | owrx/radiosonde.py:93 | only lists and objects are unhashable; two ids are one key exactly when Python finds them equal (`1`, `1.0` and `true` are one sonde) |
| Radiosonde.Stamp | owrx/radiosonde.py:91-92 | the record with ttl 600 and the receive time in milliseconds added. `Updated`, `Update` and `UpdateThenCleanup` state what is stamped and when |
| Radiosonde.Updated | owrx/radiosonde.py:83-93 | with no true id, or an unhashable one, nothing changes; otherwise the id's key maps to the record stamped with ttl 600 and the time, and every other sonde is kept |
| Radiosonde.Fresh | owrx/radiosonde.py:103-110 | a sonde is kept exactly when it is not older than `ttl * 1000` ms, with its record unchanged |
| Radiosonde.UpdateThenCleanup | owrx/radiosonde.py:83-110 | a record stored at time `t` survives a cleanup at `now` exactly when `now - t <= 600000` |
| Radiosonde.CleanupIdempotent | owrx/radiosonde.py:103-110 | a second cleanup at the same time removes nothing more |
| Radiosonde.RadiosondeManager.constructor | owrx/radiosonde.py:78-81 | no sondes; time to live 600 seconds |
| Radiosonde.RadiosondeManager.Update | owrx/radiosonde.py:83-101 | the table becomes `Updated`; the caller's record is stamped whenever it has a true id; storing raises for an unhashable id; the location is pushed exactly when the record was stored and has lat and lon; the debug message then raises exactly when one of lat, lon or altitude is not a number or is an integer too large for a double (2^1024 - 2^970 or more in magnitude) |
| Radiosonde.RadiosondeManager.Cleanup | owrx/radiosonde.py:103-110 | raises and changes nothing exactly when a stored timestamp is not a number; otherwise the table becomes `Fresh` |
| Radiosonde.Accept | owrx/radiosonde.py:124-133 | a record comes through exactly when the stripped line is non-empty, starts with `{`, decodes, and has lat and lon; the record is the decoded object |
| Radiosonde.Normalize | owrx/radiosonde.py:136-143 | type and mode become the sonde type; freq becomes the dial frequency unless that is 0; `alt` fills a missing altitude; every other key is unchanged |
| Radiosonde.RadiosondeParser.constructor | owrx/radiosonde.py:117-119 | keeps the sonde type and service flag; the dial frequency starts at 0 |
| Radiosonde.RadiosondeParser.SetDialFrequency | owrx/radiosonde.py:160-161 | sets the dial frequency |
| Radiosonde.RadiosondeParser.Parse | owrx/radiosonde.py:121-158 | a rejected line gives `None` and leaves the manager alone; otherwise the normalised record goes to the manager, and the stamped record is returned except in service mode or when the manager raised (an unhashable id, or a debug message that fails) |
| Bookmarks.FromJson | owrx/bookmarks.py:11-14 | the bookmark constructor, `None` where it raises. Stated by `ToFromJson` |
| Bookmarks.ToJson | owrx/bookmarks.py:25-30 | the serialised bookmark. Stated by `FromToJson` and `ToFromJson` |
| Bookmarks.FromToJson | owrx/bookmarks.py:11-30 | serialising a bookmark and constructing it again gives the same bookmark |
| Bookmarks.ToFromJson | owrx/bookmarks.py:11-30 | the constructor succeeds exactly on an object with name, frequency and modulation; serialising gives back exactly those three fields |
| Bookmarks.BookmarksOf | owrx/bookmarks.py:68-70 | the bookmarks of a decoded file: one per list element, none if any element is rejected or the value is not a list. Stated by `BookmarksRoundTrip` |
| Bookmarks.BookmarksRoundTrip | owrx/bookmarks.py:68-70 | a list of serialised bookmarks loads back as the same list |
| Bookmarks.FirstExisting | owrx/bookmarks.py:56-61 | the first file of the list that exists; none before it exists |
| Bookmarks.ModifiedTime | owrx/bookmarks.py:54-62 | the first existing file's modification time, or the epoch. `FileModifiedTimestamp` is proved to compute it |
| Bookmarks.Loaded | owrx/bookmarks.py:64-79 | the first existing file's bookmarks, none on error or without a file. `LoadBookmarks` is proved to compute it |
| Bookmarks.LaterFileIgnored | owrx/bookmarks.py:54-79 | creating or changing a file after the first existing one changes neither the loaded bookmarks nor the modification time |
| Bookmarks.Refreshed | owrx/bookmarks.py:47-52 | the state after `_refresh`. Stated by `RefreshedMonotone` and `RefreshedIdempotent`, and `Refresh` is proved to reach it |
| Bookmarks.RefreshedMonotone | owrx/bookmarks.py:47-52 | after a refresh a modification time is recorded, and it never goes back |
| Bookmarks.RefreshedIdempotent | owrx/bookmarks.py:47-52 | a second refresh against unchanged files changes nothing |
| Bookmarks.InRange | owrx/bookmarks.py:84 | the range filter. Stated by `InRangeSpec` and `EmptyRange` |
| Bookmarks.InRangeSpec | owrx/bookmarks.py:81-84 | fails exactly when some frequency is not a number; otherwise keeps, in order and with multiplicity, exactly the bookmarks with `lo <= frequency <= hi` |
| Bookmarks.EmptyRange | owrx/bookmarks.py:84 | an empty range keeps nothing |
| Bookmarks.BookmarkStore.constructor | owrx/bookmarks.py:42-45 | nothing loaded, no modification time, the two file names in order |
| Bookmarks.BookmarkStore.FileModifiedTimestamp | owrx/bookmarks.py:54-62 | the modification time of the first existing file, or 0 (the epoch) when none exists |
| Bookmarks.BookmarkStore.LoadBookmarks | owrx/bookmarks.py:64-79 | the bookmarks of the first existing file; none on a decode or processing error, or when no file exists |
| Bookmarks.BookmarkStore.Refresh | owrx/bookmarks.py:47-52 | reloads and records the time exactly when nothing was recorded or the file is strictly newer; otherwise nothing changes |
| Bookmarks.BookmarkStore.GetBookmarks | owrx/bookmarks.py:81-84 | refreshes, then returns the range filter of the refreshed bookmarks |

## Left out

- Not modelled: the daylight scheduler (`DaylightSchedule`, which needs solar position computations) and the `ServiceScheduler` that drives devices from the schedules. `Schedule.Parse` returns `Daylight(dict)` without building entries.
- Not modelled: sockets, threads, the login exchange, the socket timeout, and the broadcasts to clients. The reader thread's receive loop is modelled as `Receive(buffer, data, timestamp)`, one call per chunk received. The `running` check between chunks is not modelled.
- DxCluster.ParseSpotIsPreferred: `time.time()` is read once per spot; the model uses one timestamp per received chunk.
- DxCluster.KHzToHz: works in exact decimal arithmetic, and `KHzToHzTruncates` states the exact-decimal result, not the float result. Python rounds the text to a double and rounds the product again, so the two can differ in either direction. The difference grows with the number of significant digits: a 16-digit frequency can differ by a thousand.
- DxCluster.ParseSpot: a frequency text too large for a double (from about 306 digits before the point) makes `int(float(f) * 1000)` raise `OverflowError` in Python, which ends the connection. The model returns a spot for it.
- Schedule.ParseHHMM: accepts only ASCII digits. `strptime`'s `\d` also accepts the other Unicode decimal digits in the positions where the `%H` and `%M` patterns use `\d`, and Python converts them. Keys that use such digits raise in the model but build an entry in Python.
- Schedule.CurrentEntry: one `now` stands for the `datetime.utcnow()` call that the comprehension makes for each entry. The same holds for `NextEntry`, with one `now` for every `getNextActivation` call.
- DxCluster.Receive: received bytes are already decoded text. The UTF-8 decoding with replacement characters is not modelled. `\d` and `\s` are modelled as ASCII digits and as Python's white space set.
- Schedule.RotationSchedule.GetCurrentEntry: slot ends are unbounded integers, so the `OverflowError` that `now + timedelta(...)` raises past the year 9999 (owrx/service/schedule.py lines 250 and 264) is not modelled. The same holds for `GetNextEntry`, and for the daily entries' `NextAtOrAfter`, which adds a day at lines 50 and 57.
- Schedule.RotationSchedule.constructor: the interval is whole minutes. Python multiplies whatever number is configured by 60, and `timedelta` also takes fractional seconds.
- DxCluster.ReconnectDelays: the outcome of each connection attempt is a parameter. Exceptions, `sleep` and the stop request are not modelled.
- Radiosonde.Accept: UTF-8 decoding of the message is not modelled, and `json.loads` is the parameter `loads`.
- Not modelled: the map push (`Map.updateLocation`) and the `LatLngLocation` base dictionary. `LocationDict` takes the base entries as a parameter.
- Not modelled: the `TextParser` base class. From it the model takes only the service flag and the dial frequency, which starts at 0.
- Not modelled: locks and shared singletons.
- Radiosonde.RadiosondeManager.Update: Python stores the caller's dictionary object itself, so later changes to it would show in the table. The model keeps a value copy and returns the stamped record to the caller.
- Radiosonde.Stamp: timestamps are reals, not binary floats. Likewise `KeyOf` compares numeric ids as exact reals, while Python rounds a JSON float to a double first.
- Not modelled: file access. The file system is a map from path to modification time and decoded contents. An unreadable or undecodable file has contents `None`.
- Bookmarks.ModifiedTime: assumes the modification time of an existing file can always be read. In Python, `os.path.getmtime` raising anything other than `FileNotFoundError` (a permission error, say) propagates out of `getBookmarks`. The model has no such case.
- Not modelled: time zone objects. Modification times are compared as seconds.
