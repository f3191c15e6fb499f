# Smart attendance system: the device link, in Dafny

This project models the device-link core of a web-based RFID attendance
system. Card readers and a student register live on a microcontroller; a
browser dashboard talks to the microcontroller and to a small HTTP API.

- **Decoder** (`utils.dfy`). The line decoder turns each text line from the
  device into a typed message. The card-id canonicaliser upper-cases an id
  and strips its whitespace.
- **Serial channel** (`serial_service.dfy`, `listeners.dfy`). It holds the
  connection flags and the listener list. Its reading loop cuts incoming text
  chunks into lines, decodes them and hands them to the listeners in order.
  It frames the commands sent to the device.
- **WebSocket channel** (`websocket_service.dfy`). A state machine for the
  network link: the guard against duplicate connects, one pending reconnect
  timer at most, disconnect switching reconnection off, and a connect timeout.
- **Client store** (`iot_store.dfy`, `records.dfy`). The dashboard's caches of
  programmes, students, attendance records and raw serial lines. The logs are
  bounded and newest first. Update, remove and append go by id. Each HTTP
  status maps to a normal end, a rethrow, or a silent ignore.
- **Scan dispatch** (`serial_connection.dfy`). The listener maps each device
  message to store calls. A found card gives a HADIR record, anything else
  DITOLAK. The hook also wraps connect and disconnect.
- **API routes** (`attendance_route.dfy`, `stats_route.dfy`,
  `students_route.dfy`, `check_uid_route.dfy`, `prodi_route.dfy`, over the
  in-memory tables of `database.dfy`):
  - required-field checks (400);
  - uniqueness checks (409);
  - defaults;
  - the local-day filter, the 100-record page and the per-status counts;
  - the orderings (`sorting.dfy`).
- **Auth redirect rule** (`middleware.ts`, in `middleware.dfy`): the route matcher and the login/dashboard redirects.

How outside effects appear in the model:

- Event callbacks become explicit event methods: socket open, error, close
  and message, and the reconnect, timeout, list and error-clearing timers.
- What the environment decides becomes a parameter:
  - whether a port is granted or a write fails;
  - the HTTP answer a store operation receives;
  - whether a database query fails;
  - the parse of a date string;
  - the server's UTC offset;
  - fresh ids and clock readings.
- Listener callbacks are opaque ids. Calling one is recorded as a `Delivery`.

## Model

| member | source | states |
|---|---|---|
| Utils.FormatUid | lib/utils.ts:29-31 | the canonical id holds no whitespace and no lower-case letter |
| Utils.FormatUidAppend | lib/utils.ts:29-31 | the canonical form of a concatenation is the concatenation of the parts' canonical forms |
| Utils.FormatUidChar | lib/utils.ts:29-31 | a single character canonicalises to nothing when it is whitespace and to its upper-case form otherwise; with FormatUidAppend this fixes the canonical form of every id |
| Utils.FormatUidIdempotent | lib/utils.ts:29-31 | canonicalising a canonical id changes nothing |
| Utils.FormatUidIgnoresCase | lib/utils.ts:29-31 | ids that differ only in letter case have the same canonical form |
| Utils.FormatUidIgnoresWhitespace | lib/utils.ts:29-31 | whitespace inserted anywhere in an id does not change its canonical form |
| Utils.UpperThenRemove | lib/utils.ts:30 | upper-casing then dropping whitespace equals dropping then upper-casing, and leaves no lower-case letter |
| Utils.ParseWith | lib/utils.ts:33-155 | a decoded line starts with one of the nine known tags, and its message is never ATTENDANCE |
| Utils.WebOkTagWins | lib/utils.ts:41-57 | a WEB_OK line is not taken by the RFID_SCAN rule tried before it |
| Utils.WebErrorTagWins | lib/utils.ts:41-66 | a WEB_ERROR line is taken by no earlier rule |
| Utils.WebMasterSetTagWins | lib/utils.ts:41-73 | a WEB_MASTER_SET line is taken by no earlier rule |
| Utils.ActiveStudentTagWins | lib/utils.ts:41-94 | an ACTIVE_STUDENT line is taken by no earlier rule |
| Utils.MasterCardTagWins | lib/utils.ts:41-101 | a MASTER_CARD line is taken by no earlier rule |
| Utils.StudentListTagWins | lib/utils.ts:41-148 | a WEB_Mahasiswa line starts with none of the other eight tags, so no other rule takes it |
| Utils.StudentAddedTagWins | lib/utils.ts:41-134 | a WEB_Mahasiswa_ADDED line is taken by no earlier rule (it does not start with `WEB_Mahasiswa:`) |
| Utils.ActiveSetTagWins | lib/utils.ts:41-148 | a WEB_ACTIVE_SET line is taken by no earlier rule |
| Utils.RfidScanLine | lib/utils.ts:41-48 | a RFID_SCAN line yields the trimmed text after 10 characters as the uid, case preserved |
| Utils.ScalarLines | lib/utils.ts:51-73 | WEB_OK yields INFO, WEB_ERROR yields ERROR, WEB_MASTER_SET yields MASTER_SET, each with the trimmed text after its tag |
| Utils.ActiveStudentLine | lib/utils.ts:75-94 | ACTIVE_STUDENT with payload NONE yields STATUS with no active student; otherwise name, class and nis are the first three comma fields, each possibly absent |
| Utils.MasterCardLine | lib/utils.ts:96-101 | MASTER_CARD yields STATUS with the trimmed card id |
| Utils.StudentListLine | lib/utils.ts:104-119 | WEB_Mahasiswa reads its payload from offset 10; with three or more fields it yields STUDENT_LIST with the uid defaulting to '', otherwise null |
| Utils.StudentAddedLine | lib/utils.ts:122-134 | WEB_Mahasiswa_ADDED always yields STUDENT_ADDED from the payload at offset 16, the uid defaulting to '' |
| Utils.ActiveSetLine | lib/utils.ts:137-148 | WEB_ACTIVE_SET yields ACTIVE_STUDENT_SET with name, class and nis from the payload after its tag |
| Utils.UntaggedLine | lib/utils.ts:150 | a line with none of the tags decodes to null |
| Utils.ParseNone | lib/utils.ts:37-154 | the decoder returns null exactly for an untagged line or a student-list line with fewer than three fields |
| Utils.ScalarRoundTrip | lib/utils.ts:41-101 | every well-formed scan, info, error, master-set and master-card message survives rendering and decoding |
| Utils.RecordDecodes | lib/utils.ts:83-92 | a well-formed name,class,nis payload splits back into the record it was written from |
| Utils.ActiveStatusRoundTrip | lib/utils.ts:75-94 | a well-formed active-student record survives the trip |
| Utils.NoActiveStudentRoundTrip | lib/utils.ts:77-82 | `ACTIVE_STUDENT:NONE` decodes to "no active student" |
| Utils.PrefixedFieldsDecode | lib/utils.ts:105-106 | a clean payload behind a comma-free, whitespace-free prefix splits into its fields with the prefix glued to the first |
| Utils.StudentListRoundTrip | lib/utils.ts:104-119 | a student-list line comes back with the tag's tail beyond the read offset prepended to the name |
| Utils.StudentAddedRoundTrip | lib/utils.ts:122-134 | a student-added line comes back with the tag's tail beyond the read offset prepended to the name |
| Utils.ActiveSetRoundTrip | lib/utils.ts:137-148 | a well-formed active-set record survives the trip |
| Utils.RoundTripWith | lib/utils.ts:37-154 | for any read offsets inside the tags, every well-formed message comes back, renamed as the offsets dictate |
| Utils.TagTails | lib/utils.ts:105 | offsets 10 and 16 leave `swa:` and `DED:` of the two student tags in front of the payload |
| Utils.ParseIntendedRoundTrip | lib/utils.ts:104-134 | with the payloads read after their tags, every well-formed message is decoded back unchanged |
| Utils.ParseRoundTrip | lib/utils.ts:37-154 | as written, every well-formed message comes back unchanged, except that a listed student's name gains `swa:` and an added student's name gains `DED:` |
| Utils.StudentListNameCounterexample | lib/utils.ts:105 | no well-formed student-list message survives the trip as written |
| Utils.StudentAddedNameCounterexample | lib/utils.ts:123 | no well-formed student-added message survives the trip as written |
| Strings.Trim | lib/utils.ts:42 | `trim()` leaves no whitespace at either end and never lengthens the string |
| Strings.TrimKeepsInfix | lib/utils.ts:42 | the trimmed string is a contiguous slice of the input with only whitespace before and after it |
| Strings.TrimIdempotent | lib/utils.ts:42 | trimming twice is trimming once |
| Strings.Substring | lib/utils.ts:42 | `substring(n)` is the suffix after n characters, or empty past the end |
| Strings.StartsWithMeans | lib/utils.ts:41 | `startsWith` holds exactly when the prefix is the first characters of the string |
| Strings.SplitJoin | lib/utils.ts:83 | `split(',')` yields comma-free pieces that join back to the input |
| Strings.JoinSplit | lib/utils.ts:83 | splitting a join of comma-free pieces gives those pieces back |
| Strings.ToUpper | app/api/prodi/route.ts:54 | `toUpperCase()` keeps the length and maps each character to its upper-case form |
| Strings.RemoveWhitespace | lib/utils.ts:30 | `replace(/\s/g, '')` leaves no whitespace and never lengthens the string |
| Listeners.FanOut | services/serialService.ts:186-188 | one delivery per listener, each carrying the message, in list order |
| Listeners.Without | services/serialService.ts:181-183 | the callback is gone, every other entry stays, nothing is added |
| Listeners.WithoutAppend | services/serialService.ts:182 | the filter distributes over concatenation |
| Listeners.WithoutAbsent | services/serialService.ts:182 | unsubscribing a callback not in the list leaves the list as it is |
| Listeners.SubscribeThenUnsubscribe | services/serialService.ts:179-184 | subscribing a new callback and calling its unsubscribe gives back the original list, in order |
| Listeners.WithoutIdempotent | services/serialService.ts:182 | unsubscribing twice is unsubscribing once |
| Listeners.WithoutKeepsOrder | services/serialService.ts:182 | the remaining callbacks keep their relative order |
| SerialChannel.CompleteLines | services/serialService.ts:86-87 | no complete line holds a newline |
| SerialChannel.Pending | services/serialService.ts:87 | the buffer holds no newline |
| SerialChannel.StreamDecomposes | services/serialService.ts:82-94 | all text received equals the complete lines, each followed by a newline, then the buffer: nothing lost or reordered |
| SerialChannel.StreamDecompositionUnique | services/serialService.ts:86-87 | newline-free lines and a newline-free rest are recovered exactly from their concatenation |
| SerialChannel.ChunkStep | services/serialService.ts:83-87 | a new chunk finishes the old lines, then the lines of the buffer followed by the chunk; the new buffer continues the old |
| SerialChannel.DeliveriesAppend | services/serialService.ts:89-94 | the deliveries of two runs of lines are those of the first run, then those of the second |
| SerialChannel.SilentLines | services/serialService.ts:89-94 | a blank line, or one the decoder rejects, reaches no listener |
| SerialChannel.DecodedLineReachesAll | services/serialService.ts:103-119 | a decoded line reaches every listener once, in list order, with the decoded message |
| SerialChannel.TrailingTextNotDelivered | services/serialService.ts:83-94 | text after the last newline is never delivered |
| SerialChannel.FrameDecodes | services/serialService.ts:128-132 | a frame ends in its only newline, and splitting its body on commas gives back the command and the parameters |
| SerialChannel.SerialService.constructor | services/serialService.ts:5-10 | no port, reader or writer; not connected; no listeners |
| SerialChannel.SerialService.Connect | services/serialService.ts:12-48 | true exactly when the API exists and the port is granted and opens; then connected, reader and writer taken when offered, and a STATUS frame written when there is a writer and the write succeeds |
| SerialChannel.SerialService.OnListTimer | services/serialService.ts:39-41 | the 500 ms timer sends LIST_Mahasiswa, under the same guard as any command |
| SerialChannel.SerialService.Disconnect | services/serialService.ts:50-68 | after a normal return, reader, writer and port are gone and the channel is disconnected; a failing cancel or close throws and leaves the later steps undone |
| SerialChannel.SerialService.ReadStream | services/serialService.ts:70-101 | with a reader, the listeners receive exactly the deliveries of the complete lines of all text read, in order; the buffer left is the text after the last newline |
| SerialChannel.SerialService.ProcessLines | services/serialService.ts:89-94 | the lines are processed in arrival order |
| SerialChannel.SerialService.ProcessLine | services/serialService.ts:90-93 | a line is trimmed, skipped when blank, otherwise decoded and delivered |
| SerialChannel.SerialService.ProcessMessage | services/serialService.ts:103-119 | listeners are called only when the decoder returns a message, and receive that message |
| SerialChannel.SerialService.NotifyListeners | services/serialService.ts:186-188 | each listener is called once, in list order |
| SerialChannel.SerialService.SendCommand | services/serialService.ts:121-143 | false and nothing written without a writer or when disconnected; otherwise the frame is written unless the write fails |
| SerialChannel.SerialService.AddStudent | services/serialService.ts:146-148 | sends ADD_Mahasiswa with name, class, nis and uid in that order |
| SerialChannel.SerialService.SendSimple | services/serialService.ts:150-176 | each convenience command sends its fixed command name with no parameters |
| SerialChannel.SerialService.Subscribe | services/serialService.ts:179-180 | the callback joins the end of the list |
| SerialChannel.SerialService.Unsubscribe | services/serialService.ts:181-183 | the list becomes `Without(old list, callback)` |
| SerialChannel.SerialService.GetConnectionStatus | services/serialService.ts:190-192 | returns the connected flag |
| WebSocketChannel.SettleOnce | lib/websocketService.ts:14-77 | a connect promise settles once: a later resolve or reject changes nothing |
| WebSocketChannel.Url | lib/websocketService.ts:26 | the address is `ws://`, the IP, then `:81` |
| WebSocketChannel.CloseRequested | lib/websocketService.ts:90 | closing leaves a socket neither open nor connecting; a closed one is unchanged |
| WebSocketChannel.WebSocketService.constructor | lib/websocketService.ts:5-11 | no socket, no timer, empty IP, reconnecting and connecting off |
| WebSocketChannel.WebSocketService.Connect | lib/websocketService.ts:13-78 | while connecting or open, nothing changes and it resolves true; otherwise the IP is stored, connecting and reconnecting switch on, and a socket to `ws://<ip>:81` becomes current; a throwing constructor clears connecting; the invariant is kept |
| WebSocketChannel.WebSocketService.OnOpen | lib/websocketService.ts:31-35 | opening clears connecting and resolves the promise |
| WebSocketChannel.WebSocketService.OnError | lib/websocketService.ts:37-41 | an error clears connecting and rejects with 'Gagal terhubung ke WebSocket' |
| WebSocketChannel.WebSocketService.OnClose | lib/websocketService.ts:43-49 | a close clears connecting and schedules a reconnect only when reconnecting is wanted; after disconnect nothing is scheduled |
| WebSocketChannel.WebSocketService.OnTimeout | lib/websocketService.ts:65-71 | unless the current socket is open, connecting is cleared, the current socket is closed and the promise rejects with 'Koneksi timeout'; reconnecting is left as it was |
| WebSocketChannel.WebSocketService.OnSocketMessage | lib/websocketService.ts:51-62 | the untrimmed text is decoded and, when it decodes, reaches every listener |
| WebSocketChannel.WebSocketService.NotifyListeners | lib/websocketService.ts:126-129 | each listener is called once, in list order |
| WebSocketChannel.WebSocketService.AttemptReconnect | lib/websocketService.ts:131-143 | nothing happens when a timer is pending or reconnecting is off; otherwise one timer is scheduled; at most one is ever pending |
| WebSocketChannel.WebSocketService.OnReconnectTimer | lib/websocketService.ts:135-142 | the timer clears itself and reconnects only with a non-empty IP while reconnecting is still wanted; after disconnect nothing fires |
| WebSocketChannel.WebSocketService.Disconnect | lib/websocketService.ts:80-93 | reconnecting off, the pending timer cancelled, the current socket closed and dropped |
| WebSocketChannel.WebSocketService.SendCommand | lib/websocketService.ts:95-109 | rejects with 'WebSocket tidak terhubung' unless the socket is open; otherwise sends the command, rejecting when the send throws |
| WebSocketChannel.WebSocketService.OnMessage | lib/websocketService.ts:111-114 | the callback joins the end of the list |
| WebSocketChannel.WebSocketService.Unsubscribe | lib/websocketService.ts:115-119 | the callback leaves the list, the others stay in order |
| WebSocketChannel.WebSocketService.GetConnectionStatus | lib/websocketService.ts:122-124 | true exactly when the current socket is open |
| Records.Take | hooks/useIoTStore.ts:260 | `slice(0, n)` is the first n entries, or all when fewer |
| Records.PrependCapped | hooks/useIoTStore.ts:260 | the new entry first, then the previous entries in order, at most cap entries |
| Records.TakeAfterTake | hooks/useIoTStore.ts:260 | truncating early does not change a later truncation |
| Records.PrependEachKeepsNewest | hooks/useIoTStore.ts:326 | after any run of entries a bounded log holds the newest cap entries, newest first |
| Records.ReplaceWhere | hooks/useIoTStore.ts:177 | entries with the id become the new record; length and all other entries unchanged |
| Records.RemoveWhere | hooks/useIoTStore.ts:194 | no entry with the id remains, every other entry stays, nothing is added |
| Records.RemoveCount | hooks/useIoTStore.ts:291 | removal drops exactly as many entries as carry the id |
| Records.RemoveAbsent | hooks/useIoTStore.ts:130 | removing an absent id leaves the list unchanged |
| Records.RemoveAppend | hooks/useIoTStore.ts:130 | removal keeps the remaining entries in order |
| Records.RemoveIdempotent | hooks/useIoTStore.ts:194 | removing twice is removing once |
| Records.AddThenRemove | hooks/useIoTStore.ts:158 | appending a record and removing its id is removing the id |
| Records.ReplaceThenRemove | hooks/useIoTStore.ts:177 | replacing then removing an id is removing it |
| Records.ReplaceIdempotent | hooks/useIoTStore.ts:110 | replacing twice with the same record is replacing once |
| IoTStore.RemoveProdiMessage | hooks/useIoTStore.ts:124-127 | the server's error text unless missing or empty, else 'Failed to remove prodi' |
| IoTStore.CheckUid | hooks/useIoTStore.ts:214-233 | a student only from an OK answer with `found` and a student; a 404, any other failure or a rejected request gives null |
| IoTStore.Checked | hooks/useIoTStore.ts:155-162 | an OK answer ends normally; a non-OK answer rethrows the fixed message; a rejected request rethrows its own error |
| IoTStore.Store.constructor | hooks/useIoTStore.ts:51-63 | all lists empty, not connected |
| IoTStore.Store.SetConnected | hooks/useIoTStore.ts:55 | the flag takes the given value |
| IoTStore.Store.FetchProdi | hooks/useIoTStore.ts:66-76 | an OK answer replaces the list; a failure is swallowed and the list kept |
| IoTStore.Store.AddProdi | hooks/useIoTStore.ts:78-96 | on OK the record is appended; otherwise it rethrows and the list is kept |
| IoTStore.Store.UpdateProdi | hooks/useIoTStore.ts:98-116 | on OK the entries with the id are replaced; otherwise it rethrows and the list is kept |
| IoTStore.Store.RemoveProdi | hooks/useIoTStore.ts:118-136 | on OK the entries with the id are removed; otherwise it rethrows the server's message or the fixed one |
| IoTStore.Store.AddStudent | hooks/useIoTStore.ts:142-163 | on OK the record is appended; otherwise it rethrows |
| IoTStore.Store.UpdateStudent | hooks/useIoTStore.ts:165-183 | on OK the entries with the id are replaced; otherwise it rethrows |
| IoTStore.Store.RemoveStudent | hooks/useIoTStore.ts:185-200 | on OK the entries with the id are removed; otherwise it rethrows |
| IoTStore.Store.FetchStudents | hooks/useIoTStore.ts:202-212 | an OK answer replaces the list; a failure is swallowed |
| IoTStore.Store.AddAttendanceLog | hooks/useIoTStore.ts:239-266 | 409 is ignored without error; another failure rethrows with the list unchanged; OK puts the record first, keeping at most 100 |
| IoTStore.Store.FetchAttendanceLogs | hooks/useIoTStore.ts:270-280 | an OK answer replaces the list; a failure is swallowed |
| IoTStore.Store.DeleteAttendanceLog | hooks/useIoTStore.ts:282-297 | on OK the entries with the id are removed; otherwise it rethrows |
| IoTStore.Store.DeleteAllAttendanceLogs | hooks/useIoTStore.ts:299-312 | on OK the list is emptied; otherwise it rethrows |
| IoTStore.Store.AddSerialLog | hooks/useIoTStore.ts:317-328 | one entry, of type INFO unless given, goes first; at most 500 are kept |
| IoTStore.Store.ClearSerialLogs | hooks/useIoTStore.ts:330 | the serial log is emptied |
| SerialConnection.Dispatch | hooks/useSerialConnection.ts:22-66 | ATTENDANCE looks up its uid, STUDENT_ADDED registers its name, class, nis and uid, ERROR shows its text, every other type does nothing |
| SerialConnection.ScanRecord | hooks/useSerialConnection.ts:24-44 | a found student gives HADIR with the student's name and class; none gives DITOLAK with UNKNOWN name and class; the source is 'ktp' |
| SerialConnection.DecodedLinesNeverLog | lib/utils.ts:40-150 | no decoded device line leads to a lookup and an attendance record |
| SerialConnection.FailedLookupIsRejected | hooks/useIoTStore.ts:222-232 | a lookup that fails in any way records the scan as DITOLAK |
| SerialConnection.SerialHook.constructor | hooks/useSerialConnection.ts:6-15 | no error shown, no timer pending |
| SerialConnection.SerialHook.Handle | hooks/useSerialConnection.ts:18-67 | each message's action happens, and only its part of the state changes |
| SerialConnection.SerialHook.OnErrorTimer | hooks/useSerialConnection.ts:63 | the 5000 ms timer clears the error |
| SerialConnection.SerialHook.Connect | hooks/useSerialConnection.ts:74-86 | the store's flag takes the serial result; a failure shows 'Gagal terhubung ke perangkat' |
| SerialConnection.SerialHook.Disconnect | hooks/useSerialConnection.ts:88-91 | a normal return leaves store and channel disconnected; a throw leaves the store's flag as it was |
| Database.OrNull | app/api/attendance/route.ts:67 | `field \|\| null` keeps a non-empty string and turns a missing or empty one into null |
| AttendanceRoute.DayRange | app/api/attendance/route.ts:14-24 | the range is one day of milliseconds, both ends included, and holds exactly the instants on the parsed instant's local day |
| AttendanceRoute.DateOnlyWestOfUtc | app/api/attendance/route.ts:15-18 | west of UTC, a `YYYY-MM-DD` date selects the local day before it |
| AttendanceRoute.DateOnlyEastOfUtc | app/api/attendance/route.ts:15-18 | on or east of UTC, a `YYYY-MM-DD` date selects its own local day |
| AttendanceRoute.RequestedDayRange | app/api/attendance/route.ts:14-24 | the intended filter: exactly the instants of the requested local calendar day, at any offset |
| AttendanceRoute.WhereOf | app/api/attendance/route.ts:12-32 | each filter is present exactly when its parameter is; a row matches when it falls on the local day, has the student id and has the status asked for |
| AttendanceRoute.BuildWhere | app/api/attendance/route.ts:12-32 | the field-by-field construction yields that filter |
| AttendanceRoute.Select | app/api/attendance/route.ts:34-35 | the matching rows, each from the table, and every matching row; each matching row occurs as often as in the table and no other row occurs |
| AttendanceRoute.Latest | app/api/attendance/route.ts:36-37 | exactly min(rows, 100) rows, newest first, drawn from the selection; all of it when there are no more than 100 |
| AttendanceRoute.LatestKeepsNewest | app/api/attendance/route.ts:36-37 | no row left off the page is newer than a row on it |
| AttendanceRoute.Get | app/api/attendance/route.ts:5-48 | 200 with the newest 100 matching rows; 500 when the query fails or the date does not parse |
| AttendanceRoute.NewRecord | app/api/attendance/route.ts:64-72 | the record has the given fields, the student id or null, and source 'rfid' when none is given |
| AttendanceRoute.Post | app/api/attendance/route.ts:51-86 | 400 and no insert when uid, name, class or status is missing; otherwise one insert and 201 (or 500 on failure); never 409, so repeated scans all insert |
| AttendanceRoute.Delete | app/api/attendance/route.ts:89-100 | every record is removed, or 500 and nothing changes |
| StatsRoute.EffectiveDate | app/api/attendance/stats/route.ts:8 | a given date is used as it is |
| StatsRoute.DefaultIsTodaysDate | app/api/attendance/stats/route.ts:8 | without a date, the date part before the `T` of the current ISO time is used |
| StatsRoute.Count | app/api/attendance/stats/route.ts:29-32 | the count is the number of times the status occurs among the rows' statuses (the multiset of their statuses); it never exceeds the rows and is zero exactly when no row has that status |
| StatsRoute.StatsOf | app/api/attendance/stats/route.ts:27-33 | the total is the number of selected rows; hadir, tidakHadir, izin and ditolak are how often HADIR, TIDAK HADIR, IZIN and DITOLAK occur among the rows' statuses |
| StatsRoute.CountsWithinTotal | app/api/attendance/stats/route.ts:27-33 | hadir + tidakHadir + izin + ditolak never exceeds the total, and equals it exactly when every row has one of the four statuses |
| StatsRoute.Get | app/api/attendance/stats/route.ts:5-43 | reads only: 200 with the counts over the parsed day's local range, 500 when the date does not parse or the query fails |
| StudentsRoute.Decide | app/api/students/route.ts:30-59 | missing field first, then a taken NIS, then a taken UID, else create, each case exactly characterised |
| StudentsRoute.NewStudent | app/api/students/route.ts:61-69 | the student has the given fields and the programme id or null |
| StudentsRoute.CreateKeepsKeysUnique | app/api/students/route.ts:37-75 | a student the checks let through keeps NIS and UID unique in the table |
| StudentsRoute.Post | app/api/students/route.ts:25-83 | 400, 409 for the NIS, 409 for the UID, or one insert and 201; 500 on a failing query; NIS and UID stay unique |
| StudentsRoute.ByNewest | app/api/students/route.ts:7-12 | every student exactly once, newest first |
| StudentsRoute.Get | app/api/students/route.ts:5-22 | 200 with every student newest first, or 500 |
| CheckUidRoute.FindByUid | app/api/students/check-uid/route.ts:18-25 | a student is found exactly when one has that exact uid, and it is that student |
| CheckUidRoute.Check | app/api/students/check-uid/route.ts:5-45 | 400 for a missing or empty uid before any lookup; 500 on a failing lookup; 200 with the student whose uid equals the input, unnormalised, or 404 with `found: false` |
| CheckUidRoute.ToClient | hooks/useIoTStore.ts:222-228 | the client sees `found` and a student only on a found answer |
| CheckUidRoute.ScanOutcome | hooks/useSerialConnection.ts:24-44 | a scan is recorded HADIR, with that student's name and class, exactly when a student holds the uid and the lookup succeeds; DITOLAK otherwise |
| ProdiRoute.NewProdi | app/api/prodi/route.ts:52-58 | the code is stored as the upper-cased request code, character by character; the id and name are the given ones; the faculty is null when absent |
| ProdiRoute.Decide | app/api/prodi/route.ts:32-58 | as written: 400, then 409 on the raw code, then an insert that the table refuses when the upper-cased code exists |
| ProdiRoute.LowerCaseVariantFails | app/api/prodi/route.ts:40-54 | "ti" posted against a stored "TI" passes the duplicate check and fails at the insert |
| ProdiRoute.DecideIntended | app/api/prodi/route.ts:39-49 | comparing the stored form: 409 exactly when the upper-cased code exists; never a constraint failure |
| ProdiRoute.IntendedCreateKeepsCodesUnique | app/api/prodi/route.ts:39-58 | with the intended check, every inserted code is new and codes stay unique |
| ProdiRoute.ChecksAgreeOnUpperCase | app/api/prodi/route.ts:39-54 | for codes posted upper-case, the written and the intended check agree |
| ProdiRoute.Post | app/api/prodi/route.ts:27-68 | 400, 409, an insert and 201, or 500 when the query or the insert fails |
| ProdiRoute.NameOrderIsTotal | app/api/prodi/route.ts:8 | the name order is total and transitive |
| ProdiRoute.ByName | app/api/prodi/route.ts:7-14 | every programme exactly once, ordered by name |
| ProdiRoute.Get | app/api/prodi/route.ts:5-24 | 200 with every programme by name, or 500 |
| Sorting.SortBySorted | app/api/students/route.ts:11 | the sort orders the rows by any total preorder |
| Sorting.LexTotal | app/api/prodi/route.ts:8 | any two names are comparable in the character-code order |
| Sorting.LexTransitive | app/api/prodi/route.ts:8 | the character-code order on names is transitive |
| Sorting.TakeKeepsTop | app/api/attendance/route.ts:36-37 | the first n rows of a sorted list rank above every row after them |
| Middleware.Redirect | middleware.ts:6-22 | the auth callback: the only redirect targets are /login and /dashboard |
| Middleware.Middleware | middleware.ts:6-26 | on a path the matcher accepts, the callback's decision; on any other path no redirect |
| Middleware.GuardedPagesMatched | middleware.ts:8-26 | every /dashboard or /login path without a `.` is matched, so the callback decides it |
| Middleware.DottedDashboardPathPasses | middleware.ts:24-26 | an anonymous request for `/dashboard/report.pdf` is not redirected, although the callback alone would send it to /login |
| Middleware.PrefixesExclusive | middleware.ts:8-9 | no path starts with both /dashboard and /login |
| Middleware.RedirectCases | middleware.ts:7-21 | /login exactly for anonymous /dashboard paths, /dashboard exactly for logged-in /login paths, no redirect otherwise |
| Middleware.RedirectSettles | middleware.ts:12-19 | the page a redirect leads to is not redirected again |
| Middleware.NoRedirectOnOwnPage | middleware.ts:12-21 | a logged-in user on /dashboard and an anonymous user on /login are never redirected |

## Left out

- Web Serial: the port request and open, `TextDecoder` and `TextEncoder`, and the reader's own errors are parameters or left out. A read error ends the loop like the end of the stream, which is a shorter chunk sequence.
- Real timers and the asynchronous interleaving of handlers are left out. Each timer or socket callback is an event method that the environment calls in some order.
- A listener that subscribes or unsubscribes while it is being notified is not modelled.
- The `timestamp` field that `processMessage` adds to each message is a clock reading, so it is left out. A delivery carries the decoded message only.
- The decoder's `try`/`catch` is left out. No string operation in it can throw, so the catch never runs.
- Utils.FormatUid: upper-cases ASCII letters only, because JavaScript's full Unicode `toUpperCase` tables are not modelled.
- ProdiRoute.NewProdi: upper-cases ASCII letters only, for the same reason.
- Whitespace is JavaScript's `\s` set for `trim` and `replace(/\s/g, '')`, written out character by character.
- `request.json()` failures and body fields that are not strings are left out. A request body is given as optional string fields, so a malformed JSON body (answered 500) is not modelled.
- Date parsing is a parameter (the parsed instant, or none when the string does not parse). The server's zone is a fixed offset, so daylight-saving changes are left out.
- StatsRoute.Get takes the parse of `EffectiveDate` as a parameter, because string-to-date parsing is not modelled.
- Prisma `include` (the related programme, the attendance and student counts) is left out. Rows come back without the joined data.
- The database's order among rows with equal sort keys is unspecified. The model's sort fixes one.
- Names are ordered by character code, because database collation is not modelled.
- The schema file is not part of this model. The unique constraints on student NIS and UID and on programme code are inferred from the routes' use of `findUnique` on those fields.
- Fresh ids and creation times (`Date.now()`, `Math.random()`, database defaults) are parameters.
- Console logging and the UI (toasts, dialogs, pages) are left out.
- Middleware.Middleware: models the matcher as its regular expression applied to the path. Next.js's own translation of matcher strings (trailing slashes, locales, `has`/`missing` conditions) is not modelled.
- The `'Error: '` branch of the hook's `connect` is left out. It is unreachable because `serialService.connect` catches every error itself and returns false. SerialConnection.SerialHook.Connect models the reachable path.
- The React effect that subscribes the listener on mount and unsubscribes it on cleanup is modelled only through Subscribe/Unsubscribe. Effect re-runs are not modelled.
- app/api/attendance/delete-all/route.ts and the `[id]` routes are not part of this model. The store's calls to them take the HTTP answer as a parameter.

Where the system's documented behaviour and the code differ, the model follows the code:

- No route limits attendance to one record per student per day. The attendance POST never answers 409, so the store's 409 branch is never reached from this server.
- Card ids are not canonicalised on the scan path. RFID_SCAN keeps the uid's letter case, and the check-uid route compares the uid exactly as given.
- A second `connect` while one is in flight resolves true at once. It does not wait for the first attempt's outcome.
- `fetchProdi`, `fetchStudents`, `fetchAttendanceLogs` and `checkUid` swallow failures rather than surfacing them.

## Findings

| source | as written | input that shows it | evidently intended | confidence | as-written member | corrected member |
|---|---|---|---|---|---|---|
| lib/utils.ts:105 | the student-list payload is read from offset 10 of the 14-character tag `WEB_Mahasiswa:` | `WEB_Mahasiswa:Jane,3A,123,AB` decodes with name `swa:Jane` | read from offset 14, giving name `Jane` | high, not executed | Utils.StudentListNameCounterexample | Utils.ParseIntendedRoundTrip |
| lib/utils.ts:123 | the student-added payload is read from offset 16 of the 20-character tag `WEB_Mahasiswa_ADDED:` | `WEB_Mahasiswa_ADDED:Jane,3A,123,AB` decodes with name `DED:Jane` | read from offset 20, giving name `Jane` | high, not executed | Utils.StudentAddedNameCounterexample | Utils.ParseIntendedRoundTrip |
| app/api/prodi/route.ts:40-54 | the duplicate check compares the raw code, but the upper-cased code is stored | table holds code `TI`; POST `{code: "ti", name: "Teknik Informatika"}` passes the check and fails the insert with 500 | compare the upper-cased code and answer 409 | medium, not executed | ProdiRoute.LowerCaseVariantFails | ProdiRoute.IntendedCreateKeepsCodesUnique |
| app/api/attendance/route.ts:15-18 | `new Date("YYYY-MM-DD")` is midnight UTC, and `setHours` then works in local time; app/api/attendance/stats/route.ts:11-14 repeats it (StatsRoute.Get uses the same day range) | server at UTC−5, `date=2024-03-10`: the range covers local 2024-03-09 | the requested local calendar day | medium, not executed | AttendanceRoute.DateOnlyWestOfUtc | AttendanceRoute.RequestedDayRange |

The route and channel methods model the code as written. They use `Parse`, `ProdiRoute.Decide` and `DayRange`. The corrected definitions sit beside them with their properties proved.
