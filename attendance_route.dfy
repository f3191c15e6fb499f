/**
 * app/api/attendance/route.ts: listing attendance records with optional
 * filters, creating one, and deleting all of them.
 *
 * Instants are milliseconds since the epoch. `new Date(date)` is a
 * parameter, `None` when the date does not parse; the server's time zone
 * is a fixed offset from UTC, in milliseconds.
 */
module AttendanceRoute {
  import opened Wrappers
  import opened Records
  import opened Sorting
  import opened Database

  const MsPerDay: int := 86400000
  /** The most records a GET returns. */
  const PageSize: nat := 100

  /** The calendar day, counted from the epoch, on which instant `t` falls in a zone `offset` ms ahead of UTC. */
  function LocalDay(t: int, offset: int): int {
    (t + offset) / MsPerDay
  }

  /** An inclusive range of instants, `{ gte, lte }`. */
  datatype Range = Range(gte: int, lte: int)

  predicate InRange(t: int, r: Range) {
    r.gte <= t <= r.lte
  }

  /**
   * `setHours(0, 0, 0, 0)` and `setHours(23, 59, 59, 999)` on the parsed
   * date: the first and the last millisecond of the local day on which the
   * parsed instant falls.
   */
  function DayRange(instant: int, offset: int): (r: Range)
    ensures r.lte == r.gte + MsPerDay - 1
    ensures forall t :: InRange(t, r) <==> LocalDay(t, offset) == LocalDay(instant, offset)
  {
    var start := LocalDay(instant, offset) * MsPerDay - offset;
    var r := Range(start, start + MsPerDay - 1);
    assert forall t :: InRange(t, r) <==> LocalDay(t, offset) == LocalDay(instant, offset) by {
      forall t ensures InRange(t, r) <==> LocalDay(t, offset) == LocalDay(instant, offset) {
        DivisionOnDay(t + offset, LocalDay(instant, offset));
      }
    }
    r
  }

  /** Whole-day division: `x` falls on day `d` exactly when it lies within that day's milliseconds. */
  lemma DivisionOnDay(x: int, d: int)
    ensures x / MsPerDay == d <==> d * MsPerDay <= x < d * MsPerDay + MsPerDay
  {
    var q := x / MsPerDay;
    assert q * MsPerDay <= x < q * MsPerDay + MsPerDay;
  }

  /**
   * `new Date("YYYY-MM-DD")` reads a date-only string as midnight UTC of
   * that date; `day` counts days from the epoch.
   */
  function DateOnlyInstant(day: int): int {
    day * MsPerDay
  }

  /**
   * On a server west of UTC, the range built from a date-only string is the
   * local day BEFORE the requested date: midnight UTC is still the previous
   * evening there.
   */
  lemma DateOnlyWestOfUtc(day: int, offset: int)
    requires -MsPerDay < offset < 0
    ensures forall t :: InRange(t, DayRange(DateOnlyInstant(day), offset)) <==> LocalDay(t, offset) == day - 1
  {
    DivisionOnDay(DateOnlyInstant(day) + offset, day - 1);
  }

  /** East of UTC, or on UTC, the same range is the requested day. */
  lemma DateOnlyEastOfUtc(day: int, offset: int)
    requires 0 <= offset < MsPerDay
    ensures forall t :: InRange(t, DayRange(DateOnlyInstant(day), offset)) <==> LocalDay(t, offset) == day
  {
    DivisionOnDay(DateOnlyInstant(day) + offset, day);
  }

  /** The range the date filter is meant to cover: the requested calendar day, in the server's local time, whatever its offset. */
  function RequestedDayRange(day: int, offset: int): (r: Range)
    ensures r.lte == r.gte + MsPerDay - 1
    ensures forall t :: InRange(t, r) <==> LocalDay(t, offset) == day
  {
    DivisionOnDay(day * MsPerDay, day);
    DayRange(day * MsPerDay - offset, offset)
  }

  /** The `where` object of a GET: each filter present only when its parameter was given. */
  datatype Where = Where(timestamp: Option<Range>, studentId: Option<string>, status: Option<string>)

  predicate Matches(w: Where, row: AttendanceLog) {
    && (w.timestamp.Some? ==> InRange(row.timestamp, w.timestamp.value))
    && (w.studentId.Some? ==> row.studentId == w.studentId)
    && (w.status.Some? ==> row.status == w.status.value)
  }

  /**
   * The filter a GET applies: a row matches when it falls on the requested
   * local day, belongs to the requested student and has the requested
   * status, each condition only when its parameter is present.
   */
  function WhereOf(date: Option<string>, instant: int, studentId: Option<string>, status: Option<string>,
                   offset: int): (w: Where)
    ensures w.timestamp.Some? <==> Present(date)
    ensures w.studentId.Some? <==> Present(studentId)
    ensures w.status.Some? <==> Present(status)
    ensures forall row :: Matches(w, row) <==>
      && (Present(date) ==> LocalDay(row.timestamp, offset) == LocalDay(instant, offset))
      && (Present(studentId) ==> row.studentId == studentId)
      && (Present(status) ==> row.status == status.value)
  {
    Where(if Present(date) then Some(DayRange(instant, offset)) else None,
          if Present(studentId) then studentId else None,
          if Present(status) then status else None)
  }

  /** The GET handler's construction of `where`, one field at a time. */
  method BuildWhere(date: Option<string>, instant: int, studentId: Option<string>, status: Option<string>,
                    offset: int) returns (w: Where)
    ensures w == WhereOf(date, instant, studentId, status, offset)
  {
    w := Where(None, None, None);
    if Present(date) {
      w := w.(timestamp := Some(DayRange(instant, offset)));
    }
    if Present(studentId) {
      w := w.(studentId := studentId);
    }
    if Present(status) {
      w := w.(status := status);
    }
  }

  /** The rows a filter selects, in table order. */
  function Select(rows: seq<AttendanceLog>, w: Where): (r: seq<AttendanceLog>)
    ensures forall i | 0 <= i < |r| :: r[i] in rows && Matches(w, r[i])
    ensures forall i | 0 <= i < |rows| :: Matches(w, rows[i]) ==> rows[i] in r
    ensures multiset(r) <= multiset(rows)
    ensures forall row :: multiset(r)[row] == if Matches(w, row) then multiset(rows)[row] else 0
  {
    Filter(rows, row => Matches(w, row))
  }

  /** `orderBy: { timestamp: 'desc' }` */
  function NewerFirst(a: AttendanceLog, b: AttendanceLog): bool {
    a.timestamp >= b.timestamp
  }

  lemma NewerFirstOrders()
    ensures TotalPreorder(NewerFirst)
  {
  }

  /**
   * `orderBy` newest first and `take: 100`: at most 100 rows, newest first,
   * drawn from the selection, and all of it when it is no longer.
   */
  function Latest(rows: seq<AttendanceLog>): (r: seq<AttendanceLog>)
    ensures |r| == if |rows| <= PageSize then |rows| else PageSize
    ensures Sorted(r, NewerFirst)
    ensures multiset(r) <= multiset(rows)
    ensures |rows| <= PageSize ==> multiset(r) == multiset(rows)
  {
    var sorted := SortBy(rows, NewerFirst);
    NewerFirstOrders();
    SortBySorted(rows, NewerFirst);
    var r := Take(sorted, PageSize);
    assert sorted == r + sorted[|r|..];
    assert multiset(sorted) == multiset(r) + multiset(sorted[|r|..]);
    r
  }

  /** No record left out of a GET page is newer than a record on it. */
  lemma LatestKeepsNewest(rows: seq<AttendanceLog>, kept: AttendanceLog, dropped: AttendanceLog)
    requires kept in Latest(rows)
    requires dropped in multiset(rows) - multiset(Latest(rows))
    ensures kept.timestamp >= dropped.timestamp
  {
    var sorted := SortBy(rows, NewerFirst);
    NewerFirstOrders();
    SortBySorted(rows, NewerFirst);
    var n := |Latest(rows)|;
    assert Latest(rows) == sorted[..n];
    assert sorted == sorted[..n] + sorted[n..];
    assert multiset(sorted) == multiset(sorted[..n]) + multiset(sorted[n..]);
    assert dropped in multiset(sorted[n..]);
    TakeKeepsTop(sorted, NewerFirst, n, kept, dropped);
  }

  /**
   * GET: the newest 100 records matching the filters. A date that does not
   * parse, or a failing query, answers 500.
   */
  method Get(db: Tables, date: Option<string>, parsedDate: Option<int>, studentId: Option<string>,
             status: Option<string>, offset: int, dbFails: bool) returns (reply: Reply<seq<AttendanceLog>>)
    ensures dbFails || (Present(date) && parsedDate.None?) ==>
      reply == ErrorReply(500, "Failed to fetch attendance")
    ensures !(dbFails || (Present(date) && parsedDate.None?)) ==>
      reply == Json(200, Latest(Select(db.attendance, WhereOf(date, parsedDate.GetOr(0), studentId, status, offset))))
  {
    var w := BuildWhere(date, parsedDate.GetOr(0), studentId, status, offset);
    if dbFails || (Present(date) && parsedDate.None?) {
      return ErrorReply(500, "Failed to fetch attendance");
    }
    reply := Json(200, Latest(Select(db.attendance, w)));
  }

  /** The fields of a POST body; each may be missing. */
  datatype AttendanceBody = AttendanceBody(uid: Option<string>, studentId: Option<string>, studentName: Option<string>,
                                           kelas: Option<string>, status: Option<string>, source: Option<string>)

  /** The POST validation: uid, student name, class and status are all required. */
  predicate Complete(body: AttendanceBody) {
    Present(body.uid) && Present(body.studentName) && Present(body.kelas) && Present(body.status)
  }

  /**
   * The record a valid POST creates: the fields given, the student id or
   * null, and the source 'rfid' when none is given. The id and the
   * creation time come from the database.
   */
  function NewRecord(body: AttendanceBody, id: string, now: int): (r: AttendanceLog)
    requires Complete(body)
    ensures r.id == id && r.timestamp == now
    ensures r.uid == body.uid.value && r.studentName == body.studentName.value
    ensures r.kelas == body.kelas.value && r.status == body.status.value
    ensures r.studentId == OrNull(body.studentId)
    ensures body.source.None? ==> r.source == "rfid"
    ensures body.source.Some? ==> r.source == body.source.value
  {
    AttendanceLog(id, body.uid.value, OrNull(body.studentId), body.studentName.value, body.kelas.value,
                  body.status.value, body.source.GetOr("rfid"), now)
  }

  /**
   * POST: 400 when a required field is missing; otherwise one record is
   * created and returned with 201. No check against earlier records is
   * made, so the same scan posted twice creates two records; a failing
   * insert answers 500.
   */
  method Post(db: Tables, body: AttendanceBody, id: string, now: int, dbFails: bool) returns (reply: Reply<AttendanceLog>)
    modifies db`attendance
    ensures reply.status == 201 || reply.status == 400 || reply.status == 500
    ensures !Complete(body) ==>
      reply == ErrorReply(400, "UID, student name, class, and status are required") && db.attendance == old(db.attendance)
    ensures Complete(body) && dbFails ==>
      reply == ErrorReply(500, "Failed to create attendance record") && db.attendance == old(db.attendance)
    ensures Complete(body) && !dbFails ==>
      reply == Json(201, NewRecord(body, id, now)) && db.attendance == old(db.attendance) + [NewRecord(body, id, now)]
  {
    if !Complete(body) {
      return ErrorReply(400, "UID, student name, class, and status are required");
    }
    if dbFails {
      return ErrorReply(500, "Failed to create attendance record");
    }
    var record := NewRecord(body, id, now);
    db.attendance := db.attendance + [record];
    reply := Json(201, record);
  }

  /** DELETE: every record is removed. */
  method Delete(db: Tables, dbFails: bool) returns (reply: Reply<string>)
    modifies db`attendance
    ensures dbFails ==> reply == ErrorReply(500, "Failed to delete attendance logs") && db.attendance == old(db.attendance)
    ensures !dbFails ==> reply == Json(200, "All attendance logs deleted") && db.attendance == []
  {
    if dbFails {
      return ErrorReply(500, "Failed to delete attendance logs");
    }
    db.attendance := [];
    reply := Json(200, "All attendance logs deleted");
  }
}
