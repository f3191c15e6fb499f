/**
 * app/api/attendance/stats/route.ts: how many records of a day carry each
 * attendance status. The clock's ISO text and the parse of the date are
 * parameters.
 */
module StatsRoute {
  import opened Wrappers
  import opened Strings
  import opened Records
  import opened Database
  import opened AttendanceRoute

  datatype Stats = Stats(total: nat, hadir: nat, tidakHadir: nat, izin: nat, ditolak: nat)

  /** The date asked for, or else the date part of the current ISO time. */
  function EffectiveDate(date: Option<string>, nowIso: string): (d: string)
    ensures Present(date) ==> d == date.value
  {
    if Present(date) then date.value else Split(nowIso, 'T')[0]
  }

  /** Without a date, the day counted is the calendar date that opens the ISO time, `YYYY-MM-DD` before the `T`. */
  lemma DefaultIsTodaysDate(date: Option<string>, datePart: string, clock: string)
    requires !Present(date) && 'T' !in datePart
    ensures EffectiveDate(date, datePart + "T" + clock) == datePart
  {
    assert datePart + "T" + clock == datePart + ['T'] + clock;
    SplitAfterPiece(datePart, 'T', clock);
  }

  /** `rows.map(a => a.status)` */
  function Statuses(rows: seq<AttendanceLog>): (r: seq<string>)
    ensures |r| == |rows|
    ensures forall i | 0 <= i < |rows| :: r[i] == rows[i].status
  {
    seq(|rows|, i requires 0 <= i < |rows| => rows[i].status)
  }

  /**
   * `rows.filter(a => a.status === status).length`: how many rows carry
   * `status`, that is, how often it occurs among the rows' statuses.
   */
  function Count(rows: seq<AttendanceLog>, status: string): (n: nat)
    ensures n == multiset(Statuses(rows))[status]
    ensures n <= |rows|
    ensures n == 0 <==> forall i | 0 <= i < |rows| :: rows[i].status != status
  {
    if |rows| == 0 then 0
    else
      assert Statuses(rows) == [rows[0].status] + Statuses(rows[1..]);
      (if rows[0].status == status then 1 else 0) + Count(rows[1..], status)
  }

  /** The four statuses the dashboard counts. */
  predicate Counted(status: string) {
    status == "HADIR" || status == "TIDAK HADIR" || status == "IZIN" || status == "DITOLAK"
  }

  /** The answer's body: the number of records, then each status's count. */
  function StatsOf(rows: seq<AttendanceLog>): (s: Stats)
    ensures s.total == |rows|
    ensures s.hadir == multiset(Statuses(rows))["HADIR"]
    ensures s.tidakHadir == multiset(Statuses(rows))["TIDAK HADIR"]
    ensures s.izin == multiset(Statuses(rows))["IZIN"]
    ensures s.ditolak == multiset(Statuses(rows))["DITOLAK"]
  {
    Stats(|rows|, Count(rows, "HADIR"), Count(rows, "TIDAK HADIR"), Count(rows, "IZIN"), Count(rows, "DITOLAK"))
  }

  function CountedSum(s: Stats): nat {
    s.hadir + s.tidakHadir + s.izin + s.ditolak
  }

  /**
   * No record counts under two statuses, so the four counts never add up to
   * more than the total; they add up to exactly the total when every record
   * carries one of the four.
   */
  lemma {:induction false} CountsWithinTotal(rows: seq<AttendanceLog>)
    ensures CountedSum(StatsOf(rows)) <= StatsOf(rows).total
    ensures (forall i | 0 <= i < |rows| :: Counted(rows[i].status)) <==> CountedSum(StatsOf(rows)) == StatsOf(rows).total
  {
    if |rows| > 0 {
      var head, tail := rows[0].status, rows[1..];
      CountsWithinTotal(tail);
      assert CountedSum(StatsOf(rows)) == (if Counted(head) then 1 else 0) + CountedSum(StatsOf(tail));
      assert forall i | 0 < i < |rows| :: rows[i] == tail[i - 1];
      assert (forall i | 0 <= i < |rows| :: Counted(rows[i].status)) <==>
        Counted(head) && forall i | 0 <= i < |tail| :: Counted(tail[i].status);
    }
  }

  /**
   * GET: the counts over the records of the effective date's local day. A
   * date that does not parse, or a failing query, answers 500.
   */
  method Get(db: Tables, parsedDate: Option<int>, offset: int, dbFails: bool) returns (reply: Reply<Stats>)
    ensures dbFails || parsedDate.None? ==> reply == ErrorReply(500, "Failed to fetch attendance stats")
    ensures !dbFails && parsedDate.Some? ==>
      reply == Json(200, StatsOf(Select(db.attendance, Where(Some(DayRange(parsedDate.value, offset)), None, None))))
  {
    if dbFails || parsedDate.None? {
      return ErrorReply(500, "Failed to fetch attendance stats");
    }
    var day := Select(db.attendance, Where(Some(DayRange(parsedDate.value, offset)), None, None));
    reply := Json(200, StatsOf(day));
  }
}
