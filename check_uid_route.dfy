/**
 * app/api/students/check-uid/route.ts: looks a card's UID up among the
 * students, exactly as given, and answers 400, 404, 200 or 500. It reads
 * the table and changes nothing.
 */
module CheckUidRoute {
  import opened Wrappers
  import opened Records
  import opened Database
  import opened IoTStore
  import opened SerialConnection

  /** The body of a 200 or a 404 answer. */
  datatype Lookup = Found(student: Student) | NotRegistered(message: string)

  /** `findUnique({ where: { uid } })`: the student whose UID equals `uid`, if any. */
  function FindByUid(rows: seq<Student>, uid: string): (r: Option<Student>)
    ensures r.Some? <==> exists i | 0 <= i < |rows| :: rows[i].uid == uid
    ensures r.Some? ==> r.value in rows && r.value.uid == uid
  {
    if |rows| == 0 then None
    else if rows[0].uid == uid then Some(rows[0])
    else FindByUid(rows[1..], uid)
  }

  /**
   * POST: a missing or empty UID answers 400 before any lookup; a failing
   * lookup 500; an unregistered UID 404 with `found: false`; a registered one
   * 200 with the student whose UID is exactly the one given.
   */
  function Check(rows: seq<Student>, uid: Option<string>, dbFails: bool): (r: Reply<Lookup>)
    ensures !Present(uid) ==> r == ErrorReply(400, "UID is required")
    ensures Present(uid) && dbFails ==> r == ErrorReply(500, "Failed to check UID")
    ensures Present(uid) && !dbFails ==>
      && r.Json?
      && (r.status == 200 <==> exists i | 0 <= i < |rows| :: rows[i].uid == uid.value)
      && (r.status == 404 <==> !exists i | 0 <= i < |rows| :: rows[i].uid == uid.value)
      && (r.status == 200 ==> r.value.Found? && r.value.student in rows && r.value.student.uid == uid.value)
      && (r.status == 404 ==> r.value == NotRegistered("UID tidak terdaftar"))
  {
    if !Present(uid) then ErrorReply(400, "UID is required")
    else if dbFails then ErrorReply(500, "Failed to check UID")
    else match FindByUid(rows, uid.value)
      case None => Json(404, NotRegistered("UID tidak terdaftar"))
      case Some(s) => Json(200, Found(s))
  }

  /** What the client receives: `found` and the student; an `{ error }` body carries neither. */
  function ToClient(r: Reply<Lookup>): (resp: Response<UidLookup>)
    ensures resp.Reply? && resp.status == r.status
    ensures resp.body.found <==> r.Json? && r.value.Found?
    ensures resp.body.student.Some? <==> r.Json? && r.value.Found?
    ensures r.Json? && r.value.Found? ==> resp.body.student == Some(r.value.student)
  {
    match r
    case Json(status, Found(s)) => Reply(status, UidLookup(true, Some(s)))
    case Json(status, NotRegistered(_)) => Reply(status, UidLookup(false, None))
    case ErrorReply(status, _) => Reply(status, UidLookup(false, None))
  }

  /**
   * From the scanned card to the record the listener posts: HADIR with the
   * student's name and class exactly when a student holds that UID and the
   * lookup succeeds; DITOLAK otherwise.
   */
  lemma ScanOutcome(rows: seq<Student>, uid: string, dbFails: bool)
    requires uid != ""
    ensures var record := ScanRecord(uid, CheckUid(ToClient(Check(rows, Some(uid), dbFails))));
      && (record.status == "HADIR" <==> !dbFails && exists i | 0 <= i < |rows| :: rows[i].uid == uid)
      && (record.status == "DITOLAK" <==> dbFails || !exists i | 0 <= i < |rows| :: rows[i].uid == uid)
      && (record.status == "HADIR" ==> exists i | 0 <= i < |rows| :: rows[i].uid == uid
                                        && record.studentName == rows[i].name && record.kelas == rows[i].kelas)
  {
    var answer := Check(rows, Some(uid), dbFails);
    if !dbFails && answer.status == 200 {
      var s := answer.value.student;
      var i :| 0 <= i < |rows| && rows[i] == s;
    }
  }
}
