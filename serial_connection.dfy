/**
 * hooks/useSerialConnection.ts: the listener that turns device messages
 * into store calls, and the connect and disconnect wrappers around the
 * serial channel.
 */
module SerialConnection {
  import opened Wrappers
  import opened Utils
  import opened Records
  import opened IoTStore
  import SerialChannel

  /** The body `addAttendanceLog` posts. */
  datatype AttendanceRequest = AttendanceRequest(uid: string, studentName: string, kelas: string, status: string, source: string)

  /** The fields `addStudent` posts; a field the device left out is absent from the body. */
  datatype StudentRequest = StudentRequest(name: string, kelas: Option<string>, nis: Option<string>, uid: string)

  /** What the listener does with a message. */
  datatype Action =
    | LookupAndLog(uid: string)
    | Register(request: StudentRequest)
    | ShowError(text: string)
    | NoAction

  /** The `switch` on the message type. */
  function Dispatch(m: Message): (a: Action)
    ensures a.LookupAndLog? <==> m.Attendance?
    ensures a.Register? <==> m.StudentAdded?
    ensures a.ShowError? <==> m.Error?
    ensures m.Attendance? ==> a.uid == m.uid
    ensures m.StudentAdded? ==>
      a.request == StudentRequest(m.student.name, m.student.kelas, m.student.nis, m.uid)
    ensures m.Error? ==> a.text == m.text
  {
    match m
    case Attendance(uid) => LookupAndLog(uid)
    case StudentAdded(s, uid) => Register(StudentRequest(s.name, s.kelas, s.nis, uid))
    case Error(text) => ShowError(text)
    case _ => NoAction
  }

  /**
   * The attendance record posted for a scanned card: HADIR with the
   * student's name and class when the lookup found one, DITOLAK with name
   * and class UNKNOWN otherwise; the source is 'ktp' either way.
   */
  function ScanRecord(uid: string, found: Option<Student>): (r: AttendanceRequest)
    ensures r.uid == uid && r.source == "ktp"
    ensures found.Some? ==> r.status == "HADIR" && r.studentName == found.value.name && r.kelas == found.value.kelas
    ensures found.None? ==> r.status == "DITOLAK" && r.studentName == "UNKNOWN" && r.kelas == "UNKNOWN"
  {
    match found
    case Some(s) => AttendanceRequest(uid, s.name, s.kelas, "HADIR", "ktp")
    case None => AttendanceRequest(uid, "UNKNOWN", "UNKNOWN", "DITOLAK", "ktp")
  }

  /**
   * The decoder never yields an ATTENDANCE message, so no line read from
   * the device leads to a lookup and an attendance record.
   */
  lemma DecodedLinesNeverLog(line: string)
    requires Parse(line).Some?
    ensures !Dispatch(Parse(line).value).LookupAndLog?
  {
  }

  /**
   * A scan whose lookup failed in any way, a 404, another error status or a
   * rejected request, is recorded as DITOLAK, like an unknown card.
   */
  lemma FailedLookupIsRejected(uid: string, resp: Response<UidLookup>)
    requires resp.NetworkError? || !Ok(resp.status)
    ensures ScanRecord(uid, CheckUid(resp)) == AttendanceRequest(uid, "UNKNOWN", "UNKNOWN", "DITOLAK", "ktp")
  {
  }

  /** The requests the listener made for one message. */
  datatype Sent = PostedLog(log: AttendanceRequest) | PostedStudent(student: StudentRequest) | NothingSent

  /** The hook's state: the error it shows, its pending error timers, and the store and channel it drives. */
  class SerialHook {
    var error: Option<string>
    /** The 5000 ms timers that clear the error, scheduled and not yet fired. */
    var errorTimers: nat
    const store: Store
    const serial: SerialChannel.SerialService

    constructor(store: Store, serial: SerialChannel.SerialService)
      ensures this.store == store && this.serial == serial
      ensures error == None && errorTimers == 0
    {
      this.store := store;
      this.serial := serial;
      error := None;
      errorTimers := 0;
    }

    /**
     * The subscribed listener. ATTENDANCE looks the card up and posts the
     * record `ScanRecord` builds; STUDENT_ADDED posts the student; ERROR
     * shows the text and schedules its removal; every other type does
     * nothing. The answers to the requests are parameters.
     */
    method Handle(m: Message, lookup: Response<UidLookup>, logReply: Response<AttendanceLog>,
                  studentReply: Response<Student>) returns (sent: Sent)
      modifies this`error, this`errorTimers, store`attendanceLogs, store`students
      ensures match Dispatch(m)
        case LookupAndLog(uid) =>
          && sent == PostedLog(ScanRecord(uid, CheckUid(lookup)))
          && store.attendanceLogs == (if logReply.Reply? && Ok(logReply.status)
                                      then PrependCapped(logReply.body, old(store.attendanceLogs), AttendanceCap)
                                      else old(store.attendanceLogs))
          && store.students == old(store.students) && error == old(error) && errorTimers == old(errorTimers)
        case Register(request) =>
          && sent == PostedStudent(request)
          && store.students == (if studentReply.Reply? && Ok(studentReply.status)
                                then old(store.students) + [studentReply.body]
                                else old(store.students))
          && store.attendanceLogs == old(store.attendanceLogs) && error == old(error) && errorTimers == old(errorTimers)
        case ShowError(text) =>
          && sent == NothingSent && error == Some(text) && errorTimers == old(errorTimers) + 1
          && store.attendanceLogs == old(store.attendanceLogs) && store.students == old(store.students)
        case NoAction =>
          && sent == NothingSent && error == old(error) && errorTimers == old(errorTimers)
          && store.attendanceLogs == old(store.attendanceLogs) && store.students == old(store.students)
    {
      match Dispatch(m)
      case LookupAndLog(uid) =>
        var student := CheckUid(lookup);
        var request := ScanRecord(uid, student);
        var _ := store.AddAttendanceLog(logReply);
        sent := PostedLog(request);
      case Register(request) =>
        var _ := store.AddStudent(studentReply);
        sent := PostedStudent(request);
      case ShowError(text) =>
        error := Some(text);
        errorTimers := errorTimers + 1;
        sent := NothingSent;
      case NoAction =>
        sent := NothingSent;
    }

    /** One error-clearing timer fires: the error is cleared, whichever error is showing by then. */
    method OnErrorTimer()
      modifies this`error, this`errorTimers
      ensures old(errorTimers) > 0 ==> error == None && errorTimers == old(errorTimers) - 1
      ensures old(errorTimers) == 0 ==> error == old(error) && errorTimers == 0
    {
      if errorTimers > 0 {
        errorTimers := errorTimers - 1;
        error := None;
      }
    }

    /**
     * `connect`: the serial service's result becomes the store's connected
     * flag, and a failure shows 'Gagal terhubung ke perangkat'.
     */
    method Connect(serialApi: bool, portGranted: bool, portOpens: bool, readable: bool, writable: bool,
                   statusWriteOk: bool) returns (ok: bool)
      modifies this`error, store`isConnected, serial`hasPort, serial`hasReader, serial`hasWriter,
               serial`isConnected, serial`written
      ensures ok == (serialApi && portGranted && portOpens)
      ensures store.isConnected == ok && serial.isConnected == (old(serial.isConnected) || ok)
      ensures error == if ok then old(error) else Some("Gagal terhubung ke perangkat")
    {
      ok := serial.Connect(serialApi, portGranted, portOpens, readable, writable, statusWriteOk);
      store.SetConnected(ok);
      if !ok {
        error := Some("Gagal terhubung ke perangkat");
      }
    }

    /**
     * `disconnect`: the serial channel is closed and the store marked
     * disconnected. If closing the channel throws, the store's flag is
     * left as it was.
     */
    method Disconnect(cancelOk: bool, closeOk: bool) returns (threw: bool)
      modifies store`isConnected, serial`hasPort, serial`hasReader, serial`hasWriter, serial`isConnected
      ensures !threw ==> !store.isConnected && !serial.isConnected && !serial.hasPort
      ensures threw ==> store.isConnected == old(store.isConnected)
      ensures threw <==> (old(serial.hasReader) && !cancelOk)
                         || (old(serial.hasPort) && !closeOk && (!old(serial.hasReader) || cancelOk))
    {
      threw := serial.Disconnect(cancelOk, closeOk);
      if !threw {
        store.SetConnected(false);
      }
    }
  }
}
