/**
 * The client-side cache of hooks/useIoTStore.ts: the programme, student,
 * attendance and serial-log lists and the operations that change them
 * after an HTTP call. The HTTP answer an operation receives is a parameter;
 * an operation that rethrows reports `Thrown` with the error's message.
 */
module IoTStore {
  import opened Wrappers
  import opened Records

  /** What `fetch` yields: a response with a status and a decoded body, or a rejection. */
  datatype Response<T> = Reply(status: int, body: T) | NetworkError(reason: string)

  /** `response.ok` */
  predicate Ok(status: int) {
    200 <= status <= 299
  }

  /** How an operation's promise ends: normally, or rethrowing an error with this message. */
  datatype Outcome = Done | Thrown(message: string)

  /** The body of the check-uid answer: `found` and, when found, the student. */
  datatype UidLookup = UidLookup(found: bool, student: Option<Student>)

  /** The most attendance records the cache keeps. */
  const AttendanceCap: nat := 100
  /** The most serial lines the cache keeps. */
  const SerialCap: nat := 500

  /** `error.error || 'Failed to remove prodi'`: the server's message unless it is missing or empty. */
  function RemoveProdiMessage(serverError: Option<string>): (m: string)
    ensures serverError.Some? && serverError.value != "" ==> m == serverError.value
    ensures serverError.None? || serverError.value == "" ==> m == "Failed to remove prodi"
    ensures m != ""
  {
    if serverError.Some? && serverError.value != "" then serverError.value else "Failed to remove prodi"
  }

  /**
   * `checkUid`: never throws. The student comes back only from an OK answer
   * that says `found` and carries one; a 404, any other failure and a
   * rejected request all yield nothing.
   */
  function CheckUid(resp: Response<UidLookup>): (r: Option<Student>)
    ensures r.Some? <==> resp.Reply? && Ok(resp.status) && resp.body.found && resp.body.student.Some?
    ensures r.Some? ==> r == resp.body.student
  {
    match resp
    case NetworkError(_) => None
    case Reply(status, body) =>
      if !Ok(status) then None
      else if body.found then body.student
      else None
  }

  /** The outcome of an operation that rethrows `failure` on any answer that is not OK. */
  function Checked<T>(resp: Response<T>, failure: string): (o: Outcome)
    ensures o == Done <==> resp.Reply? && Ok(resp.status)
    ensures resp.NetworkError? ==> o == Thrown(resp.reason)
    ensures resp.Reply? && !Ok(resp.status) ==> o == Thrown(failure)
  {
    match resp
    case NetworkError(reason) => Thrown(reason)
    case Reply(status, _) => if Ok(status) then Done else Thrown(failure)
  }

  class Store {
    var prodi: seq<Prodi>
    var students: seq<Student>
    var attendanceLogs: seq<AttendanceLog>
    var serialLogs: seq<SerialLog>
    var isConnected: bool

    /** The serial log never exceeds its cap. */
    predicate Valid()
      reads this
    {
      |serialLogs| <= SerialCap
    }

    constructor()
      ensures Valid()
      ensures prodi == [] && students == [] && attendanceLogs == [] && serialLogs == [] && !isConnected
    {
      prodi, students, attendanceLogs, serialLogs := [], [], [], [];
      isConnected := false;
    }

    method SetConnected(status: bool)
      modifies this`isConnected
      ensures isConnected == status
    {
      isConnected := status;
    }

    /** `fetchProdi`: an OK answer replaces the list; any failure is swallowed and the list kept. */
    method FetchProdi(resp: Response<seq<Prodi>>)
      modifies this`prodi
      ensures prodi == if resp.Reply? && Ok(resp.status) then resp.body else old(prodi)
    {
      if resp.Reply? && Ok(resp.status) {
        prodi := resp.body;
      }
    }

    /** `addProdi`: the created record joins the end of the list; a failure rethrows and keeps the list. */
    method AddProdi(resp: Response<Prodi>) returns (o: Outcome)
      modifies this`prodi
      ensures o == Checked(resp, "Failed to add prodi")
      ensures prodi == if o == Done then old(prodi) + [resp.body] else old(prodi)
    {
      o := Checked(resp, "Failed to add prodi");
      if o == Done {
        prodi := prodi + [resp.body];
      }
    }

    /** `updateProdi`: every entry with the id becomes the returned record. */
    method UpdateProdi(id: string, resp: Response<Prodi>) returns (o: Outcome)
      modifies this`prodi
      ensures o == Checked(resp, "Failed to update prodi")
      ensures prodi == if o == Done then ReplaceWhere(old(prodi), ProdiKey, id, resp.body) else old(prodi)
    {
      o := Checked(resp, "Failed to update prodi");
      if o == Done {
        prodi := ReplaceWhere(prodi, ProdiKey, id, resp.body);
      }
    }

    /**
     * `removeProdi`: after an OK answer every entry with the id leaves the
     * list; otherwise the server's error message, or the fixed one, is thrown.
     */
    method RemoveProdi(id: string, resp: Response<Option<string>>) returns (o: Outcome)
      modifies this`prodi
      ensures resp.NetworkError? ==> o == Thrown(resp.reason)
      ensures resp.Reply? && !Ok(resp.status) ==> o == Thrown(RemoveProdiMessage(resp.body))
      ensures o == Done <==> resp.Reply? && Ok(resp.status)
      ensures prodi == if o == Done then RemoveWhere(old(prodi), ProdiKey, id) else old(prodi)
    {
      match resp
      case NetworkError(reason) =>
        o := Thrown(reason);
      case Reply(status, serverError) =>
        if !Ok(status) {
          o := Thrown(RemoveProdiMessage(serverError));
        } else {
          prodi := RemoveWhere(prodi, ProdiKey, id);
          o := Done;
        }
    }

    /** `addStudent`: the created record joins the end of the list. */
    method AddStudent(resp: Response<Student>) returns (o: Outcome)
      modifies this`students
      ensures o == Checked(resp, "Failed to add student")
      ensures students == if o == Done then old(students) + [resp.body] else old(students)
    {
      o := Checked(resp, "Failed to add student");
      if o == Done {
        students := students + [resp.body];
      }
    }

    /** `updateStudent`: every entry with the id becomes the returned record. */
    method UpdateStudent(id: string, resp: Response<Student>) returns (o: Outcome)
      modifies this`students
      ensures o == Checked(resp, "Failed to update student")
      ensures students == if o == Done then ReplaceWhere(old(students), StudentKey, id, resp.body) else old(students)
    {
      o := Checked(resp, "Failed to update student");
      if o == Done {
        students := ReplaceWhere(students, StudentKey, id, resp.body);
      }
    }

    /** `removeStudent`: after an OK answer every entry with the id leaves the list. */
    method RemoveStudent(id: string, resp: Response<()>) returns (o: Outcome)
      modifies this`students
      ensures o == Checked(resp, "Failed to delete student")
      ensures students == if o == Done then RemoveWhere(old(students), StudentKey, id) else old(students)
    {
      o := Checked(resp, "Failed to delete student");
      if o == Done {
        students := RemoveWhere(students, StudentKey, id);
      }
    }

    /** `fetchStudents`: an OK answer replaces the list; any failure is swallowed. */
    method FetchStudents(resp: Response<seq<Student>>)
      modifies this`students
      ensures students == if resp.Reply? && Ok(resp.status) then resp.body else old(students)
    {
      if resp.Reply? && Ok(resp.status) {
        students := resp.body;
      }
    }

    /**
     * `addAttendanceLog`: a 409 answer is ignored without error; any other
     * failure rethrows; an OK answer puts the created record first, keeping
     * at most 100 entries, the rest in their previous order.
     */
    method AddAttendanceLog(resp: Response<AttendanceLog>) returns (o: Outcome)
      modifies this`attendanceLogs
      ensures resp.Reply? && resp.status == 409 ==> o == Done && attendanceLogs == old(attendanceLogs)
      ensures !(resp.Reply? && resp.status == 409) ==> o == Checked(resp, "Failed to add attendance log")
      ensures attendanceLogs == if resp.Reply? && Ok(resp.status)
                                then PrependCapped(resp.body, old(attendanceLogs), AttendanceCap)
                                else old(attendanceLogs)
    {
      if resp.Reply? && resp.status == 409 {
        return Done;
      }
      o := Checked(resp, "Failed to add attendance log");
      if o == Done {
        attendanceLogs := PrependCapped(resp.body, attendanceLogs, AttendanceCap);
      }
    }

    /** `fetchAttendanceLogs`: an OK answer replaces the list; any failure is swallowed. */
    method FetchAttendanceLogs(resp: Response<seq<AttendanceLog>>)
      modifies this`attendanceLogs
      ensures attendanceLogs == if resp.Reply? && Ok(resp.status) then resp.body else old(attendanceLogs)
    {
      if resp.Reply? && Ok(resp.status) {
        attendanceLogs := resp.body;
      }
    }

    /** `deleteAttendanceLog`: after an OK answer every entry with the id leaves the list. */
    method DeleteAttendanceLog(id: string, resp: Response<()>) returns (o: Outcome)
      modifies this`attendanceLogs
      ensures o == Checked(resp, "Failed to delete attendance log")
      ensures attendanceLogs == if o == Done then RemoveWhere(old(attendanceLogs), LogKey, id) else old(attendanceLogs)
    {
      o := Checked(resp, "Failed to delete attendance log");
      if o == Done {
        attendanceLogs := RemoveWhere(attendanceLogs, LogKey, id);
      }
    }

    /** `deleteAllAttendanceLogs`: after an OK answer the list is empty. */
    method DeleteAllAttendanceLogs(resp: Response<()>) returns (o: Outcome)
      modifies this`attendanceLogs
      ensures o == Checked(resp, "Failed to delete all attendance logs")
      ensures attendanceLogs == if o == Done then [] else old(attendanceLogs)
    {
      o := Checked(resp, "Failed to delete all attendance logs");
      if o == Done {
        attendanceLogs := [];
      }
    }

    /**
     * `addSerialLog`: a new entry, of type 'INFO' unless one is given, goes
     * first, keeping at most 500. The id and the clock are parameters.
     */
    method AddSerialLog(message: string, kind: Option<string>, id: string, now: int)
      requires Valid()
      modifies this`serialLogs
      ensures Valid()
      ensures serialLogs == PrependCapped(SerialLog(id, message, kind.GetOr("INFO"), now), old(serialLogs), SerialCap)
    {
      serialLogs := PrependCapped(SerialLog(id, message, kind.GetOr("INFO"), now), serialLogs, SerialCap);
    }

    /** `clearSerialLogs` */
    method ClearSerialLogs()
      requires Valid()
      modifies this`serialLogs
      ensures Valid() && serialLogs == []
    {
      serialLogs := [];
    }
  }
}
