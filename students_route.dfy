/**
 * app/api/students/route.ts: listing the students, newest first, and
 * registering one after the required-field check and the NIS and UID
 * uniqueness checks, in that order.
 */
module StudentsRoute {
  import opened Wrappers
  import opened Records
  import opened Sorting
  import opened Database

  /** The fields of a POST body; each may be missing. */
  datatype StudentBody = StudentBody(name: Option<string>, kelas: Option<string>, nis: Option<string>,
                                     uid: Option<string>, prodiId: Option<string>)

  predicate Complete(body: StudentBody) {
    Present(body.name) && Present(body.kelas) && Present(body.nis) && Present(body.uid)
  }

  predicate NisTaken(rows: seq<Student>, nis: string) {
    exists i | 0 <= i < |rows| :: rows[i].nis == nis
  }

  predicate UidTaken(rows: seq<Student>, uid: string) {
    exists i | 0 <= i < |rows| :: rows[i].uid == uid
  }

  /** Where the POST's early-return chain ends. */
  datatype Decision = MissingField | DuplicateNis | DuplicateUid | Create

  /**
   * The chain: a missing field first, then a taken NIS, then a taken UID; a
   * body that passes all three is created. A body whose NIS and UID are
   * both taken is answered as a duplicate NIS.
   */
  function Decide(rows: seq<Student>, body: StudentBody): (d: Decision)
    ensures d == MissingField <==> !Complete(body)
    ensures d == DuplicateNis <==> Complete(body) && NisTaken(rows, body.nis.value)
    ensures d == DuplicateUid <==> Complete(body) && !NisTaken(rows, body.nis.value) && UidTaken(rows, body.uid.value)
    ensures d == Create <==> Complete(body) && !NisTaken(rows, body.nis.value) && !UidTaken(rows, body.uid.value)
  {
    if !Complete(body) then MissingField
    else if NisTaken(rows, body.nis.value) then DuplicateNis
    else if UidTaken(rows, body.uid.value) then DuplicateUid
    else Create
  }

  /** The student a POST creates: the given fields, the programme or null; id and creation time from the database. */
  function NewStudent(body: StudentBody, id: string, now: int): (s: Student)
    requires Complete(body)
    ensures s.id == id && s.createdAt == now
    ensures s.name == body.name.value && s.kelas == body.kelas.value
    ensures s.nis == body.nis.value && s.uid == body.uid.value
    ensures s.prodiId == OrNull(body.prodiId)
  {
    Student(id, body.name.value, body.kelas.value, body.nis.value, body.uid.value, OrNull(body.prodiId), now)
  }

  /** No two students share a NIS or a UID. */
  predicate UniqueKeys(rows: seq<Student>) {
    forall i, j | 0 <= i < j < |rows| :: rows[i].nis != rows[j].nis && rows[i].uid != rows[j].uid
  }

  /** A student the chain lets through keeps NIS and UID unique. */
  lemma CreateKeepsKeysUnique(rows: seq<Student>, body: StudentBody, id: string, now: int)
    requires UniqueKeys(rows) && Decide(rows, body) == Create
    ensures UniqueKeys(rows + [NewStudent(body, id, now)])
  {
    var s := NewStudent(body, id, now);
    var r := rows + [s];
    forall i, j | 0 <= i < j < |r| ensures r[i].nis != r[j].nis && r[i].uid != r[j].uid {
      if j == |rows| {
        assert r[i] == rows[i];
        assert rows[i].nis != body.nis.value;
        assert rows[i].uid != body.uid.value;
      } else {
        assert r[i] == rows[i] && r[j] == rows[j];
      }
    }
  }

  /**
   * POST: 400, 409 for a taken NIS, 409 for a taken UID, or one new student
   * and 201. A failing query answers 500 and creates nothing. Whatever the
   * answer, NIS and UID stay unique.
   */
  method Post(db: Tables, body: StudentBody, id: string, now: int, dbFails: bool) returns (reply: Reply<Student>)
    modifies db`students
    ensures Decide(old(db.students), body) == MissingField ==>
      reply == ErrorReply(400, "Name, class, NIS, and UID are required") && db.students == old(db.students)
    ensures Decide(old(db.students), body) != MissingField && dbFails ==>
      reply == ErrorReply(500, "Failed to create student") && db.students == old(db.students)
    ensures Decide(old(db.students), body) == DuplicateNis && !dbFails ==>
      reply == ErrorReply(409, "Student with this NIS already exists") && db.students == old(db.students)
    ensures Decide(old(db.students), body) == DuplicateUid && !dbFails ==>
      reply == ErrorReply(409, "This KTM UID is already registered") && db.students == old(db.students)
    ensures Decide(old(db.students), body) == Create && !dbFails ==>
      reply == Json(201, NewStudent(body, id, now)) && db.students == old(db.students) + [NewStudent(body, id, now)]
    ensures UniqueKeys(old(db.students)) ==> UniqueKeys(db.students)
  {
    if !Complete(body) {
      return ErrorReply(400, "Name, class, NIS, and UID are required");
    }
    if dbFails {
      return ErrorReply(500, "Failed to create student");
    }
    if NisTaken(db.students, body.nis.value) {
      return ErrorReply(409, "Student with this NIS already exists");
    }
    if UidTaken(db.students, body.uid.value) {
      return ErrorReply(409, "This KTM UID is already registered");
    }
    var student := NewStudent(body, id, now);
    if UniqueKeys(db.students) {
      CreateKeepsKeysUnique(db.students, body, id, now);
    }
    db.students := db.students + [student];
    reply := Json(201, student);
  }

  /** `orderBy: { createdAt: 'desc' }` */
  function NewerFirst(a: Student, b: Student): bool {
    a.createdAt >= b.createdAt
  }

  /** Every student, newest first. */
  function ByNewest(rows: seq<Student>): (r: seq<Student>)
    ensures Sorted(r, NewerFirst)
    ensures multiset(r) == multiset(rows)
  {
    assert TotalPreorder(NewerFirst);
    SortBySorted(rows, NewerFirst);
    SortBy(rows, NewerFirst)
  }

  /** GET: every student, newest first, or 500 when the query fails. */
  method Get(db: Tables, dbFails: bool) returns (reply: Reply<seq<Student>>)
    ensures dbFails ==> reply == ErrorReply(500, "Failed to fetch students")
    ensures !dbFails ==> reply == Json(200, ByNewest(db.students))
  {
    if dbFails {
      return ErrorReply(500, "Failed to fetch students");
    }
    reply := Json(200, ByNewest(db.students));
  }
}
