/**
 * app/api/prodi/route.ts: listing the study programmes by name and
 * creating one. The code is unique in the table (the route looks it up with
 * `findUnique`), so an insert whose code already exists fails the table's
 * constraint and answers 500.
 */
module ProdiRoute {
  import opened Wrappers
  import opened Strings
  import opened Records
  import opened Sorting
  import opened Database

  /** The fields of a POST body; each may be missing. */
  datatype ProdiBody = ProdiBody(code: Option<string>, name: Option<string>, faculty: Option<string>)

  predicate Complete(body: ProdiBody) {
    Present(body.code) && Present(body.name)
  }

  predicate CodeTaken(rows: seq<Prodi>, code: string) {
    exists i | 0 <= i < |rows| :: rows[i].code == code
  }

  /** The programme a POST creates: the code upper-cased, the faculty or null. */
  function NewProdi(body: ProdiBody, id: string): (p: Prodi)
    requires Complete(body)
    ensures p.id == id && p.name == body.name.value && p.faculty == OrNull(body.faculty)
    ensures p.code == ToUpper(body.code.value)
    ensures |p.code| == |body.code.value|
    ensures forall k | 0 <= k < |p.code| :: !IsLowerAscii(p.code[k])
  {
    Prodi(id, ToUpper(body.code.value), body.name.value, OrNull(body.faculty))
  }

  /** Where a POST ends. */
  datatype Decision = MissingField | DuplicateCode | ConstraintViolation | Create

  /**
   * The chain as written: a missing field, then a code equal to the one
   * submitted, compared before upper-casing; then the insert of the
   * upper-cased code, which the table refuses when that code exists.
   */
  function Decide(rows: seq<Prodi>, body: ProdiBody): (d: Decision)
    ensures d == MissingField <==> !Complete(body)
    ensures d == DuplicateCode <==> Complete(body) && CodeTaken(rows, body.code.value)
    ensures d == ConstraintViolation <==>
      Complete(body) && !CodeTaken(rows, body.code.value) && CodeTaken(rows, ToUpper(body.code.value))
    ensures d == Create <==>
      Complete(body) && !CodeTaken(rows, body.code.value) && !CodeTaken(rows, ToUpper(body.code.value))
  {
    if !Complete(body) then MissingField
    else if CodeTaken(rows, body.code.value) then DuplicateCode
    else if CodeTaken(rows, ToUpper(body.code.value)) then ConstraintViolation
    else Create
  }

  /**
   * As written, a lower-case variant of a stored code passes the duplicate
   * check and reaches the insert, which fails: "ti" against a stored "TI"
   * answers 500 instead of 409.
   */
  lemma LowerCaseVariantFails()
    ensures Decide([Prodi("1", "TI", "Teknik Informatika", None)],
                   ProdiBody(Some("ti"), Some("Teknik Informatika"), None)) == ConstraintViolation
  {
    var rows := [Prodi("1", "TI", "Teknik Informatika", None)];
    assert UpperChar('t') == 'T' && UpperChar('i') == 'I';
    assert ToUpper("ti") == "TI";
    assert rows[0].code == "TI" != "ti";
  }

  /** The check meant: the submitted code compared in the form it is stored in. */
  function DecideIntended(rows: seq<Prodi>, body: ProdiBody): (d: Decision)
    ensures d == MissingField <==> !Complete(body)
    ensures d == DuplicateCode <==> Complete(body) && CodeTaken(rows, ToUpper(body.code.value))
    ensures d != ConstraintViolation
  {
    if !Complete(body) then MissingField
    else if CodeTaken(rows, ToUpper(body.code.value)) then DuplicateCode
    else Create
  }

  /** No two programmes share a code. */
  predicate UniqueCodes(rows: seq<Prodi>) {
    forall i, j | 0 <= i < j < |rows| :: rows[i].code != rows[j].code
  }

  /**
   * With the intended check, every code that reaches the insert is new, so
   * the table's constraint never fires and codes stay unique.
   */
  lemma IntendedCreateKeepsCodesUnique(rows: seq<Prodi>, body: ProdiBody, id: string)
    requires UniqueCodes(rows) && DecideIntended(rows, body) == Create
    ensures !CodeTaken(rows, NewProdi(body, id).code)
    ensures UniqueCodes(rows + [NewProdi(body, id)])
  {
    var r := rows + [NewProdi(body, id)];
    forall i, j | 0 <= i < j < |r| ensures r[i].code != r[j].code {
      assert r[i] == rows[i];
      if j < |rows| {
        assert r[j] == rows[j];
      }
    }
  }

  /** Both checks agree on codes submitted upper-case, the only ones the table holds after this route. */
  lemma ChecksAgreeOnUpperCase(rows: seq<Prodi>, body: ProdiBody)
    requires Complete(body) && ToUpper(body.code.value) == body.code.value
    ensures Decide(rows, body) == DecideIntended(rows, body)
  {
  }

  /**
   * POST: the decision as written; 201 with the new programme, 409, 400, or
   * 500 when the query or the insert fails.
   */
  method Post(db: Tables, body: ProdiBody, id: string, dbFails: bool) returns (reply: Reply<Prodi>)
    modifies db`prodi
    ensures Decide(old(db.prodi), body) == MissingField ==>
      reply == ErrorReply(400, "Code and name are required") && db.prodi == old(db.prodi)
    ensures Decide(old(db.prodi), body) != MissingField && dbFails ==>
      reply == ErrorReply(500, "Failed to create program studi") && db.prodi == old(db.prodi)
    ensures Decide(old(db.prodi), body) == DuplicateCode && !dbFails ==>
      reply == ErrorReply(409, "Program studi with this code already exists") && db.prodi == old(db.prodi)
    ensures Decide(old(db.prodi), body) == ConstraintViolation && !dbFails ==>
      reply == ErrorReply(500, "Failed to create program studi") && db.prodi == old(db.prodi)
    ensures Decide(old(db.prodi), body) == Create && !dbFails ==>
      reply == Json(201, NewProdi(body, id)) && db.prodi == old(db.prodi) + [NewProdi(body, id)]
  {
    if !Complete(body) {
      return ErrorReply(400, "Code and name are required");
    }
    if dbFails {
      return ErrorReply(500, "Failed to create program studi");
    }
    if CodeTaken(db.prodi, body.code.value) {
      return ErrorReply(409, "Program studi with this code already exists");
    }
    var created := NewProdi(body, id);
    if CodeTaken(db.prodi, created.code) {
      return ErrorReply(500, "Failed to create program studi");
    }
    db.prodi := db.prodi + [created];
    reply := Json(201, created);
  }

  /** `orderBy: { name: 'asc' }` */
  function NameOrder(a: Prodi, b: Prodi): bool {
    LexLe(a.name, b.name)
  }

  lemma NameOrderIsTotal()
    ensures TotalPreorder(NameOrder)
  {
    forall a: Prodi, b: Prodi ensures NameOrder(a, b) || NameOrder(b, a) {
      LexTotal(a.name, b.name);
    }
    forall a: Prodi, b: Prodi, c: Prodi | NameOrder(a, b) && NameOrder(b, c) ensures NameOrder(a, c) {
      LexTransitive(a.name, b.name, c.name);
    }
  }

  /** Every programme, by name. */
  function ByName(rows: seq<Prodi>): (r: seq<Prodi>)
    ensures Sorted(r, NameOrder)
    ensures multiset(r) == multiset(rows)
  {
    NameOrderIsTotal();
    SortBySorted(rows, NameOrder);
    SortBy(rows, NameOrder)
  }

  /** GET: every programme ordered by name, or 500 when the query fails. */
  method Get(db: Tables, dbFails: bool) returns (reply: Reply<seq<Prodi>>)
    ensures dbFails ==> reply == ErrorReply(500, "Failed to fetch program studi")
    ensures !dbFails ==> reply == Json(200, ByName(db.prodi))
  {
    if dbFails {
      return ErrorReply(500, "Failed to fetch program studi");
    }
    reply := Json(200, ByName(db.prodi));
  }
}
