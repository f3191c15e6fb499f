/**
 * The device line decoder and the card-id canonicaliser of lib/utils.ts.
 *
 * `Parse` is `parseSerialMessage` as the code has it. The decoder is written
 * once, as `ParseWith`, over the two offsets at which the student-list and
 * student-added payloads are read: the code reads them at 10 and 16, inside
 * their 14- and 20-character tags, so the decoded name keeps the tag's tail
 * (`swa:` and `DED:`). `ParseIntended` reads them after the tag.
 */
module Utils {
  import opened Wrappers
  import opened Strings

  // ---------------------------------------------------------------- formatUID

  /** `formatUID`: upper-case the id and drop every whitespace character. */
  function FormatUid(uid: string): (r: string)
    ensures forall k | 0 <= k < |r| :: !IsWhitespace(r[k]) && !IsLowerAscii(r[k])
  {
    var r := RemoveWhitespace(ToUpper(uid));
    UpperThenRemove(uid);
    r
  }

  lemma {:induction false} UpperThenRemove(s: string)
    ensures forall k | 0 <= k < |RemoveWhitespace(ToUpper(s))| :: !IsLowerAscii(RemoveWhitespace(ToUpper(s))[k])
    ensures RemoveWhitespace(ToUpper(s)) == ToUpper(RemoveWhitespace(s))
  {
    if |s| > 0 {
      UpperThenRemove(s[1..]);
      assert ToUpper(s)[1..] == ToUpper(s[1..]);
      if !IsWhitespace(s[0]) {
        assert ToUpper([s[0]] + RemoveWhitespace(s[1..])) == [UpperChar(s[0])] + ToUpper(RemoveWhitespace(s[1..]));
      }
    }
  }

  lemma {:induction false} RemoveWhitespaceOfClean(s: string)
    requires forall k | 0 <= k < |s| :: !IsWhitespace(s[k])
    ensures RemoveWhitespace(s) == s
  {
    if |s| > 0 {
      RemoveWhitespaceOfClean(s[1..]);
      assert [s[0]] + s[1..] == s;
    }
  }

  lemma {:induction false} ToUpperOfUpper(s: string)
    requires forall k | 0 <= k < |s| :: !IsLowerAscii(s[k])
    ensures ToUpper(s) == s
  {
    if |s| > 0 {
      ToUpperOfUpper(s[1..]);
      assert [s[0]] + s[1..] == s;
    }
  }

  /** Canonicalising a canonical id changes nothing. */
  lemma FormatUidIdempotent(uid: string)
    ensures FormatUid(FormatUid(uid)) == FormatUid(uid)
  {
    var c := FormatUid(uid);
    ToUpperOfUpper(c);
    RemoveWhitespaceOfClean(c);
  }

  /** Canonicalising works piece by piece: the id's parts are canonicalised in place and in order. */
  lemma FormatUidAppend(a: string, b: string)
    ensures FormatUid(a + b) == FormatUid(a) + FormatUid(b)
  {
    var ua, ub := ToUpper(a), ToUpper(b);
    var u := ToUpper(a + b);
    assert u == ua + ub by {
      forall k | 0 <= k < |u| ensures u[k] == (ua + ub)[k] {
        if k < |a| {
          assert (a + b)[k] == a[k];
        } else {
          assert (a + b)[k] == b[k - |a|];
        }
      }
    }
    RemoveAppend(ua, ub);
    assert FormatUid(a + b) == RemoveWhitespace(u);
  }

  /**
   * One character: whitespace is dropped, anything else is kept upper-cased.
   * With `FormatUidAppend` this fixes the canonical form of every id.
   */
  lemma FormatUidChar(c: char)
    ensures FormatUid([c]) == if IsWhitespace(c) then "" else [UpperChar(c)]
  {
    assert ToUpper([c]) == [UpperChar(c)];
    assert [UpperChar(c)][1..] == "";
  }

  /** Ids that differ only in letter case canonicalise to the same string. */
  lemma {:induction false} FormatUidIgnoresCase(a: string, b: string)
    requires |a| == |b|
    requires forall k | 0 <= k < |a| :: UpperChar(a[k]) == UpperChar(b[k])
    ensures FormatUid(a) == FormatUid(b)
  {
    assert ToUpper(a) == ToUpper(b);
  }

  /** Whitespace inserted anywhere in an id does not change its canonical form. */
  lemma {:induction false} FormatUidIgnoresWhitespace(a: string, w: string, b: string)
    requires forall k | 0 <= k < |w| :: IsWhitespace(w[k])
    ensures FormatUid(a + w + b) == FormatUid(a + b)
  {
    RemoveAppend(a + w, b);
    RemoveAppend(a, w);
    RemoveOfWhitespace(w);
    RemoveAppend(a, b);
    assert RemoveWhitespace(a + w + b) == RemoveWhitespace(a + b);
    UpperThenRemove(a + w + b);
    UpperThenRemove(a + b);
  }

  lemma {:induction false} RemoveAppend(a: string, b: string)
    ensures RemoveWhitespace(a + b) == RemoveWhitespace(a) + RemoveWhitespace(b)
  {
    if |a| > 0 {
      RemoveAppend(a[1..], b);
      assert (a + b)[1..] == a[1..] + b;
    } else {
      assert a + b == b;
    }
  }

  lemma {:induction false} RemoveOfWhitespace(w: string)
    requires forall k | 0 <= k < |w| :: IsWhitespace(w[k])
    ensures RemoveWhitespace(w) == ""
  {
    if |w| > 0 {
      RemoveOfWhitespace(w[1..]);
    }
  }

  // ------------------------------------------------------------- messages

  /**
   * The `{name, class, nis}` payload of the STATUS, STUDENT_ADDED and
   * ACTIVE_STUDENT_SET messages; a comma field the line lacks is `undefined`.
   */
  datatype StudentFields = StudentFields(name: string, kelas: Option<string>, nis: Option<string>)

  /**
   * The `{type, data}` objects the decoder returns, one constructor per shape
   * of `data`. `Attendance` is the type the scan dispatch handles; no decoder
   * rule produces it.
   */
  datatype Message =
    | RfidScan(uid: string)
    | Info(text: string)
    | Error(text: string)
    | MasterSet(uid: string)
    | ActiveStatus(activeStudent: Option<StudentFields>)
    | MasterCardStatus(masterCard: string)
    | StudentList(name: string, kelas: string, nis: string, uid: string)
    | StudentAdded(student: StudentFields, uid: string)
    | ActiveStudentSet(student: StudentFields)
    | Attendance(uid: string)

  /** The `type` string of a message. */
  function TypeName(m: Message): string {
    match m
    case RfidScan(_) => "RFID_SCAN"
    case Info(_) => "INFO"
    case Error(_) => "ERROR"
    case MasterSet(_) => "MASTER_SET"
    case ActiveStatus(_) => "STATUS"
    case MasterCardStatus(_) => "STATUS"
    case StudentList(_, _, _, _) => "STUDENT_LIST"
    case StudentAdded(_, _) => "STUDENT_ADDED"
    case ActiveStudentSet(_) => "ACTIVE_STUDENT_SET"
    case Attendance(_) => "ATTENDANCE"
  }

  // The line tags, in the order the decoder tries them.
  const RfidScanTag := "RFID_SCAN:"
  const WebOkTag := "WEB_OK:"
  const WebErrorTag := "WEB_ERROR:"
  const WebMasterSetTag := "WEB_MASTER_SET:"
  const ActiveStudentTag := "ACTIVE_STUDENT:"
  const MasterCardTag := "MASTER_CARD:"
  const StudentListTag := "WEB_Mahasiswa:"
  const StudentAddedTag := "WEB_Mahasiswa_ADDED:"
  const ActiveSetTag := "WEB_ACTIVE_SET:"

  predicate HasAnyTag(line: string) {
    || StartsWith(line, RfidScanTag) || StartsWith(line, WebOkTag) || StartsWith(line, WebErrorTag)
    || StartsWith(line, WebMasterSetTag) || StartsWith(line, ActiveStudentTag) || StartsWith(line, MasterCardTag)
    || StartsWith(line, StudentListTag) || StartsWith(line, StudentAddedTag) || StartsWith(line, ActiveSetTag)
  }

  /** `parts[i]`, which is `undefined` past the end of the array. */
  function Field(parts: seq<string>, i: nat): Option<string> {
    if i < |parts| then Some(parts[i]) else None
  }

  /** `parts[3] || ''`. */
  function UidField(parts: seq<string>): string {
    if |parts| > 3 then parts[3] else ""
  }

  /** The `{name, class, nis}` record read from the first three comma fields. */
  function StudentOf(parts: seq<string>): StudentFields
    requires |parts| >= 1
  {
    StudentFields(parts[0], Field(parts, 1), Field(parts, 2))
  }

  /** The comma fields of a payload read from offset `n` of the line. */
  function PayloadFields(line: string, n: nat): seq<string> {
    Split(Trim(Substring(line, n)), ',')
  }

  /**
   * `parseSerialMessage` with the student-list payload read from `listOffset`
   * and the student-added payload from `addedOffset`. The first tag that
   * starts the line decides; a student-list line with fewer than three fields
   * falls through the remaining tags, none of which it can match.
   */
  function ParseWith(line: string, listOffset: nat, addedOffset: nat): (r: Option<Message>)
    ensures r.Some? ==> HasAnyTag(line) && !r.value.Attendance?
  {
    if StartsWith(line, RfidScanTag) then Some(RfidScan(Trim(Substring(line, 10))))
    else if StartsWith(line, WebOkTag) then Some(Info(Trim(Substring(line, 7))))
    else if StartsWith(line, WebErrorTag) then Some(Error(Trim(Substring(line, 10))))
    else if StartsWith(line, WebMasterSetTag) then Some(MasterSet(Trim(Substring(line, 15))))
    else if StartsWith(line, ActiveStudentTag) then
      var data := Trim(Substring(line, 15));
      if data == "NONE" then Some(ActiveStatus(None))
      else
        var parts := Split(data, ',');
        Some(ActiveStatus(Some(StudentOf(parts))))
    else if StartsWith(line, MasterCardTag) then Some(MasterCardStatus(Trim(Substring(line, 12))))
    else if StartsWith(line, StudentListTag) && |PayloadFields(line, listOffset)| >= 3 then
      var parts := PayloadFields(line, listOffset);
      Some(StudentList(parts[0], parts[1], parts[2], UidField(parts)))
    else if StartsWith(line, StudentAddedTag) then
      var parts := PayloadFields(line, addedOffset);
      Some(StudentAdded(StudentOf(parts), UidField(parts)))
    else if StartsWith(line, ActiveSetTag) then
      var parts := PayloadFields(line, 15);
      Some(ActiveStudentSet(StudentOf(parts)))
    else None
  }

  /** `parseSerialMessage` as written. */
  function Parse(line: string): Option<Message> {
    ParseWith(line, 10, 16)
  }

  /** The decoder with both student payloads read right after their tags. */
  function ParseIntended(line: string): Option<Message> {
    ParseWith(line, |StudentListTag|, |StudentAddedTag|)
  }

  // ------------------------------------------------- which tag decides

  // Each lemma below says that a line built from a tag is not taken by any
  // tag the decoder tries before it.

  lemma WebOkTagWins(body: string)
    ensures !StartsWith(WebOkTag + body, RfidScanTag)
  {
    DistinctTags(WebOkTag, RfidScanTag, body, 0);
  }

  lemma WebErrorTagWins(body: string)
    ensures !StartsWith(WebErrorTag + body, RfidScanTag)
    ensures !StartsWith(WebErrorTag + body, WebOkTag)
  {
    DistinctTags(WebErrorTag, RfidScanTag, body, 0);
    DistinctTags(WebErrorTag, WebOkTag, body, 4);
  }

  lemma WebMasterSetTagWins(body: string)
    ensures !StartsWith(WebMasterSetTag + body, RfidScanTag)
    ensures !StartsWith(WebMasterSetTag + body, WebOkTag)
    ensures !StartsWith(WebMasterSetTag + body, WebErrorTag)
  {
    DistinctTags(WebMasterSetTag, RfidScanTag, body, 0);
    DistinctTags(WebMasterSetTag, WebOkTag, body, 4);
    DistinctTags(WebMasterSetTag, WebErrorTag, body, 4);
  }

  lemma ActiveStudentTagWins(body: string)
    ensures !StartsWith(ActiveStudentTag + body, RfidScanTag)
    ensures !StartsWith(ActiveStudentTag + body, WebOkTag)
    ensures !StartsWith(ActiveStudentTag + body, WebErrorTag)
    ensures !StartsWith(ActiveStudentTag + body, WebMasterSetTag)
  {
    DistinctTags(ActiveStudentTag, RfidScanTag, body, 0);
    DistinctTags(ActiveStudentTag, WebOkTag, body, 0);
    DistinctTags(ActiveStudentTag, WebErrorTag, body, 0);
    DistinctTags(ActiveStudentTag, WebMasterSetTag, body, 0);
  }

  lemma MasterCardTagWins(body: string)
    ensures !StartsWith(MasterCardTag + body, RfidScanTag)
    ensures !StartsWith(MasterCardTag + body, WebOkTag)
    ensures !StartsWith(MasterCardTag + body, WebErrorTag)
    ensures !StartsWith(MasterCardTag + body, WebMasterSetTag)
    ensures !StartsWith(MasterCardTag + body, ActiveStudentTag)
  {
    DistinctTags(MasterCardTag, RfidScanTag, body, 0);
    DistinctTags(MasterCardTag, WebOkTag, body, 0);
    DistinctTags(MasterCardTag, WebErrorTag, body, 0);
    DistinctTags(MasterCardTag, WebMasterSetTag, body, 0);
    DistinctTags(MasterCardTag, ActiveStudentTag, body, 0);
  }

  /** A student-list line also matches neither of the tags tried after it. */
  lemma StudentListTagWins(body: string)
    ensures !StartsWith(StudentListTag + body, RfidScanTag)
    ensures !StartsWith(StudentListTag + body, WebOkTag)
    ensures !StartsWith(StudentListTag + body, WebErrorTag)
    ensures !StartsWith(StudentListTag + body, WebMasterSetTag)
    ensures !StartsWith(StudentListTag + body, ActiveStudentTag)
    ensures !StartsWith(StudentListTag + body, MasterCardTag)
    ensures !StartsWith(StudentListTag + body, StudentAddedTag)
    ensures !StartsWith(StudentListTag + body, ActiveSetTag)
  {
    DistinctTags(StudentListTag, RfidScanTag, body, 0);
    DistinctTags(StudentListTag, WebOkTag, body, 4);
    DistinctTags(StudentListTag, WebErrorTag, body, 4);
    DistinctTags(StudentListTag, WebMasterSetTag, body, 5);
    DistinctTags(StudentListTag, ActiveStudentTag, body, 0);
    DistinctTags(StudentListTag, MasterCardTag, body, 0);
    DistinctTags(StudentListTag, StudentAddedTag, body, 13);
    DistinctTags(StudentListTag, ActiveSetTag, body, 4);
  }

  lemma StudentAddedTagWins(body: string)
    ensures !StartsWith(StudentAddedTag + body, RfidScanTag)
    ensures !StartsWith(StudentAddedTag + body, WebOkTag)
    ensures !StartsWith(StudentAddedTag + body, WebErrorTag)
    ensures !StartsWith(StudentAddedTag + body, WebMasterSetTag)
    ensures !StartsWith(StudentAddedTag + body, ActiveStudentTag)
    ensures !StartsWith(StudentAddedTag + body, MasterCardTag)
    ensures !StartsWith(StudentAddedTag + body, StudentListTag)
  {
    DistinctTags(StudentAddedTag, RfidScanTag, body, 0);
    DistinctTags(StudentAddedTag, WebOkTag, body, 4);
    DistinctTags(StudentAddedTag, WebErrorTag, body, 4);
    DistinctTags(StudentAddedTag, WebMasterSetTag, body, 5);
    DistinctTags(StudentAddedTag, ActiveStudentTag, body, 0);
    DistinctTags(StudentAddedTag, MasterCardTag, body, 0);
    DistinctTags(StudentAddedTag, StudentListTag, body, 13);
  }

  lemma ActiveSetTagWins(body: string)
    ensures !StartsWith(ActiveSetTag + body, RfidScanTag)
    ensures !StartsWith(ActiveSetTag + body, WebOkTag)
    ensures !StartsWith(ActiveSetTag + body, WebErrorTag)
    ensures !StartsWith(ActiveSetTag + body, WebMasterSetTag)
    ensures !StartsWith(ActiveSetTag + body, ActiveStudentTag)
    ensures !StartsWith(ActiveSetTag + body, MasterCardTag)
    ensures !StartsWith(ActiveSetTag + body, StudentListTag)
    ensures !StartsWith(ActiveSetTag + body, StudentAddedTag)
  {
    DistinctTags(ActiveSetTag, RfidScanTag, body, 0);
    DistinctTags(ActiveSetTag, WebOkTag, body, 4);
    DistinctTags(ActiveSetTag, WebErrorTag, body, 4);
    DistinctTags(ActiveSetTag, WebMasterSetTag, body, 4);
    DistinctTags(ActiveSetTag, ActiveStudentTag, body, 0);
    DistinctTags(ActiveSetTag, MasterCardTag, body, 0);
    DistinctTags(ActiveSetTag, StudentListTag, body, 4);
    DistinctTags(ActiveSetTag, StudentAddedTag, body, 4);
  }

  // ------------------------------------------------- what each rule decodes

  /** A scan line yields its trimmed remainder as the uid, letter case untouched. */
  lemma RfidScanLine(line: string)
    requires StartsWith(line, RfidScanTag)
    ensures Parse(line) == Some(RfidScan(Trim(Substring(line, 10))))
  {
    StartsWithSplits(line, RfidScanTag);
  }

  /** WEB_OK, WEB_ERROR and WEB_MASTER_SET carry the trimmed text after their tags. */
  lemma ScalarLines(line: string)
    ensures StartsWith(line, WebOkTag) ==> Parse(line) == Some(Info(Trim(Substring(line, 7))))
    ensures StartsWith(line, WebErrorTag) ==> Parse(line) == Some(Error(Trim(Substring(line, 10))))
    ensures StartsWith(line, WebMasterSetTag) ==> Parse(line) == Some(MasterSet(Trim(Substring(line, 15))))
  {
    if StartsWith(line, WebOkTag) {
      StartsWithSplits(line, WebOkTag);
      WebOkTagWins(line[7..]);
    }
    if StartsWith(line, WebErrorTag) {
      StartsWithSplits(line, WebErrorTag);
      WebErrorTagWins(Substring(line, 10));
    }
    if StartsWith(line, WebMasterSetTag) {
      StartsWithSplits(line, WebMasterSetTag);
      WebMasterSetTagWins(Substring(line, 15));
    }
  }

  /** ACTIVE_STUDENT: `NONE` means no active student; otherwise the first three comma fields. */
  lemma ActiveStudentLine(line: string)
    requires StartsWith(line, ActiveStudentTag)
    ensures var data := Trim(Substring(line, 15));
      var parts := Split(data, ',');
      Parse(line) == if data == "NONE" then Some(ActiveStatus(None))
        else Some(ActiveStatus(Some(StudentOf(parts))))
  {
    StartsWithSplits(line, ActiveStudentTag);
    ActiveStudentTagWins(Substring(line, 15));
  }

  /** MASTER_CARD also yields a STATUS message, carrying the trimmed card id. */
  lemma MasterCardLine(line: string)
    requires StartsWith(line, MasterCardTag)
    ensures Parse(line) == Some(MasterCardStatus(Trim(Substring(line, 12))))
  {
    StartsWithSplits(line, MasterCardTag);
    MasterCardTagWins(Substring(line, 12));
  }

  /**
   * A student-list line is read from offset 10, inside its 14-character tag,
   * so the name starts with `swa:`; fewer than three fields decode to nothing.
   */
  lemma StudentListLine(line: string)
    requires StartsWith(line, StudentListTag)
    ensures var parts := Split(Trim(Substring(line, 10)), ',');
      Parse(line) == if |parts| >= 3 then Some(StudentList(parts[0], parts[1], parts[2], UidField(parts))) else None
  {
    StartsWithSplits(line, StudentListTag);
    StudentListTagWins(Substring(line, 14));
  }

  /**
   * A student-added line always decodes; it is read from offset 16, inside
   * its 20-character tag, so the name starts with `DED:`.
   */
  lemma StudentAddedLine(line: string)
    requires StartsWith(line, StudentAddedTag)
    ensures var parts := Split(Trim(Substring(line, 16)), ',');
      Parse(line) == Some(StudentAdded(StudentOf(parts), UidField(parts)))
  {
    StartsWithSplits(line, StudentAddedTag);
    StudentAddedTagWins(Substring(line, 20));
  }

  /** WEB_ACTIVE_SET yields name, class and nis from the payload after the tag. */
  lemma ActiveSetLine(line: string)
    requires StartsWith(line, ActiveSetTag)
    ensures var parts := Split(Trim(Substring(line, 15)), ',');
      Parse(line) == Some(ActiveStudentSet(StudentOf(parts)))
  {
    StartsWithSplits(line, ActiveSetTag);
    ActiveSetTagWins(Substring(line, 15));
  }

  /** A line that starts with none of the tags decodes to nothing. */
  lemma UntaggedLine(line: string)
    requires !HasAnyTag(line)
    ensures Parse(line) == None && ParseIntended(line) == None
  {
  }

  /**
   * The decoder yields nothing exactly for a line with no known tag and for
   * a student-list line whose payload has fewer than three comma fields.
   */
  lemma ParseNone(line: string, listOffset: nat, addedOffset: nat)
    ensures ParseWith(line, listOffset, addedOffset).None? <==>
      (!HasAnyTag(line) || (StartsWith(line, StudentListTag) && |PayloadFields(line, listOffset)| < 3))
  {
    if StartsWith(line, StudentListTag) {
      StartsWithSplits(line, StudentListTag);
      StudentListTagWins(line[14..]);
    }
  }

  // ------------------------------------------------- the device's line format

  /** The comma fields of a `{name, class, nis}` payload: a field the line lacks is not written. */
  function Fields(s: StudentFields): seq<string> {
    [s.name] + match s.kelas
      case None => []
      case Some(k) => [k] + match s.nis
        case None => []
        case Some(n) => [n]
  }

  /** The fields of a student-added payload: the uid is written only when there is one. */
  function AddedFields(s: StudentFields, uid: string): seq<string> {
    Fields(s) + if uid == "" then [] else [uid]
  }

  /** The line the device sends for a message: its tag, then the payload. */
  function Render(m: Message): string {
    match m
    case RfidScan(uid) => RfidScanTag + uid
    case Info(t) => WebOkTag + t
    case Error(t) => WebErrorTag + t
    case MasterSet(uid) => WebMasterSetTag + uid
    case ActiveStatus(None) => ActiveStudentTag + "NONE"
    case ActiveStatus(Some(s)) => ActiveStudentTag + Join(Fields(s), ',')
    case MasterCardStatus(c) => MasterCardTag + c
    case StudentList(n, k, nis, uid) => StudentListTag + Join([n, k, nis, uid], ',')
    case StudentAdded(s, uid) => StudentAddedTag + Join(AddedFields(s, uid), ',')
    case ActiveStudentSet(s) => ActiveSetTag + Join(Fields(s), ',')
    case Attendance(uid) => uid
  }

  /** A payload the decoder can take apart: comma-free fields, no whitespace at its ends. */
  predicate CleanPayload(fields: seq<string>) {
    NoneContains(fields, ',') && Trimmed(Join(fields, ','))
  }

  /** A `{name, class, nis}` record whose nis is present only when its class is. */
  predicate FieldsWellFormed(s: StudentFields) {
    s.kelas.None? ==> s.nis.None?
  }

  /**
   * The messages a line can carry: trimmed scalars, clean payloads, no
   * student record spelled `NONE`, a student-added uid only after a nis.
   * No line carries an `Attendance` message.
   */
  predicate WellFormed(m: Message) {
    match m
    case RfidScan(uid) => Trimmed(uid)
    case Info(t) => Trimmed(t)
    case Error(t) => Trimmed(t)
    case MasterSet(uid) => Trimmed(uid)
    case ActiveStatus(None) => true
    case ActiveStatus(Some(s)) => FieldsWellFormed(s) && CleanPayload(Fields(s)) && Join(Fields(s), ',') != "NONE"
    case MasterCardStatus(c) => Trimmed(c)
    case StudentList(n, k, nis, uid) => CleanPayload([n, k, nis, uid])
    case StudentAdded(s, uid) => FieldsWellFormed(s) && (uid != "" ==> s.nis.Some?) && CleanPayload(AddedFields(s, uid))
    case ActiveStudentSet(s) => FieldsWellFormed(s) && CleanPayload(Fields(s))
    case Attendance(_) => false
  }

  /**
   * What a decoder reading the student payloads from `listOffset` and
   * `addedOffset` makes of `m`: the student name gains the part of the tag
   * between the offset and the tag's end.
   */
  function Renamed(m: Message, listOffset: nat, addedOffset: nat): Message
    requires listOffset <= |StudentListTag| && addedOffset <= |StudentAddedTag|
  {
    match m
    case StudentList(n, k, nis, uid) => StudentList(StudentListTag[listOffset..] + n, k, nis, uid)
    case StudentAdded(s, uid) => StudentAdded(s.(name := StudentAddedTag[addedOffset..] + s.name), uid)
    case _ => m
  }

  predicate NoWhitespace(s: string) {
    forall k | 0 <= k < |s| :: !IsWhitespace(s[k])
  }

  lemma PayloadAfter(tag: string, body: string, n: nat)
    requires n <= |tag|
    ensures Substring(tag + body, n) == tag[n..] + body
  {
  }

  lemma {:induction false} JoinHead(pre: string, fields: seq<string>, sep: char)
    requires |fields| >= 1
    ensures pre + Join(fields, sep) == Join([pre + fields[0]] + fields[1..], sep)
  {
    var g := [pre + fields[0]] + fields[1..];
    assert g[1..] == fields[1..];
  }

  /**
   * A clean payload behind a whitespace-free, comma-free prefix splits into
   * its fields, the first carrying the prefix.
   */
  lemma PrefixedFieldsDecode(pre: string, fields: seq<string>)
    requires NoWhitespace(pre) && ',' !in pre
    requires |fields| >= 1 && CleanPayload(fields)
    ensures Split(Trim(pre + Join(fields, ',')), ',') == [pre + fields[0]] + fields[1..]
  {
    var g := [pre + fields[0]] + fields[1..];
    JoinHead(pre, fields, ',');
    var j := Join(fields, ',');
    assert Trimmed(pre + j) by {
      if |pre| > 0 && |j| == 0 {
        assert pre + j == pre;
      }
    }
    assert NoneContains(g, ',') by {
      forall i | 0 <= i < |g| ensures ',' !in g[i] {
        if i == 0 {
          assert fields[0] == fields[0];
        } else {
          assert g[i] == fields[i];
        }
      }
    }
    TrimOfTrimmed(pre + j);
    JoinSplit(g, ',');
  }

  lemma FieldsShape(s: StudentFields, uid: string)
    requires FieldsWellFormed(s)
    requires uid != "" ==> s.nis.Some?
    ensures var parts := AddedFields(s, uid);
      Field(parts, 1) == s.kelas && Field(parts, 2) == s.nis && UidField(parts) == uid
    ensures Fields(s) == AddedFields(s, "")
  {
  }

  // What the decoder makes of a line built from a tag, whatever the offsets.

  lemma ActiveStudentDecodes(body: string, listOffset: nat, addedOffset: nat)
    ensures var data := Trim(body);
      ParseWith(ActiveStudentTag + body, listOffset, addedOffset) ==
        if data == "NONE" then Some(ActiveStatus(None)) else Some(ActiveStatus(Some(StudentOf(Split(data, ',')))))
  {
    StartsWithPrefixed(ActiveStudentTag, body);
    ActiveStudentTagWins(body);
    PayloadAfter(ActiveStudentTag, body, 15);
  }

  lemma StudentListDecodes(body: string, listOffset: nat, addedOffset: nat)
    requires listOffset <= |StudentListTag|
    ensures var parts := Split(Trim(StudentListTag[listOffset..] + body), ',');
      ParseWith(StudentListTag + body, listOffset, addedOffset) ==
        if |parts| >= 3 then Some(StudentList(parts[0], parts[1], parts[2], UidField(parts))) else None
  {
    var line := StudentListTag + body;
    StartsWithPrefixed(StudentListTag, body);
    StudentListTagWins(body);
    PayloadAfter(StudentListTag, body, listOffset);
    var parts := Split(Trim(StudentListTag[listOffset..] + body), ',');
    assert PayloadFields(line, listOffset) == parts;
    if |parts| >= 3 {
      assert ParseWith(line, listOffset, addedOffset) == Some(StudentList(parts[0], parts[1], parts[2], UidField(parts)));
    } else {
      assert ParseWith(line, listOffset, addedOffset) == None;
    }
  }

  lemma StudentAddedDecodes(body: string, listOffset: nat, addedOffset: nat)
    requires addedOffset <= |StudentAddedTag|
    ensures var parts := Split(Trim(StudentAddedTag[addedOffset..] + body), ',');
      ParseWith(StudentAddedTag + body, listOffset, addedOffset) ==
        Some(StudentAdded(StudentOf(parts), UidField(parts)))
  {
    StartsWithPrefixed(StudentAddedTag, body);
    StudentAddedTagWins(body);
    PayloadAfter(StudentAddedTag, body, addedOffset);
  }

  lemma ActiveSetDecodes(body: string, listOffset: nat, addedOffset: nat)
    ensures ParseWith(ActiveSetTag + body, listOffset, addedOffset) ==
      Some(ActiveStudentSet(StudentOf(Split(Trim(body), ','))))
  {
    StartsWithPrefixed(ActiveSetTag, body);
    ActiveSetTagWins(body);
    PayloadAfter(ActiveSetTag, body, 15);
  }

  lemma ScalarRoundTrip(m: Message, listOffset: nat, addedOffset: nat)
    requires WellFormed(m) && (m.RfidScan? || m.Info? || m.Error? || m.MasterSet? || m.MasterCardStatus?)
    ensures ParseWith(Render(m), listOffset, addedOffset) == Some(m)
  {
    match m
    case RfidScan(uid) =>
      StartsWithPrefixed(RfidScanTag, uid);
      PayloadAfter(RfidScanTag, uid, 10);
      TrimOfTrimmed(uid);
    case Info(t) =>
      WebOkTagWins(t);
      StartsWithPrefixed(WebOkTag, t);
      PayloadAfter(WebOkTag, t, 7);
      TrimOfTrimmed(t);
    case Error(t) =>
      WebErrorTagWins(t);
      StartsWithPrefixed(WebErrorTag, t);
      PayloadAfter(WebErrorTag, t, 10);
      TrimOfTrimmed(t);
    case MasterSet(uid) =>
      WebMasterSetTagWins(uid);
      StartsWithPrefixed(WebMasterSetTag, uid);
      PayloadAfter(WebMasterSetTag, uid, 15);
      TrimOfTrimmed(uid);
    case MasterCardStatus(c) =>
      MasterCardTagWins(c);
      StartsWithPrefixed(MasterCardTag, c);
      PayloadAfter(MasterCardTag, c, 12);
      TrimOfTrimmed(c);
  }

  /** A well-formed `{name, class, nis}` payload reads back as the record it was written from. */
  lemma RecordDecodes(a: StudentFields)
    requires FieldsWellFormed(a) && CleanPayload(Fields(a))
    ensures Trim(Join(Fields(a), ',')) == Join(Fields(a), ',')
    ensures Split(Join(Fields(a), ','), ',') == Fields(a)
    ensures StudentOf(Fields(a)) == a
  {
    TrimOfTrimmed(Join(Fields(a), ','));
    JoinSplit(Fields(a), ',');
    FieldsShape(a, "");
  }

  lemma ActiveStatusRoundTrip(a: StudentFields, listOffset: nat, addedOffset: nat)
    requires FieldsWellFormed(a) && CleanPayload(Fields(a)) && Join(Fields(a), ',') != "NONE"
    ensures ParseWith(ActiveStudentTag + Join(Fields(a), ','), listOffset, addedOffset) == Some(ActiveStatus(Some(a)))
  {
    RecordDecodes(a);
    ActiveStudentDecodes(Join(Fields(a), ','), listOffset, addedOffset);
  }

  lemma NoActiveStudentRoundTrip(listOffset: nat, addedOffset: nat)
    ensures ParseWith(ActiveStudentTag + "NONE", listOffset, addedOffset) == Some(ActiveStatus(None))
  {
    assert Trim("NONE") == "NONE" by {
      TrimOfTrimmed("NONE");
    }
    ActiveStudentDecodes("NONE", listOffset, addedOffset);
  }

  /** The student tags, and so every tail of them, hold no whitespace and no comma. */
  lemma StudentTagTails(listOffset: nat, addedOffset: nat)
    requires listOffset <= |StudentListTag| && addedOffset <= |StudentAddedTag|
    ensures NoWhitespace(StudentListTag[listOffset..]) && ',' !in StudentListTag[listOffset..]
    ensures NoWhitespace(StudentAddedTag[addedOffset..]) && ',' !in StudentAddedTag[addedOffset..]
  {
    assert NoWhitespace(StudentAddedTag) && ',' !in StudentAddedTag;
    assert StudentListTag == StudentAddedTag[..13] + ":";
  }

  /** A student-list payload behind a tag tail reads back with the tail on the name. */
  lemma ListRecordDecodes(n: string, k: string, nis: string, uid: string, pre: string)
    requires CleanPayload([n, k, nis, uid])
    requires NoWhitespace(pre) && ',' !in pre
    ensures Split(Trim(pre + Join([n, k, nis, uid], ',')), ',') == [pre + n, k, nis, uid]
  {
    PrefixedFieldsDecode(pre, [n, k, nis, uid]);
  }

  lemma StudentListRoundTrip(n: string, k: string, nis: string, uid: string, listOffset: nat, addedOffset: nat)
    requires CleanPayload([n, k, nis, uid])
    requires listOffset <= |StudentListTag|
    ensures ParseWith(StudentListTag + Join([n, k, nis, uid], ','), listOffset, addedOffset) ==
      Some(StudentList(StudentListTag[listOffset..] + n, k, nis, uid))
  {
    var pre := StudentListTag[listOffset..];
    var body := Join([n, k, nis, uid], ',');
    StudentTagTails(listOffset, 0);
    ListRecordDecodes(n, k, nis, uid, pre);
    var parts := Split(Trim(pre + body), ',');
    assert parts == [pre + n, k, nis, uid];
    assert |parts| == 4 && UidField(parts) == uid;
    StudentListDecodes(body, listOffset, addedOffset);
  }

  /** A student-added payload behind a tag tail reads back with the tail on the name. */
  lemma AddedRecordDecodes(s: StudentFields, uid: string, pre: string)
    requires FieldsWellFormed(s) && (uid != "" ==> s.nis.Some?) && CleanPayload(AddedFields(s, uid))
    requires NoWhitespace(pre) && ',' !in pre
    ensures var t := s.(name := pre + s.name);
      var parts := Split(Trim(pre + Join(AddedFields(s, uid), ',')), ',');
      |parts| >= 1 && StudentOf(parts) == t && UidField(parts) == uid
  {
    var fields := AddedFields(s, uid);
    var t := s.(name := pre + s.name);
    PrefixedFieldsDecode(pre, fields);
    RenamedFields(s, uid, pre);
    FieldsShape(t, uid);
  }

  /** Prefixing the name prefixes the first field and leaves the others. */
  lemma RenamedFields(s: StudentFields, uid: string, pre: string)
    ensures [pre + AddedFields(s, uid)[0]] + AddedFields(s, uid)[1..] == AddedFields(s.(name := pre + s.name), uid)
  {
    var rest := Fields(s)[1..] + if uid == "" then [] else [uid];
    assert AddedFields(s, uid) == [s.name] + rest;
    assert AddedFields(s.(name := pre + s.name), uid) == [pre + s.name] + rest;
  }

  lemma StudentAddedRoundTrip(s: StudentFields, uid: string, listOffset: nat, addedOffset: nat)
    requires FieldsWellFormed(s) && (uid != "" ==> s.nis.Some?) && CleanPayload(AddedFields(s, uid))
    requires addedOffset <= |StudentAddedTag|
    ensures ParseWith(StudentAddedTag + Join(AddedFields(s, uid), ','), listOffset, addedOffset) ==
      Some(StudentAdded(s.(name := StudentAddedTag[addedOffset..] + s.name), uid))
  {
    StudentTagTails(0, addedOffset);
    AddedRecordDecodes(s, uid, StudentAddedTag[addedOffset..]);
    StudentAddedDecodes(Join(AddedFields(s, uid), ','), listOffset, addedOffset);
  }

  lemma ActiveSetRoundTrip(s: StudentFields, listOffset: nat, addedOffset: nat)
    requires FieldsWellFormed(s) && CleanPayload(Fields(s))
    ensures ParseWith(ActiveSetTag + Join(Fields(s), ','), listOffset, addedOffset) == Some(ActiveStudentSet(s))
  {
    RecordDecodes(s);
    ActiveSetDecodes(Join(Fields(s), ','), listOffset, addedOffset);
  }

  /**
   * Every well-formed message survives a trip through its line, with the
   * student names renamed as `Renamed` says for the given offsets.
   */
  lemma RoundTripWith(m: Message, listOffset: nat, addedOffset: nat)
    requires WellFormed(m)
    requires listOffset <= |StudentListTag| && addedOffset <= |StudentAddedTag|
    ensures ParseWith(Render(m), listOffset, addedOffset) == Some(Renamed(m, listOffset, addedOffset))
  {
    match m
    case ActiveStatus(None) => NoActiveStudentRoundTrip(listOffset, addedOffset);
    case ActiveStatus(Some(a)) => ActiveStatusRoundTrip(a, listOffset, addedOffset);
    case StudentList(n, k, nis, uid) => StudentListRoundTrip(n, k, nis, uid, listOffset, addedOffset);
    case StudentAdded(s, uid) => StudentAddedRoundTrip(s, uid, listOffset, addedOffset);
    case ActiveStudentSet(s) => ActiveSetRoundTrip(s, listOffset, addedOffset);
    case _ => ScalarRoundTrip(m, listOffset, addedOffset);
  }

  /** The parts of the student tags that the two offsets leave in front of the payload. */
  lemma TagTails()
    ensures StudentListTag[10..] == "swa:" && StudentAddedTag[16..] == "DED:"
    ensures StudentListTag[|StudentListTag|..] == "" && StudentAddedTag[|StudentAddedTag|..] == ""
  {
  }

  /** With the payloads read after their tags, every well-formed message comes back unchanged. */
  lemma ParseIntendedRoundTrip(m: Message)
    requires WellFormed(m)
    ensures ParseIntended(Render(m)) == Some(m)
  {
    RoundTripWith(m, |StudentListTag|, |StudentAddedTag|);
    TagTails();
    if m.StudentList? {
      assert "" + m.name == m.name;
    }
    if m.StudentAdded? {
      assert "" + m.student.name == m.student.name;
    }
  }

  /**
   * As written, every well-formed message comes back, except that a listed
   * student's name gains `swa:` and an added student's name gains `DED:`.
   */
  lemma ParseRoundTrip(m: Message)
    requires WellFormed(m)
    ensures Parse(Render(m)) == Some(Renamed(m, 10, 16))
    ensures m.StudentList? ==> Parse(Render(m)) == Some(m.(name := "swa:" + m.name))
    ensures m.StudentAdded? ==> Parse(Render(m)) == Some(m.(student := m.student.(name := "DED:" + m.student.name)))
    ensures !m.StudentList? && !m.StudentAdded? ==> Parse(Render(m)) == Some(m)
  {
    RoundTripWith(m, 10, 16);
    TagTails();
  }

  /** As written, no well-formed student-list message survives the trip: its name comes back longer. */
  lemma StudentListNameCounterexample(n: string, k: string, nis: string, uid: string)
    requires WellFormed(StudentList(n, k, nis, uid))
    ensures Parse(Render(StudentList(n, k, nis, uid))) == Some(StudentList("swa:" + n, k, nis, uid))
    ensures Parse(Render(StudentList(n, k, nis, uid))) != Some(StudentList(n, k, nis, uid))
  {
    ParseRoundTrip(StudentList(n, k, nis, uid));
    assert |"swa:" + n| != |n|;
  }

  /** As written, no well-formed student-added message survives the trip: its name comes back longer. */
  lemma StudentAddedNameCounterexample(s: StudentFields, uid: string)
    requires WellFormed(StudentAdded(s, uid))
    ensures Parse(Render(StudentAdded(s, uid))) == Some(StudentAdded(s.(name := "DED:" + s.name), uid))
    ensures Parse(Render(StudentAdded(s, uid))) != Some(StudentAdded(s, uid))
  {
    ParseRoundTrip(StudentAdded(s, uid));
    assert |"DED:" + s.name| != |s.name|;
  }
}
