/**
 * The records the attendance system keeps (types/index.ts) and the list
 * operations its client cache applies to them: prepend-and-truncate for the
 * logs, replace and remove by id for the tables.
 */
module Records {
  import opened Wrappers

  /** A registered student; `uid` is the card UID, `createdAt` a timestamp in milliseconds. */
  datatype Student = Student(id: string, name: string, kelas: string, nis: string, uid: string,
                             prodiId: Option<string>, createdAt: int)

  /** A study programme. */
  datatype Prodi = Prodi(id: string, code: string, name: string, faculty: Option<string>)

  /** One attendance record; `timestamp` is in milliseconds since the epoch. */
  datatype AttendanceLog = AttendanceLog(id: string, uid: string, studentId: Option<string>, studentName: string,
                                         kelas: string, status: string, source: string, timestamp: int)

  /** One raw line from the device, as the log view keeps it. */
  datatype SerialLog = SerialLog(id: string, message: string, kind: string, timestamp: int)

  function StudentKey(s: Student): string { s.id }
  function ProdiKey(p: Prodi): string { p.id }
  function LogKey(l: AttendanceLog): string { l.id }

  // ---------------------------------------------------------- bounded logs

  /** `slice(0, n)`: the first `n` elements, or all of them when there are fewer. */
  function Take<T>(s: seq<T>, n: nat): (r: seq<T>)
    ensures |r| == if |s| < n then |s| else n
    ensures r == s[..|r|]
  {
    if |s| <= n then s else s[..n]
  }

  /**
   * `[x, ...s].slice(0, cap)`: `x` first, then the previous entries in their
   * order, dropping the oldest beyond `cap`.
   */
  function PrependCapped<T>(x: T, s: seq<T>, cap: nat): (r: seq<T>)
    ensures |r| <= cap
    ensures cap > 0 ==> |r| == (if |s| + 1 < cap then |s| + 1 else cap) && r[0] == x && r[1..] == s[..|r| - 1]
    ensures cap > |s| ==> r == [x] + s
  {
    Take([x] + s, cap)
  }

  function Reversed<T>(s: seq<T>): (r: seq<T>)
    ensures |r| == |s|
    ensures forall i | 0 <= i < |s| :: r[i] == s[|s| - 1 - i]
  {
    if |s| == 0 then [] else Reversed(s[1..]) + [s[0]]
  }

  /** Prepending `xs` one after the other, each capped. */
  function PrependEach<T>(xs: seq<T>, s: seq<T>, cap: nat): seq<T> {
    if |xs| == 0 then s else PrependEach(xs[1..], PrependCapped(xs[0], s, cap), cap)
  }

  /** Truncating early does not change a later, shorter truncation. */
  lemma TakeAfterTake<T>(a: seq<T>, b: seq<T>, cap: nat)
    ensures Take(a + Take(b, cap), cap) == Take(a + b, cap)
  {
    var t := Take(b, cap);
    var lhs := Take(a + t, cap);
    var rhs := Take(a + b, cap);
    assert |lhs| == |rhs|;
    forall i | 0 <= i < |lhs| ensures lhs[i] == rhs[i] {
      if i >= |a| {
        assert lhs[i] == t[i - |a|] == b[i - |a|];
      }
    }
  }

  /**
   * A bounded log is a sliding window: after any run of entries the log
   * holds the newest `cap` of them and of the earlier log, newest first.
   */
  lemma {:induction false} PrependEachKeepsNewest<T>(xs: seq<T>, s: seq<T>, cap: nat)
    requires |xs| > 0
    ensures PrependEach(xs, s, cap) == Take(Reversed(xs) + s, cap)
  {
    var head := PrependCapped(xs[0], s, cap);
    if |xs| == 1 {
      assert Reversed(xs) == [xs[0]];
    } else {
      PrependEachKeepsNewest(xs[1..], head, cap);
      TakeAfterTake(Reversed(xs[1..]), [xs[0]] + s, cap);
      assert Reversed(xs) == Reversed(xs[1..]) + [xs[0]];
      assert Reversed(xs[1..]) + ([xs[0]] + s) == Reversed(xs) + s;
    }
  }

  // ---------------------------------------------------------- tables by id

  /** `s.map(x => key(x) === id ? v : x)` */
  function ReplaceWhere<T>(s: seq<T>, key: T -> string, id: string, v: T): (r: seq<T>)
    ensures |r| == |s|
    ensures forall i | 0 <= i < |s| :: key(s[i]) == id ==> r[i] == v
    ensures forall i | 0 <= i < |s| :: key(s[i]) != id ==> r[i] == s[i]
  {
    if |s| == 0 then []
    else [if key(s[0]) == id then v else s[0]] + ReplaceWhere(s[1..], key, id, v)
  }

  /** `s.filter(x => key(x) !== id)` */
  function RemoveWhere<T>(s: seq<T>, key: T -> string, id: string): (r: seq<T>)
    ensures forall i | 0 <= i < |r| :: r[i] in s && key(r[i]) != id
    ensures forall i | 0 <= i < |s| :: key(s[i]) != id ==> s[i] in r
    ensures |r| <= |s|
  {
    if |s| == 0 then []
    else if key(s[0]) == id then RemoveWhere(s[1..], key, id)
    else [s[0]] + RemoveWhere(s[1..], key, id)
  }

  /** `s.filter(keep)`: the kept entries, in order. */
  function Filter<T(!new)>(s: seq<T>, keep: T -> bool): (r: seq<T>)
    ensures forall i | 0 <= i < |r| :: r[i] in s && keep(r[i])
    ensures forall i | 0 <= i < |s| :: keep(s[i]) ==> s[i] in r
    ensures multiset(r) <= multiset(s)
    ensures forall x :: multiset(r)[x] == if keep(x) then multiset(s)[x] else 0
  {
    if |s| == 0 then []
    else
      assert s == [s[0]] + s[1..];
      if keep(s[0]) then [s[0]] + Filter(s[1..], keep) else Filter(s[1..], keep)
  }

  /** How many entries carry the id. */
  function CountKey<T>(s: seq<T>, key: T -> string, id: string): nat {
    if |s| == 0 then 0 else (if key(s[0]) == id then 1 else 0) + CountKey(s[1..], key, id)
  }

  /** Removing drops exactly the entries with the id: one per entry counted. */
  lemma {:induction false} RemoveCount<T>(s: seq<T>, key: T -> string, id: string)
    ensures |RemoveWhere(s, key, id)| == |s| - CountKey(s, key, id)
  {
    if |s| > 0 {
      RemoveCount(s[1..], key, id);
    }
  }

  /** A table without the id is left as it is. */
  lemma {:induction false} RemoveAbsent<T>(s: seq<T>, key: T -> string, id: string)
    requires forall i | 0 <= i < |s| :: key(s[i]) != id
    ensures RemoveWhere(s, key, id) == s
  {
    if |s| > 0 {
      RemoveAbsent(s[1..], key, id);
      assert [s[0]] + s[1..] == s;
    }
  }

  /** Removing from a concatenation removes from each part, keeping the parts in order. */
  lemma {:induction false} RemoveAppend<T>(a: seq<T>, b: seq<T>, key: T -> string, id: string)
    ensures RemoveWhere(a + b, key, id) == RemoveWhere(a, key, id) + RemoveWhere(b, key, id)
  {
    if |a| == 0 {
      assert a + b == b;
    } else {
      var ab := a + b;
      assert ab[0] == a[0] && ab[1..] == a[1..] + b;
      RemoveAppend(a[1..], b, key, id);
      var tail := RemoveWhere(a[1..], key, id);
      if key(a[0]) != id {
        assert [a[0]] + (tail + RemoveWhere(b, key, id)) == ([a[0]] + tail) + RemoveWhere(b, key, id);
      }
    }
  }

  /** Removing twice is removing once. */
  lemma RemoveIdempotent<T>(s: seq<T>, key: T -> string, id: string)
    ensures RemoveWhere(RemoveWhere(s, key, id), key, id) == RemoveWhere(s, key, id)
  {
    var r := RemoveWhere(s, key, id);
    RemoveAbsent(r, key, id);
  }

  /** Appending a record and then removing its id gives back the table without that id. */
  lemma AddThenRemove<T>(s: seq<T>, key: T -> string, x: T)
    ensures RemoveWhere(s + [x], key, key(x)) == RemoveWhere(s, key, key(x))
  {
    RemoveAppend(s, [x], key, key(x));
    assert RemoveWhere([x], key, key(x)) == [];
  }

  /** Replacing and then removing an id is removing it, when the replacement keeps the id. */
  lemma {:induction false} ReplaceThenRemove<T>(s: seq<T>, key: T -> string, id: string, v: T)
    requires key(v) == id
    ensures RemoveWhere(ReplaceWhere(s, key, id, v), key, id) == RemoveWhere(s, key, id)
  {
    if |s| > 0 {
      ReplaceThenRemove(s[1..], key, id, v);
    }
  }

  /** Replacing with the same record twice is replacing once. */
  lemma {:induction false} ReplaceIdempotent<T>(s: seq<T>, key: T -> string, id: string, v: T)
    requires key(v) == id
    ensures ReplaceWhere(ReplaceWhere(s, key, id, v), key, id, v) == ReplaceWhere(s, key, id, v)
  {
    if |s| > 0 {
      ReplaceIdempotent(s[1..], key, id, v);
    }
  }
}
