/**
 * The server side's shared pieces: the tables the API routes read and
 * write, held in memory, the shape of a route's answer, and JavaScript's
 * truthiness on the string fields of a request body.
 */
module Database {
  import opened Wrappers
  import opened Records

  /** A route's answer: a status with a JSON value, or a status with `{ error }`. */
  datatype Reply<T> = Json(status: int, value: T) | ErrorReply(status: int, error: string)

  /**
   * A request field is usable when it is present and not the empty string:
   * `!field` holds for a missing, null or empty field.
   */
  predicate Present(field: Option<string>) {
    field.Some? && field.value != ""
  }

  /** `field || null` */
  function OrNull(field: Option<string>): (r: Option<string>)
    ensures r.Some? <==> Present(field)
    ensures r.Some? ==> r == field
  {
    if Present(field) then field else None
  }

  /** The database the routes share; each table is a list of rows. */
  class Tables {
    var students: seq<Student>
    var prodi: seq<Prodi>
    var attendance: seq<AttendanceLog>

    constructor()
      ensures students == [] && prodi == [] && attendance == []
    {
      students, prodi, attendance := [], [], [];
    }
  }
}
