/** The face database file face_data.json: roll number to stored face embedding. */
module FaceData {

  /** A 128-number face embedding, as a JSON list. */
  type Embedding = seq<real>

  /** What is on disk: no file, a file that does not parse as JSON, or a JSON object. */
  datatype DbFile = Missing | Unparsable | Stored(db: map<string, Embedding>)

  /**
   * Reading the database (load_face_db in the scanner, load_face_database in the
   * enrolment script): a missing or unparsable file reads as the empty database.
   */
  function Load(f: DbFile): (db: map<string, Embedding>)
    ensures f.Stored? ==> db == f.db
    ensures !f.Stored? ==> db == map[]
  {
    match f
    case Stored(m) => m
    case _ => map[]
  }
}
