/**
  * The collaborators of the MPX file-creation record, whose code is not part
  * of this model: the locale tables, the file-version registry and the
  * accessors of a parsed record. Their types are opaque and each lookup is a
  * total function handed to the model as a value, so nothing is assumed about
  * what any of them returns.
  */
module MpxCollaborators {

  /** A `java.util.Locale`: used only as a key into the locale tables. */
  type Locale

  /** A code page (the text encoding named in the file header). */
  type CodePage(==, 0)

  /** An MPX file-format version. */
  type FileVersion(==, 0)

  /** One parsed MPX record: the fields of one line of the file. */
  type Record

  /** The three per-locale entries the file-creation record reads. */
  datatype LocaleData = LocaleData(
    fileDelimiter: Locale -> char,    // the FILE_DELIMITER entry
    programName: Locale -> string,    // the PROGRAM_NAME entry
    codePage: Locale -> CodePage      // the CODE_PAGE entry
  )

  /** The version constant and the textual version lookup of `FileVersion`. */
  datatype FileVersions = FileVersions(
    version4_0: FileVersion,                  // VERSION_4_0
    getInstance: string -> FileVersion        // lookup of a version token
  )

  /** The field accessors of a parsed record, by field index. */
  datatype RecordFields = RecordFields(
    getString: (Record, int) -> string,
    getCodePage: (Record, int) -> CodePage
  )

  /** Everything the record's operations read from outside: read-only for a whole session. */
  datatype Environment = Environment(locales: LocaleData, versions: FileVersions, fields: RecordFields)
}
