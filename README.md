# MPX file-creation record

A Dafny model of the file-creation record of MPXJ's MPX format. This is the
first record of an MPX file. It holds the delimiter character, the name of
the program that wrote the file, the file-format version and the code page.
A record is created for a parent project file and seeded from that file's
locale, with version 4.0. `setLocale` re-derives the delimiter, program name
and code page from the locale tables. `setValues` overwrites the program
name, version and code page from the parsed header line. The delimiter
setter also writes the delimiter through to the parent project file.

The model has three files:

- `collaborators.dfy` (module `MpxCollaborators`) holds the collaborators
  whose code is not part of this model. `Locale`, `CodePage`, `FileVersion`
  and a parsed `Record` are opaque types. The locale lookups, the `VERSION_4_0`
  constant with `FileVersion.getInstance`, and the record's field accessors
  are total functions passed in as values. Nothing is assumed about what they
  return.
- `header_spec.dfy` (module `HeaderSpec`) is a value model. A `Session` holds
  the record's four fields plus the parent file's delimiter. Every operation
  is a function from the old session to the new one, built from the four
  plain setters in the order the Java code calls them. An `Op` datatype lists
  the record's mutating operations, and `Run` applies a sequence of them. The
  lemmas state what each operation writes and what it leaves alone. They also
  state that every operation is idempotent, that operations writing disjoint
  fields commute, that each field holds the value its last writer wrote, and
  when the two delimiters agree.
- `file_creation_record.dfy` (module `Mpx`) holds the imperative model. The
  class `FileCreationRecord` has the four fields of the Java class and a
  `parent` reference to a `ProjectFile`. Its methods update the fields in
  place, and `SetDelimiter` modifies the parent. Each method's postcondition
  gives the new `Snapshot()` as the matching `HeaderSpec` function of the old
  one, and states what it leaves unchanged. `Valid()` is the cross-object
  invariant that the record's and the parent's delimiters agree.

## Model

| member | source | states |
|---|---|---|
| `Mpx.FileCreationRecord.constructor` | src/com/tapsterrock/mpx/FileCreationRecord.java:42-48 | The new record belongs to the given file. Its delimiter, program name and code page are the locale-table entries for the file's locale, its version is VERSION_4_0, the parent's delimiter matches it, and the file's locale is unchanged. |
| `Mpx.FileCreationRecord.SetLocale` | src/com/tapsterrock/mpx/FileCreationRecord.java:57-62 | The delimiter (in the record and in the parent file), program name and code page become the locale's entries. The version and the parent's locale are unchanged, and the two delimiters agree afterwards. |
| `Mpx.FileCreationRecord.SetValues` | src/com/tapsterrock/mpx/FileCreationRecord.java:70-75 | The program name becomes record field 0, the version becomes getInstance of field 1, and the code page becomes the code page of field 2. The delimiter and the whole parent file are unchanged, so if the delimiters agreed before, they still agree. |
| `Mpx.FileCreationRecord.SetDelimiter` | src/com/tapsterrock/mpx/FileCreationRecord.java:82-96 | After the call, `GetDelimiter` returns the new delimiter and the parent file holds the same delimiter. The other three fields and the parent's locale are unchanged. |
| `Mpx.FileCreationRecord.SetProgramName` | src/com/tapsterrock/mpx/FileCreationRecord.java:103-116 | After the call, `GetProgramName` returns the new name. The other three fields and the parent file are unchanged, so if the delimiters agreed before, they still agree. |
| `Mpx.FileCreationRecord.SetFileVersion` | src/com/tapsterrock/mpx/FileCreationRecord.java:123-136 | After the call, `GetFileVersion` returns the new version. The other three fields and the parent file are unchanged, so if the delimiters agreed before, they still agree. |
| `Mpx.FileCreationRecord.SetCodePage` | src/com/tapsterrock/mpx/FileCreationRecord.java:143-156 | After the call, `GetCodePage` returns the new code page. The other three fields are unchanged, and so is the parent file, so if the delimiters agreed before, they still agree. |
| `HeaderSpec.WithLocale` | src/com/tapsterrock/mpx/FileCreationRecord.java:57-62 | Applying the three setters in order sets the delimiter of record and parent, the program name and the code page to the locale's entries, and leaves the version alone. |
| `HeaderSpec.WithValues` | src/com/tapsterrock/mpx/FileCreationRecord.java:70-75 | Applying the three setters in order sets the program name, version and code page from fields 0, 1 and 2 of the record, and leaves both delimiters alone. |
| `HeaderSpec.CreatedIsLocaleThenVersion` | src/com/tapsterrock/mpx/FileCreationRecord.java:42-48 | The constructed state is setLocale followed by setFileVersion(VERSION_4_0), whatever the fields held before. In that state the two delimiters agree. |
| `HeaderSpec.ParsedHeader` | src/com/tapsterrock/mpx/FileCreationRecord.java:42-75 | Constructing for a locale and then applying setValues gives the locale's delimiter together with the name, version and code page read from the record. The delimiters agree. |
| `HeaderSpec.StepFrame` | src/com/tapsterrock/mpx/FileCreationRecord.java:57-145 | Each operation writes exactly its own set of fields, each to its value. All other fields keep their values. The parent's delimiter changes exactly when the record's delimiter is written, and to the same value. |
| `HeaderSpec.StepAgreement` | src/com/tapsterrock/mpx/FileCreationRecord.java:82-86 | After one operation, the delimiters agree if and only if they agreed before or the operation wrote the delimiter. |
| `HeaderSpec.StepIdempotent` | src/com/tapsterrock/mpx/FileCreationRecord.java:82-146 | Applying any operation twice with the same argument gives the same state as applying it once. This covers the four plain setters, setLocale and setValues. |
| `HeaderSpec.StepsCommute` | src/com/tapsterrock/mpx/FileCreationRecord.java:57-146 | Two operations that write disjoint fields give the same state in either order. For example, setDelimiter commutes with setValues. |
| `HeaderSpec.UnwrittenFieldKept` | src/com/tapsterrock/mpx/FileCreationRecord.java:57-146 | A field that no operation in a sequence writes keeps its value through the sequence. For the delimiter, the parent's delimiter is also kept. |
| `HeaderSpec.LastWriterWins` | src/com/tapsterrock/mpx/FileCreationRecord.java:57-146 | After a sequence of operations, each field holds the value written by the last operation in the sequence that writes it. |
| `HeaderSpec.AgreementAlongTrace` | src/com/tapsterrock/mpx/FileCreationRecord.java:82-86 | After any sequence of operations, the delimiters agree if and only if they agreed at the start or some operation in the sequence wrote the delimiter. |
| `HeaderSpec.CreatedAgreesForever` | src/com/tapsterrock/mpx/FileCreationRecord.java:42-86 | Starting from a newly constructed record, the record's and the parent's delimiters agree after every sequence of operations. |

The getters `GetDelimiter`, `GetProgramName`, `GetFileVersion` and
`GetCodePage` each return their field. They carry no contract of their own.
They appear in the contracts of the matching setters above, whose rows cite
the getters' lines too.

## Left out

- The parent `ProjectFile` is not part of this model. It is reduced to a
  class with a locale and a delimiter. Its `setDelimiter` is modelled as a
  plain field write, and its `getLocale` as a read of the locale field.
- The `MPXRecord` superclass is not part of this model. Its only role here,
  holding the parent file, is the `parent` constant.
- `LocaleData`, `FileVersion.getInstance`, `CodePage`, `Record.getString` and
  `Record.getCodePage` are not part of this model. Their tables, lookups and
  any exceptions they throw are represented only as total functions passed in
  as values. In particular, the behaviour on an unknown version or code-page
  token is not modelled.
- The call from the project file into `setLocale` happens when the file's
  locale changes, and it is not part of this model. `SetLocale` takes the
  locale as an argument and does not change the parent's locale.
- Java `null` is not modelled. A program name, version or code page is always
  a value, and the fields' default values before the constructor runs are not
  observable in the model.
- A Java `char` is a UTF-16 code unit, but a Dafny `char` is a Unicode scalar
  value. Surrogate halves used as delimiters are therefore not modelled. The
  code does no arithmetic on the delimiter, so nothing else depends on this.
- `setLocale` performs its three field writes one after another, as the code
  does. The model makes no atomicity claim beyond that. The program is
  single-threaded, and only the final state is stated.
- `FileCreationRecord` does not split or quote record lines. It does not
  itself look up locales, versions or code pages (see above), and it has no
  per-version field table. It never freezes: every setter may be called at
  any time, and the model allows the same.
- The documented default delimiter `","`
  (src/com/tapsterrock/mpx/FileCreationRecord.java:78, 89) is a value of the
  locale table, not a constant of this class, so the model does not state it.
