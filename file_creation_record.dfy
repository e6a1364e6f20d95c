/**
  * The MPX file-creation record as an object: four fields updated in place
  * by setters, and a delimiter setter that also writes to the parent project
  * file. Every mutating method states its new state as the matching function
  * of HeaderSpec applied to the old state.
  */
module Mpx {
  import opened MpxCollaborators
  import HeaderSpec

  /**
    * The parent project file, reduced to the two pieces of its state the
    * file-creation record uses: its locale and its delimiter.
    */
  class ProjectFile {
    var locale: Locale
    var delimiter: char

    constructor (locale: Locale, delimiter: char)
      ensures this.locale == locale && this.delimiter == delimiter
    {
      this.locale := locale;
      this.delimiter := delimiter;
    }

    function GetLocale(): Locale
      reads this
    {
      locale
    }

    method SetDelimiter(delimiter: char)
      modifies this
      ensures this.delimiter == delimiter
      ensures locale == old(locale)
    {
      this.delimiter := delimiter;
    }
  }

  /** The first record of an MPX file. */
  class FileCreationRecord {
    const parent: ProjectFile
    var delimiter: char
    var programName: string
    var fileVersion: FileVersion
    var codePage: CodePage

    /** The record's fields together with the parent file's delimiter. */
    function Snapshot(): HeaderSpec.Session
      reads this, parent
    {
      HeaderSpec.Session(HeaderSpec.Header(delimiter, programName, fileVersion, codePage), parent.delimiter)
    }

    /** The record and its parent file agree on the delimiter. */
    ghost predicate Valid()
      reads this, parent
    {
      HeaderSpec.DelimitersAgree(Snapshot())
    }

    constructor (file: ProjectFile, locales: LocaleData, versions: FileVersions)
      modifies file
      ensures parent == file
      ensures Snapshot() == HeaderSpec.Created(locales, versions, old(file.locale))
      ensures Valid()
      ensures file.locale == old(file.locale)
    {
      parent := file;
      new;
      SetLocale(file.GetLocale(), locales);
      SetFileVersion(versions.version4_0);
    }

    /** Re-derives the delimiter, program name and code page from the locale tables. */
    method SetLocale(locale: Locale, locales: LocaleData)
      modifies this, parent
      ensures Snapshot() == HeaderSpec.WithLocale(old(Snapshot()), locales, locale)
      ensures Valid()
      ensures parent.locale == old(parent.locale)
    {
      SetDelimiter(locales.fileDelimiter(locale));
      SetProgramName(locales.programName(locale));
      SetCodePage(locales.codePage(locale));
    }

    /** Overwrites the program name, version and code page from a parsed header record. */
    method SetValues(rec: Record, versions: FileVersions, fields: RecordFields)
      modifies this
      ensures Snapshot() == HeaderSpec.WithValues(old(Snapshot()), versions, fields, rec)
      ensures GetDelimiter() == old(GetDelimiter())
      ensures unchanged(parent)
      ensures old(Valid()) ==> Valid()
    {
      SetProgramName(fields.getString(rec, 0));
      SetFileVersion(versions.getInstance(fields.getString(rec, 1)));
      SetCodePage(fields.getCodePage(rec, 2));
    }

    /** Sets the delimiter and writes it through to the parent file. */
    method SetDelimiter(delimiter: char)
      modifies this, parent
      ensures GetDelimiter() == delimiter && parent.delimiter == delimiter
      ensures Snapshot() == HeaderSpec.WithDelimiter(old(Snapshot()), delimiter)
      ensures Valid()
      ensures parent.locale == old(parent.locale)
    {
      this.delimiter := delimiter;
      parent.SetDelimiter(this.delimiter);
    }

    function GetDelimiter(): char
      reads this
    {
      delimiter
    }

    method SetProgramName(programName: string)
      modifies this
      ensures GetProgramName() == programName
      ensures Snapshot() == HeaderSpec.WithProgramName(old(Snapshot()), programName)
      ensures unchanged(parent)
      ensures old(Valid()) ==> Valid()
    {
      this.programName := programName;
    }

    function GetProgramName(): string
      reads this
    {
      programName
    }

    method SetFileVersion(version: FileVersion)
      modifies this
      ensures GetFileVersion() == version
      ensures Snapshot() == HeaderSpec.WithFileVersion(old(Snapshot()), version)
      ensures unchanged(parent)
      ensures old(Valid()) ==> Valid()
    {
      fileVersion := version;
    }

    function GetFileVersion(): FileVersion
      reads this
    {
      fileVersion
    }

    method SetCodePage(codePage: CodePage)
      modifies this
      ensures GetCodePage() == codePage
      ensures Snapshot() == HeaderSpec.WithCodePage(old(Snapshot()), codePage)
      ensures unchanged(parent)
      ensures old(Valid()) ==> Valid()
    {
      this.codePage := codePage;
    }

    function GetCodePage(): CodePage
      reads this
    {
      codePage
    }
  }
}
