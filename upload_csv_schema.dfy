/**
 * The request to upload a CSV file of customers: a file and a one-character
 * separator. Every failed check reports its own message, so a bad request can
 * report several.
 */
module UploadCsvSchema {
  import opened Zod

  const FileRequired := "File is required."
  const SeparatorRequired := "Separator is required."
  const SeparatorSingle := "Separator must be a single character."
  /** The library's own messages for a non-string separator. */
  const MissingValue := "Required"
  const NullValue := "Expected string, received null"

  /** `file` is `true` when the value is a browser `File`. */
  datatype UploadInput = UploadInput(isFile: bool, separator: Field<string>)

  function SeparatorIssues(f: Field<string>): (r: seq<string>)
    ensures f.Given? && |f.value| == 1 ==> r == []
  {
    match f
    case Missing => [MissingValue]
    case Null => [NullValue]
    case Given(s) =>
      (if |s| < 1 then [SeparatorRequired] else []) + (if |s| != 1 then [SeparatorSingle] else [])
  }

  /** The messages `safeParse` reports, file first; an empty list means accepted. */
  function Issues(x: UploadInput): seq<string> {
    (if x.isFile then [] else [FileRequired]) + SeparatorIssues(x.separator)
  }

  predicate Valid(x: UploadInput) {
    Issues(x) == []
  }

  /** The request is accepted exactly when a file is given with a one-character separator. */
  lemma ValidIff(x: UploadInput)
    ensures Valid(x) <==> x.isFile && x.separator.Given? && |x.separator.value| == 1
  {
  }

  /** An empty separator fails both string checks. */
  lemma EmptySeparatorIssues(isFile: bool)
    ensures Issues(UploadInput(isFile, Given(""))) ==
      (if isFile then [] else [FileRequired]) + [SeparatorRequired, SeparatorSingle]
  {
  }

  /** A longer separator fails only the single-character check. */
  lemma LongSeparatorIssues(isFile: bool, s: string)
    requires |s| >= 2
    ensures Issues(UploadInput(isFile, Given(s))) == (if isFile then [] else [FileRequired]) + [SeparatorSingle]
  {
  }

  /** Without a file the first message is always the file one. */
  lemma MissingFileReported(separator: Field<string>)
    ensures |Issues(UploadInput(false, separator))| >= 1 && Issues(UploadInput(false, separator))[0] == FileRequired
  {
  }
}
