/** Option and Result, and the kinds of failure the metadata decoders report. */
module Wrappers {

  datatype Option<+T> = None | Some(value: T)

  /** Why a decode failed. The source reports free-text serde errors; the model keeps
      only the kind of failure and the offending key or text. */
  datatype Error =
    | MissingField(key: string)          // a required key is absent
    | InvalidType(expected: string)      // wrong kind of value, or an integer outside the field's width
    | DuplicateField(key: string)        // a field given under both its name and its alias
    | UnknownVariant(name: string)       // a string that names no enum variant
    | WrongFormat(text: string)          // a parameterised name that does not match its grammar
    | InvalidNumber(text: string)        // digits that do not fit the target integer width
    | PrecisionTooLarge(text: string)    // a decimal precision above 38
    | NoVariantMatched                   // an untagged value that matches none of the shapes
    | ConflictingManifests               // a v1 snapshot with both manifest-list and manifests
    | MissingFormatVersion               // a metadata document without format-version
    | InvalidFormatVersion               // a format-version that is not a 64-bit integer
    | UnsupportedVersion(version: int)   // a format-version other than 1 and 2
    | InvalidBody(version: int, cause: Error) // the body for the selected version does not decode
    | InvalidDiscriminant(value: int)    // an integer that is not the code of any enum variant

  datatype Result<+T> = Ok(value: T) | Err(error: Error) {
    predicate IsFailure() { Err? }
    function PropagateFailure<U>(): Result<U> requires Err? { Err(error) }
    function Extract(): T requires Ok? { value }
  }
}
