/**
 * Optional values, value-or-error results and the errors the decoders of the
 * go-unit library report.  Go's `(T, error)` pairs become `Result<T>`.
 */
module Results {

  datatype Option<T> = None | Some(value: T) {
    predicate IsFailure() { None? }

    function PropagateFailure<U>(): Option<U>
      requires None?
    {
      None
    }

    function Extract(): T
      requires Some?
    {
      value
    }
  }

  /** The errors returned by the JSON decoders (their Go message in the comment). */
  datatype Error =
      /** encoding/json: a JSON value whose type does not fit the Go field it is decoded into */
    | JsonType(field: string)
      /** "missing 'unit' field" */
    | MissingUnit
      /** "could not determine format or dimension" */
    | UndeterminedFormat
      /** "could not extract unit info" */
    | NoUnitInfo
      /** "unknown dimension: %s" */
    | UnknownDimension(dimension: string)
      /** "unknown unit symbol %q for dimension %q" */
    | UnknownUnitSymbol(symbol: string, dimension: string)
      /** "unknown unit key %q" */
    | UnknownUnitKey(key: string)
      /** "unit type mismatch: expected %T, got %T" */
    | UnitTypeMismatch
      /** "expected dimension '<d>', got '%s'" */
    | ExpectedDimension(expected: string, got: string)
      /** "unknown <d> unit: symbol=%s, key=%s" */
    | UnknownUnit(dimension: string, symbol: string, key: string)
      /** "unknown <d> unit key: %s" */
    | UnknownCompactKey(dimension: string, key: string)

  datatype Result<T> = Ok(value: T) | Err(error: Error) {
    predicate IsFailure() { Err? }

    function PropagateFailure<U>(): Result<U>
      requires Err?
    {
      Err(error)
    }

    function Extract(): T
      requires Ok?
    {
      value
    }
  }
}
