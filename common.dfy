/** Values, records and errors shared by the models of eta/core/data.py. */
module Common {

  datatype Option<+T> = None | Some(value: T)

  /** An operation either returns a value or raises one of the errors below. */
  datatype Result<+T> = Ok(value: T) | Err(error: Error)

  /** A field value of a record: the JSON scalars the model keeps, plus the
      `no_default` sentinel of eta.core.config. The sentinel is an object of
      its own and is never equal to `None` (here `Null`). */
  datatype Value = Null | Int(i: int) | Str(s: string) | NoDefault

  /** The attribute dictionary of a record instance, or a JSON dictionary. */
  type Record = map<string, Value>

  /** Why a DataFileSequenceError was raised (one message per cause). */
  datatype SequenceFault =
    | NoMatchingFiles   // construction found no files for the pattern
    | OutOfBounds       // immutable sequence, index outside the bounds
    | NegativeIndex     // mutable sequence, index below zero
    | NonAdjacent       // mutable sequence, index more than one step outside
    | ImmutableBounds   // a bound setter on an immutable sequence

  /** Why a DataRecordsError was raised. */
  datatype RecordsFault =
    | NoCullCriteria    // cull with neither keep nor remove values
    | NoRecordClass     // from_dict with no record class anywhere

  /** The exceptions the modelled code raises. */
  datatype Error =
    | KeyError(key: Value)            // a dictionary lookup of a missing key
    | AttributeError(name: string)    // getattr of a missing attribute
    | TypeError                       // a call whose arguments do not bind, or None += 1
    | StopIteration                   // the end of an iteration
    | DataFileSequenceError(fault: SequenceFault)
    | DataRecordsError(rfault: RecordsFault)
    | ClassNotFound(className: string) // a record class name no registry entry resolves

  predicate NoDuplicates<T(==)>(s: seq<T>) {
    forall i, j :: 0 <= i < j < |s| ==> s[i] != s[j]
  }

  /** The distinct elements of a sequence. */
  function Elements<T>(s: seq<T>): set<T> {
    set x | x in s
  }
}
