# A verified model of eta/core/data.py

This project models the core data structures of ETA's `eta/core/data.py`
in Dafny:

- **DataFileSequence** (`data_file_sequence.dfy`, module `FileSequence`) is a
  printf-style file pattern over an inclusive index interval
  `[lower_bound, upper_bound]`. It is a class with the fields `lb`, `ub`,
  `immutable` and the iteration cursor `iterIndex`. `gen_path` checks an index
  against the bounds. When the bounds are mutable, it can also extend the
  interval by one index at either end. The bound setters clamp so the
  interval never inverts, and iteration walks the interval once per `__iter__`.
- **BaseDataRecord and LabeledVideoRecord** (`base_data_record.dfy`, module
  `DataRecord`) are the field contract of a record class. A record class
  declares required, optional and excluded field lists. `from_dict` reads the
  required keys and any optional keys that are present, then calls the class.
  The class constructor stores its parameters and calls `clean_optional`,
  which deletes the optional attributes still holding the `no_default`
  sentinel. `attributes()` drops the excluded names. A record is its
  attribute map, `map<string, Value>`. `no_default` is the `NoDefault`
  constructor, which is distinct from `Null`, Python's `None`.
- **DataRecords** (`data_records.dfy`, module `RecordContainer`) is an ordered
  container of records. Its per-field queries are `slice`, `build_keyset`,
  `build_lookup` and `build_subsets`. `cull` filters records in place, and
  `from_dict` loads a container.
  - The loops of the queries and of `cull` are methods, each proved against
    a specification function: `Column`, `Lookup`, `Group`, `CullPlan` and
    `Where`.
  - The lemmas about those functions state the grouping and partition
    properties:
    - every position lies in exactly one lookup list;
    - each list is ascending;
    - the subsets follow the lookup;
    - the culled keyset is the keep set intersected with the present values.
- `common.dfy` (module `Common`) holds the value, record and error types that
  the three modules share. Every Python exception is an `Err` of a `Result`.

The path `sequence % index` is the symbolic term `Format(pattern, index)`. The
disk scan that infers the bounds of a sequence is replaced by bounds passed as
parameters.

## Model

| member | source | states |
|---|---|---|
| FileSequence.DataFileSequence.constructor | eta/core/data.py:133-140 | stores the pattern, the flag and the bounds; the cursor starts empty; the interval is valid |
| FileSequence.DataFileSequence.Create | eta/core/data.py:122-144 | raises DataFileSequenceError exactly when either inferred bound is missing; otherwise a fresh sequence with those bounds, no iteration running |
| FileSequence.DataFileSequence.CheckBounds | eta/core/data.py:194-205 | true exactly when lower_bound <= index <= upper_bound; reads the state and changes nothing |
| FileSequence.DataFileSequence.GenPath | eta/core/data.py:207-236 | immutable: fails exactly when check_bounds fails and never moves a bound; mutable: a negative index is rejected, lb-1 and ub+1 extend that end, an in-range index changes nothing, anything else fails with the bounds unchanged; lb <= ub is kept and the interval grows by at most one |
| FileSequence.DataFileSequence.SetLowerBound | eta/core/data.py:172-177 | raises exactly on an immutable sequence (bound unchanged); otherwise the bound becomes min(value, upper_bound), so the interval stays valid |
| FileSequence.DataFileSequence.SetUpperBound | eta/core/data.py:179-184 | raises exactly on an immutable sequence (bound unchanged); otherwise the bound becomes max(value, lower_bound), so the interval stays valid |
| FileSequence.DataFileSequence.Iter | eta/core/data.py:149-151 | the cursor restarts one below the lower bound |
| FileSequence.DataFileSequence.Next | eta/core/data.py:153-158 | the bounds never move; without a cursor TypeError; inside the bounds the cursor advances and the path of that index is returned, or NegativeIndex for a negative index on a mutable sequence; past them the cursor is cleared and StopIteration is raised |
| FileSequence.DataFileSequence.Collect | eta/core/data.py:149-158 | the for loop over the sequence yields Format(pattern, lb + k) for k = 0 .. ub-lb, exactly ub-lb+1 paths in ascending order, bounds unchanged, cursor reset to None; a mutable sequence with lb < 0 raises NegativeIndex instead, leaving the cursor at lb |
| FileSequence.IterateTwice | eta/core/data.py:149-158 | two successive iterations give the same result: every iteration restarts at the lower bound |
| DataRecord.Cleaned | eta/core/data.py:460-468 | only removes entries and keeps the values of the rest; keeps every entry not holding no_default and every non-optional entry; no optional entry left holds no_default |
| DataRecord.CleanOptional | eta/core/data.py:460-468 | the delattr loop over optional() leaves exactly the attributes Cleaned describes |
| DataRecord.Construct | eta/core/data.py:525-530 | TypeError exactly when a keyword is undeclared or a required parameter is missing; otherwise the attributes are declared keywords with their given values, required non-optional ones present, no optional one holding no_default |
| DataRecord.FirstMissing | eta/core/data.py:487 | None exactly when every required key is present; otherwise the position of the first missing one |
| DataRecord.FromDict | eta/core/data.py:471-489 | KeyError exactly when a required key is missing, naming the first missing required key; on success every attribute is a declared key copied from the dictionary, every declared key the dictionary holds (not no_default) is present, and, clean_optional having run, no optional attribute holds no_default |
| DataRecord.Attributes | eta/core/data.py:447-458 | a name is listed exactly when the base list has it and it is not excluded; a one-name list is kept or dropped whole |
| DataRecord.AttributesLength | eta/core/data.py:458 | the filtered list is never longer than the base list |
| DataRecord.AttributesNoneExcluded | eta/core/data.py:458 | with nothing in it excluded, the base list is returned as it is |
| DataRecord.AttributesConcat | eta/core/data.py:458 | the filter of a concatenation is the concatenation of the filters, so the kept names stay in the base list's order |
| DataRecord.AttributesCounts | eta/core/data.py:458 | a name that is not excluded appears as often as in the base list |
| DataRecord.FromDictPresentKeys | eta/core/data.py:471-489 | with every required key present, from_dict succeeds and keeps exactly the declared keys the dictionary holds, less an optional one holding no_default |
| DataRecord.FromDictIgnoresExtraKeys | eta/core/data.py:487-488 | keys other than the declared ones make no difference to from_dict |
| DataRecord.FirstMissingRestricted | eta/core/data.py:487 | the first missing required key depends only on which required keys are present |
| DataRecord.LabeledVideoWithoutGroup | eta/core/data.py:525-538 | a LabeledVideoRecord read from a dictionary without "group" has exactly the attributes video_path and label, with the dictionary's values, and no group attribute |
| DataRecord.LabeledVideoKeepsNullGroup | eta/core/data.py:460-468 | an explicit None group is kept; only the sentinel is deleted |
| DataRecord.LabeledVideoNeedsLabel | eta/core/data.py:487 | a LabeledVideoRecord dictionary with video_path but no label raises KeyError('label') |
| RecordContainer.Slice | eta/core/data.py:368-372 | AttributeError exactly when some record lacks the field; otherwise the column of the field: one value per record, in record order |
| RecordContainer.LookupIsLookup | eta/core/data.py:321-329 | the lookup's keys are the distinct values; each list holds exactly the positions of its value, ascending and non-empty |
| RecordContainer.LookupPartitionsPositions | eta/core/data.py:321-329 | every position lies in exactly one list of the lookup, and only once in it |
| RecordContainer.GroupFollowsLookup | eta/core/data.py:331-338 | the subsets have the lookup's keys, and under each key the records at that key's positions, in the same order |
| RecordContainer.FirstNotIn | eta/core/data.py:362-363 | None exactly when every keep value is present; otherwise the first keep value the lookup lacks |
| RecordContainer.CullPlan | eta/core/data.py:353-363 | non-empty remove values keep the present values not removed; an empty result or no criteria raises DataRecordsError; a keep value absent from the lookup raises KeyError; the keep set is non-empty and present |
| RecordContainer.KeepMatchingIndices | eta/core/data.py:360-364 | keeping the positions whose field is in the keep set keeps exactly the matching records, in order |
| RecordContainer.WhereKeyset | eta/core/data.py:340-366 | after the cull, the distinct values of the field are the keep set intersected with the values present before |
| RecordContainer.CullIndices | eta/core/data.py:360-363 | KeyError at the first keep value the lookup lacks; otherwise exactly the positions whose value is kept, each once when the keep values are distinct |
| RecordContainer.SetToSeq | eta/core/data.py:319 | list(set): the same elements, each once |
| RecordContainer.ParseRecords | eta/core/data.py:400 | the first record that fails raises its error; otherwise one record per entry, in order, each from_dict of its entry |
| RecordContainer.FromDictAsWritten | eta/core/data.py:393-400 | the loader as written: with an explicit class the records are parsed with it; a missing "records" key raises KeyError; with neither class nor tag DataRecordsError; with only the tag it succeeds exactly on an empty record list and otherwise raises AttributeError, since the tag is used as the class itself |
| RecordContainer.ResolveClass | eta/core/data.py:393-396 | corrected loader (see Findings): the explicit class if given; with neither a class nor a tag DataRecordsError; otherwise the class the tag names in the registry |
| RecordContainer.LoadRecords | eta/core/data.py:380-400 | corrected loader (see Findings), differing from the source only when the class comes from the tag: class errors and a missing "records" key propagate; on success the resolved class and one record per entry, in order; success exactly when every entry parses |
| RecordContainer.TagOnlyLoadAsWritten | eta/core/data.py:393-400 | a one-clip LabeledVideoRecord dictionary cannot be read back by its tag alone as written; with the tag resolved it reads back as itself |
| RecordContainer.ExplicitClassAgrees | eta/core/data.py:393-400 | with an explicit class both loaders read the same records |
| RecordContainer.DataRecords.constructor | eta/core/data.py:265-273 | the container holds the given class and records |
| RecordContainer.DataRecords.FromDict | eta/core/data.py:380-400 | corrected loader (see Findings): fails exactly as LoadRecords does; otherwise a fresh container with the class and records LoadRecords gives |
| RecordContainer.DataRecords.BuildKeyset | eta/core/data.py:312-319 | AttributeError exactly when some record lacks the field; otherwise the distinct values of the slice, each once |
| RecordContainer.DataRecords.BuildLookup | eta/core/data.py:321-329 | AttributeError exactly when some record lacks the field; otherwise Lookup of the slice |
| RecordContainer.DataRecords.BuildSubsets | eta/core/data.py:331-338 | AttributeError exactly when some record lacks the field; otherwise Group of the records |
| RecordContainer.DataRecords.KeepInds | eta/core/data.py:364 | keeps the records at the given positions, in their order |
| RecordContainer.DataRecords.SubsetFromIndices | eta/core/data.py:374-378 | a fresh container of the same class with the records at the given positions, in order |
| RecordContainer.DataRecords.Cull | eta/core/data.py:340-366 | a missing field raises AttributeError; a CullPlan error is raised with the records unchanged; otherwise exactly the records whose field is in the plan's keep set remain, in order, and their number is returned |

## Left out

- Disk scanning (`etau.parse_bounds_from_pattern`, `build_for_dir`): the bounds the scan would find are parameters of `Create`. `Create` requires the lower bound not to exceed the upper one, which the scan guarantees.
- Python's printf formatting `sequence % index`: a path is the symbolic term `Format(pattern, index)`.
- `DataFileSequence.extension` (`os.path.splitext`) is path string handling.
- `starts_at_zero` and `starts_at_one` only compare the lower bound with 0 and with 1.
- `DataFileSequence.from_dict` is a one-line wrapper over the constructor.
- `immutable_bounds` is a constant field: the source never reassigns it after construction.
- The generic container machinery of `etas.Container` is not shown: `add_container`, `keep_inds`, `extract_inds` and `__elements__`. `KeepInds` and `SubsetFromIndices` assume that the records at the given positions are kept in their original order, and duplicate positions are ignored.
- `add_dict` and `add_json`: they depend on `add_container`, which is not shown. `add_json` and `from_json` also read files.
- The reflective `DataContainer` class-name machinery (eta/core/data.py:30-99) is generic container code.
- The source does not resolve a tag to a class: it uses the value under "_RECORD_CLS" itself as the class (see Findings). The corrected loader `LoadRecords` resolves the tag through its `registry` parameter, which stands for a class-name lookup not shown here. `FromDictAsWritten` models the source as written.
- `Serializable.attributes()` (private-attribute filtering over the instance) is not part of this model. Its output is the `base` parameter of `Attributes`.
- `BaseDataRecord.__getitem__` is left out: it is `getattr` on the attribute map.
- Record values are JSON scalars without booleans and floats. In Python `True == 1` and `1 == 1.0` merge dictionary keys, which the model does not reproduce.
- Records are values. A record's attributes are never changed after construction in this core, so aliasing between containers is not modelled.
- Python's iteration order of a set: `BuildKeyset` and the remove branch of `Cull` promise the elements, each once, in some order.
- RecordContainer.Cull: when the keep values repeat a value, the model passes the repeated positions to `KeepInds`, which ignores repeats. The source's `keep_inds` behaviour for repeated positions is not shown.
- A record class object stored in memory under "_RECORD_CLS" is not modelled: the tag is a string, the only thing a dictionary read from JSON can hold there. With a class object under the tag, the source's loader works as written.
- The generic `RecordClass` constructor is assumed to store each parameter as the attribute of the same name and then run `clean_optional`, which is the shape of `LabeledVideoRecord.__init__`. Other constructors of record classes are not modelled.
- Concurrency is not modelled: there is none in the core.

## Findings

| source | as written | input that shows it | evidently intended | confidence | as-written member | corrected member |
|---|---|---|---|---|---|---|
| eta/core/data.py:393-400 | without `record_cls`, `d["_RECORD_CLS"]` itself is used as the record class and `rc.from_dict(r)` is called on it | a dictionary written for a LabeledVideoRecord container, whose "_RECORD_CLS" is the class name string "eta.core.data.LabeledVideoRecord" and whose "records" is non-empty: `str` has no `from_dict`, so AttributeError | the tag names the record class, which is resolved before the records are parsed | medium, not executed | RecordContainer.FromDictAsWritten (shown by RecordContainer.TagOnlyLoadAsWritten) | RecordContainer.LoadRecords |
