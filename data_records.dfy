/** DataRecords: an ordered container of records of one record class, with
    queries over one field (its values, their distinct set, the positions and
    the records grouped by value), the in-place cull, and the loader that
    picks the record class from an argument or from the dictionary's tag. */
module RecordContainer {
  import opened Common
  import opened DataRecord

  /** Every record has the attribute `field`, so `getattr` finds it. */
  ghost predicate HasField(rs: seq<Record>, field: string) {
    forall i :: 0 <= i < |rs| ==> field in rs[i]
  }

  /** The values of `field`, one per record, in record order. */
  ghost function Column(rs: seq<Record>, field: string): seq<Value>
    requires HasField(rs, field)
  {
    seq(|rs|, i requires 0 <= i < |rs| => rs[i][field])
  }

  lemma ColumnPrefix(rs: seq<Record>, field: string, n: nat)
    requires HasField(rs, field) && n <= |rs|
    ensures HasField(rs[..n], field) && Column(rs[..n], field) == Column(rs, field)[..n]
  {
  }

  /** `slice(field)`: the list comprehension of `getattr(r, field)`, which
      raises AttributeError when a record lacks the field. */
  function Slice(rs: seq<Record>, field: string): (r: Result<seq<Value>>)
    ensures r.Ok? <==> HasField(rs, field)
    ensures r.Err? ==> r.error == AttributeError(field)
    ensures r.Ok? ==> r.value == Column(rs, field)
  {
    if rs == [] then Ok([])
    else if field !in rs[0] then Err(AttributeError(field))
    else match Slice(rs[1..], field)
      case Err(e) => Err(e)
      case Ok(tail) => Ok([rs[0][field]] + tail)
  }

  predicate Ascending(s: seq<nat>) {
    forall a, b :: 0 <= a < b < |s| ==> s[a] < s[b]
  }

  /** `lud[v].append(i)` on a `defaultdict(list)`. */
  function AddPosition(m: map<Value, seq<nat>>, v: Value, i: nat): map<Value, seq<nat>> {
    m[v := (if v in m then m[v] else []) + [i]]
  }

  /** The dictionary `build_lookup` fills, one appended position at a time. */
  function Lookup(vals: seq<Value>): map<Value, seq<nat>> {
    if vals == [] then map[]
    else AddPosition(Lookup(vals[..|vals| - 1]), vals[|vals| - 1], |vals| - 1)
  }

  /** The positions listed under each key lie in `vals` and hold that key. */
  ghost predicate PositionsHoldKey(vals: seq<Value>, m: map<Value, seq<nat>>) {
    forall v, k :: v in m && 0 <= k < |m[v]| ==> m[v][k] < |vals| && vals[m[v][k]] == v
  }

  /** Every position is listed under its own value. */
  ghost predicate EveryPositionListed(vals: seq<Value>, m: map<Value, seq<nat>>) {
    forall j :: 0 <= j < |vals| ==> vals[j] in m && j in m[vals[j]]
  }

  ghost predicate ListsAscending(m: map<Value, seq<nat>>) {
    forall v :: v in m ==> m[v] != [] && Ascending(m[v])
  }

  /** `m` groups the positions of `vals` by value: its keys are the distinct
      values; the list of a value holds exactly the positions where it
      occurs, ascending and never empty, so every position lies in exactly
      one list. */
  ghost predicate IsLookup(vals: seq<Value>, m: map<Value, seq<nat>>) {
    && m.Keys == Elements(vals)
    && PositionsHoldKey(vals, m)
    && EveryPositionListed(vals, m)
    && ListsAscending(m)
  }

  lemma ElementsSnoc(s: seq<Value>, v: Value)
    ensures Elements(s + [v]) == Elements(s) + {v}
  {
    assert forall x :: x in s + [v] <==> x in s || x == v;
  }

  lemma AddPositionHoldsKey(pre: seq<Value>, v: Value, m: map<Value, seq<nat>>)
    requires PositionsHoldKey(pre, m)
    ensures PositionsHoldKey(pre + [v], AddPosition(m, v, |pre|))
  {
    var m' := AddPosition(m, v, |pre|);
    var vals := pre + [v];
    forall u, k | u in m' && 0 <= k < |m'[u]|
      ensures m'[u][k] < |vals| && vals[m'[u][k]] == u
    {
      if u != v {
        assert m'[u][k] == m[u][k];
      } else if v in m && k < |m[v]| {
        assert m'[u][k] == m[v][k];
      }
    }
  }

  lemma AddPositionListsAll(pre: seq<Value>, v: Value, m: map<Value, seq<nat>>)
    requires EveryPositionListed(pre, m)
    ensures EveryPositionListed(pre + [v], AddPosition(m, v, |pre|))
  {
    var m' := AddPosition(m, v, |pre|);
    var vals := pre + [v];
    forall j | 0 <= j < |vals|
      ensures vals[j] in m' && j in m'[vals[j]]
    {
      if j < |pre| {
        assert vals[j] == pre[j];
        if pre[j] == v {
          assert m'[v] == m[v] + [|pre|];
        }
      }
    }
  }

  lemma AddPositionAscending(pre: seq<Value>, v: Value, m: map<Value, seq<nat>>)
    requires PositionsHoldKey(pre, m) && ListsAscending(m)
    ensures ListsAscending(AddPosition(m, v, |pre|))
  {
    if v in m {
      assert forall k :: 0 <= k < |m[v]| ==> m[v][k] < |pre|;
    }
  }

  lemma {:induction false} LookupIsLookup(vals: seq<Value>)
    ensures IsLookup(vals, Lookup(vals))
  {
    if vals != [] {
      var n := |vals| - 1;
      var pre, v := vals[..n], vals[n];
      assert vals == pre + [v];
      LookupIsLookup(pre);
      ElementsSnoc(pre, v);
      AddPositionHoldsKey(pre, v, Lookup(pre));
      AddPositionListsAll(pre, v, Lookup(pre));
      AddPositionAscending(pre, v, Lookup(pre));
    }
  }

  /** In the lookup every position lies in exactly one list, and only once
      in it. */
  lemma LookupPartitionsPositions(vals: seq<Value>, j: nat)
    requires j < |vals|
    ensures vals[j] in Lookup(vals) && j in Lookup(vals)[vals[j]]
    ensures forall u :: u in Lookup(vals) && j in Lookup(vals)[u] ==> u == vals[j]
    ensures NoDuplicates(Lookup(vals)[vals[j]])
  {
    var m := Lookup(vals);
    LookupIsLookup(vals);
    forall u | u in m && j in m[u]
      ensures u == vals[j]
    {
      InLookupList(vals, m, u, j);
    }
    AscendingNoDuplicates(m[vals[j]]);
  }

  /** `sss[v].append(r)` on a `defaultdict(list)`. */
  function AddRecord(g: map<Value, seq<Record>>, v: Value, r: Record): map<Value, seq<Record>> {
    g[v := (if v in g then g[v] else []) + [r]]
  }

  /** The dictionary `build_subsets` fills, one appended record at a time. */
  ghost function Group(rs: seq<Record>, field: string): map<Value, seq<Record>>
    requires HasField(rs, field)
  {
    if rs == [] then map[]
    else AddRecord(Group(rs[..|rs| - 1], field), rs[|rs| - 1][field], rs[|rs| - 1])
  }

  /** `g` holds, under each key of `m`, the records at the positions `m`
      lists for it, in the same order. */
  ghost predicate GroupedAs(rs: seq<Record>, g: map<Value, seq<Record>>, m: map<Value, seq<nat>>) {
    && g.Keys == m.Keys
    && forall v :: v in g ==>
         && |g[v]| == |m[v]|
         && forall k :: 0 <= k < |g[v]| ==> m[v][k] < |rs| && g[v][k] == rs[m[v][k]]
  }

  lemma AddRecordGroupedAs(pre: seq<Record>, g: map<Value, seq<Record>>, m: map<Value, seq<nat>>, v: Value, r: Record)
    requires GroupedAs(pre, g, m)
    ensures GroupedAs(pre + [r], AddRecord(g, v, r), AddPosition(m, v, |pre|))
  {
    var rs := pre + [r];
    var g', m' := AddRecord(g, v, r), AddPosition(m, v, |pre|);
    forall u | u in g'
      ensures |g'[u]| == |m'[u]|
      ensures forall k :: 0 <= k < |g'[u]| ==> m'[u][k] < |rs| && g'[u][k] == rs[m'[u][k]]
    {
      if u != v {
        assert g'[u] == g[u] && m'[u] == m[u];
      } else {
        var gold: seq<Record> := if v in g then g[v] else [];
        var mold: seq<nat> := if v in m then m[v] else [];
        assert g'[u] == gold + [r] && m'[u] == mold + [|pre|];
        assert |gold| == |mold|;
        forall k | 0 <= k < |g'[u]|
          ensures m'[u][k] < |rs| && g'[u][k] == rs[m'[u][k]]
        {
          if k < |gold| {
            assert g'[u][k] == g[v][k] && m'[u][k] == m[v][k];
          }
        }
      }
    }
  }

  /** `build_subsets` groups like `build_lookup`: the same keys, and under
      each key the records at that key's positions, in the same order. */
  lemma {:induction false} GroupFollowsLookup(rs: seq<Record>, field: string)
    requires HasField(rs, field)
    ensures GroupedAs(rs, Group(rs, field), Lookup(Column(rs, field)))
  {
    if rs != [] {
      var n := |rs| - 1;
      var pre := rs[..n];
      GroupFollowsLookup(pre, field);
      ColumnPrefix(rs, field, n);
      var vals := Column(rs, field);
      assert vals[..n] == Column(pre, field);
      assert rs == pre + [rs[n]];
      AddRecordGroupedAs(pre, Group(pre, field), Lookup(Column(pre, field)), vals[n], rs[n]);
    }
  }

  /** The position of the first element of `s` not in `present`, if any. */
  function FirstNotIn(s: seq<Value>, present: set<Value>): (r: Option<nat>)
    ensures r.None? <==> forall v :: v in s ==> v in present
    ensures r.Some? ==> r.value < |s| && s[r.value] !in present
    ensures r.Some? ==> forall j :: 0 <= j < r.value ==> s[j] in present
  {
    if s == [] then None
    else if s[0] !in present then Some(0)
    else match FirstNotIn(s[1..], present)
      case None => None
      case Some(i) => Some(i + 1)
  }

  /** What `cull` decides before it touches the container: the set of values
      to keep, or the error it raises. Non-empty remove values select every
      present value not removed; otherwise the keep values are used. No (or
      no remaining) value to keep is a DataRecordsError; a keep value that no
      record has is a KeyError of the lookup dictionary. */
  function CullPlan(vals: seq<Value>, keepValues: Option<seq<Value>>, removeValues: Option<seq<Value>>)
    : (r: Result<set<Value>>)
    ensures r.Ok? ==> r.value != {} && r.value <= Elements(vals)
    ensures removeValues.Some? && removeValues.value != [] ==>
      (r.Ok? <==> exists v :: v in vals && v !in removeValues.value) &&
      (r.Ok? ==> r.value == Elements(vals) - Elements(removeValues.value)) &&
      (r.Err? ==> r.error == DataRecordsError(NoCullCriteria))
    ensures (removeValues.None? || removeValues.value == []) && (keepValues.None? || keepValues.value == []) ==>
      r == Err(DataRecordsError(NoCullCriteria))
    ensures (removeValues.None? || removeValues.value == []) && keepValues.Some? && keepValues.value != [] ==>
      (r.Ok? <==> forall v :: v in keepValues.value ==> v in vals) &&
      (r.Ok? ==> r.value == Elements(keepValues.value)) &&
      (r.Err? ==> r.error.KeyError? && r.error.key in keepValues.value && r.error.key !in vals)
  {
    if removeValues.Some? && removeValues.value != [] then
      var keep := Elements(vals) - Elements(removeValues.value);
      assert forall v :: v in keep <==> v in vals && v !in removeValues.value;
      if keep == {} then Err(DataRecordsError(NoCullCriteria)) else Ok(keep)
    else if keepValues.None? || keepValues.value == [] then
      Err(DataRecordsError(NoCullCriteria))
    else match FirstNotIn(keepValues.value, Elements(vals))
      case Some(i) => Err(KeyError(keepValues.value[i]))
      case None =>
        assert keepValues.value[0] in Elements(keepValues.value);
        Ok(Elements(keepValues.value))
  }

  /** The records at the given positions, in their original order. */
  function KeepIndices(rs: seq<Record>, inds: set<nat>): seq<Record> {
    if rs == [] then []
    else KeepIndices(rs[..|rs| - 1], inds) + (if |rs| - 1 in inds then [rs[|rs| - 1]] else [])
  }

  /** The records whose `field` is one of `keep`, in their original order. */
  ghost function Where(rs: seq<Record>, field: string, keep: set<Value>): seq<Record>
    requires HasField(rs, field)
  {
    if rs == [] then []
    else Where(rs[..|rs| - 1], field, keep) + (if rs[|rs| - 1][field] in keep then [rs[|rs| - 1]] else [])
  }

  /** Keeping the positions whose field is in `keep` keeps exactly the
      records whose field is in `keep`. */
  lemma {:induction false} KeepMatchingIndices(rs: seq<Record>, field: string, keep: set<Value>, inds: set<nat>)
    requires HasField(rs, field)
    requires forall j :: 0 <= j < |rs| ==> (j in inds <==> rs[j][field] in keep)
    ensures KeepIndices(rs, inds) == Where(rs, field, keep)
  {
    if rs != [] {
      KeepMatchingIndices(rs[..|rs| - 1], field, keep, inds);
    }
  }

  /** After keeping the records whose field is in `keep`, the distinct
      values of the field are exactly the kept values that occurred. */
  lemma {:induction false} WhereKeyset(rs: seq<Record>, field: string, keep: set<Value>)
    requires HasField(rs, field)
    ensures HasField(Where(rs, field, keep), field)
    ensures Elements(Column(Where(rs, field, keep), field)) == keep * Elements(Column(rs, field))
  {
    if rs != [] {
      var n := |rs| - 1;
      var pre := rs[..n];
      WhereKeyset(pre, field, keep);
      var w := Where(pre, field, keep);
      var tail: seq<Record> := if rs[n][field] in keep then [rs[n]] else [];
      assert Where(rs, field, keep) == w + tail;
      ColumnConcat(w, tail, field);
      ElementsConcat(Column(w, field), Column(tail, field));
      assert rs == pre + [rs[n]];
      ColumnConcat(pre, [rs[n]], field);
      ElementsConcat(Column(pre, field), Column([rs[n]], field));
      assert Column([rs[n]], field) == [rs[n][field]];
      ElementsSnoc([], rs[n][field]);
    }
  }

  lemma ColumnConcat(a: seq<Record>, b: seq<Record>, field: string)
    requires HasField(a, field) && HasField(b, field)
    ensures HasField(a + b, field) && Column(a + b, field) == Column(a, field) + Column(b, field)
  {
  }

  lemma ElementsConcat(s: seq<Value>, t: seq<Value>)
    ensures Elements(s + t) == Elements(s) + Elements(t)
  {
    assert forall x :: x in s + t <==> x in s || x in t;
  }

  lemma NoDuplicatesConcat(a: seq<nat>, b: seq<nat>)
    requires NoDuplicates(a) && NoDuplicates(b)
    requires forall x :: x in a ==> x !in b
    ensures NoDuplicates(a + b)
  {
    forall i, j | 0 <= i < j < |a + b|
      ensures (a + b)[i] != (a + b)[j]
    {
      if j >= |a| && i < |a| {
        assert (a + b)[i] in a && (a + b)[j] in b;
      }
    }
  }

  /** `inds` holds exactly the positions of `vals` whose value is in `ks`. */
  ghost predicate Gathers(vals: seq<Value>, inds: seq<nat>, ks: seq<Value>) {
    && (forall j :: j in inds ==> j < |vals| && vals[j] in ks)
    && (forall j :: 0 <= j < |vals| && vals[j] in ks ==> j in inds)
  }

  /** Appending the lookup list of one more value gathers its positions too;
      a value not gathered before adds no position twice. */
  lemma GatherStep(vals: seq<Value>, m: map<Value, seq<nat>>, inds: seq<nat>, ks: seq<Value>, v: Value)
    requires m == Lookup(vals) && v in m && Gathers(vals, inds, ks)
    ensures Gathers(vals, inds + m[v], ks + [v])
    ensures v !in ks && NoDuplicates(inds) ==> NoDuplicates(inds + m[v])
  {
    LookupIsLookup(vals);
    forall j | j in m[v]
      ensures j < |vals| && vals[j] == v
    {
      InLookupList(vals, m, v, j);
    }
    if v !in ks && NoDuplicates(inds) {
      AscendingNoDuplicates(m[v]);
      NoDuplicatesConcat(inds, m[v]);
    }
  }

  lemma LookupKeys(vals: seq<Value>)
    ensures Lookup(vals).Keys == Elements(vals)
  {
    LookupIsLookup(vals);
  }

  lemma InLookupList(vals: seq<Value>, m: map<Value, seq<nat>>, v: Value, j: nat)
    requires IsLookup(vals, m) && v in m && j in m[v]
    ensures j < |vals| && vals[j] == v
  {
    var k :| 0 <= k < |m[v]| && m[v][k] == j;
  }

  lemma AscendingNoDuplicates(s: seq<nat>)
    requires Ascending(s)
    ensures NoDuplicates(s)
  {
  }

  lemma FirstNotInAt(s: seq<Value>, present: set<Value>, i: nat)
    requires i < |s| && s[i] !in present
    requires forall k :: 0 <= k < i ==> s[k] in present
    ensures FirstNotIn(s, present) == Some(i)
  {
    assert FirstNotIn(s, present).Some?;
  }

  /** The loop of `cull` that gathers `lud[v]` for every keep value: KeyError
      at the first value the lookup lacks; otherwise exactly the positions
      whose value is kept, each once when the keep values are distinct. */
  method CullIndices(ghost vals: seq<Value>, lud: map<Value, seq<nat>>, keep: seq<Value>)
    returns (r: Result<seq<nat>>)
    requires lud == Lookup(vals)
    ensures r.Err? <==> FirstNotIn(keep, Elements(vals)).Some?
    ensures r.Err? ==> r.error == KeyError(keep[FirstNotIn(keep, Elements(vals)).value])
    ensures r.Ok? ==> forall j :: j in r.value <==> 0 <= j < |vals| && vals[j] in keep
    ensures r.Ok? && NoDuplicates(keep) ==> NoDuplicates(r.value)
  {
    LookupKeys(vals);
    var inds: seq<nat> := [];
    for i := 0 to |keep|
      invariant forall k :: 0 <= k < i ==> keep[k] in Elements(vals)
      invariant Gathers(vals, inds, keep[..i])
      invariant NoDuplicates(keep) ==> NoDuplicates(inds)
    {
      var v := keep[i];
      if v !in lud {
        FirstNotInAt(keep, Elements(vals), i);
        return Err(KeyError(v));
      }
      GatherStep(vals, lud, inds, keep[..i], v);
      assert keep[..i + 1] == keep[..i] + [v];
      inds := inds + lud[v];
    }
    assert keep[..|keep|] == keep;
    r := Ok(inds);
  }

  /** `list(keys)`: the elements of a set, each once, in some order. */
  method SetToSeq(s: set<Value>) returns (r: seq<Value>)
    ensures Elements(r) == s && NoDuplicates(r)
  {
    r := [];
    var rest := s;
    while rest != {}
      invariant rest !! Elements(r) && rest + Elements(r) == s
      invariant NoDuplicates(r)
      decreases |rest|
    {
      var x :| x in rest;
      r := r + [x];
      rest := rest - {x};
    }
  }

  /** A serialized DataRecords dictionary: the value under "_RECORD_CLS"
      (None when absent or null) and the list under "records" (None when
      the key is absent). */
  datatype RecordsDict = RecordsDict(recordClsTag: Option<string>, records: Option<seq<Record>>)

  /** What a loaded container holds. */
  datatype Contents = Contents(recordCls: RecordClass, records: seq<Record>)

  /** Evaluating a list comprehension of results in order: the first error
      is raised; otherwise the list of all values. */
  function AllOk<T>(results: seq<Result<T>>): (r: Result<seq<T>>)
    ensures r.Ok? <==> forall i :: 0 <= i < |results| ==> results[i].Ok?
    ensures r.Ok? ==> |r.value| == |results| && forall i :: 0 <= i < |results| ==> results[i] == Ok(r.value[i])
    ensures r.Err? ==> exists i :: 0 <= i < |results| && results[i] == Err(r.error) &&
                                   forall j :: 0 <= j < i ==> results[j].Ok?
  {
    if results == [] then Ok([])
    else match results[0]
      case Err(e) => Err(e)
      case Ok(first) =>
        match AllOk(results[1..])
        case Err(e) => assert results[1..][0] == results[1]; Err(e)
        case Ok(rest) => Ok([first] + rest)
  }

  /** `[rc.from_dict(r) for r in records]`: the first record that fails
      raises its error; otherwise one record per entry, in order. */
  function ParseRecords(cls: RecordClass, rs: seq<Record>): (r: Result<seq<Record>>)
    ensures r.Ok? <==> forall i :: 0 <= i < |rs| ==> FromDict(cls, rs[i]).Ok?
    ensures r.Ok? ==> |r.value| == |rs| && forall i :: 0 <= i < |rs| ==> FromDict(cls, rs[i]) == Ok(r.value[i])
    ensures r.Err? ==> exists i :: 0 <= i < |rs| && FromDict(cls, rs[i]) == Err(r.error) &&
                                   forall j :: 0 <= j < i ==> FromDict(cls, rs[j]).Ok?
  {
    var results := seq(|rs|, i requires 0 <= i < |rs| => FromDict(cls, rs[i]));
    assert forall i :: 0 <= i < |rs| ==> results[i] == FromDict(cls, rs[i]);
    AllOk(results)
  }

  /** `DataRecords.from_dict` as written: without an explicit class it takes
      the tag itself as the class, but in a dictionary read from JSON the tag
      is a class name, a string, and `str` has no `from_dict`. */
  function FromDictAsWritten(d: RecordsDict, recordCls: Option<RecordClass>): (r: Result<seq<Record>>)
    ensures recordCls.Some? && d.records.Some? ==> r == ParseRecords(recordCls.value, d.records.value)
    ensures d.records.None? && (recordCls.Some? || d.recordClsTag.Some?) ==> r == Err(KeyError(Str("records")))
    ensures recordCls.None? && d.recordClsTag.None? ==> r == Err(DataRecordsError(NoRecordClass))
    ensures recordCls.None? && d.recordClsTag.Some? && d.records.Some? ==>
      (r.Ok? <==> d.records.value == []) && (r.Err? ==> r.error == AttributeError("from_dict"))
  {
    if recordCls.Some? then
      if d.records.None? then Err(KeyError(Str("records")))
      else ParseRecords(recordCls.value, d.records.value)
    else if d.recordClsTag.None? then Err(DataRecordsError(NoRecordClass))
    else if d.records.None? then Err(KeyError(Str("records")))
    else if d.records.value == [] then Ok([])
    else Err(AttributeError("from_dict"))
  }

  /** The record class the loader uses: the explicit one, else the class the
      tag names in `registry` (the class-name resolver). */
  function ResolveClass(d: RecordsDict, recordCls: Option<RecordClass>, registry: map<string, RecordClass>)
    : (r: Result<RecordClass>)
    ensures recordCls.Some? ==> r == Ok(recordCls.value)
    ensures recordCls.None? && d.recordClsTag.None? ==> r == Err(DataRecordsError(NoRecordClass))
    ensures recordCls.None? && d.recordClsTag.Some? ==>
      r == if d.recordClsTag.value in registry then Ok(registry[d.recordClsTag.value])
           else Err(ClassNotFound(d.recordClsTag.value))
  {
    if recordCls.Some? then Ok(recordCls.value)
    else if d.recordClsTag.None? then Err(DataRecordsError(NoRecordClass))
    else if d.recordClsTag.value !in registry then Err(ClassNotFound(d.recordClsTag.value))
    else Ok(registry[d.recordClsTag.value])
  }

  /** `DataRecords.from_dict` with the tag resolved: the record class, and
      one record per entry of "records", in order. */
  function LoadRecords(d: RecordsDict, recordCls: Option<RecordClass>, registry: map<string, RecordClass>)
    : (r: Result<Contents>)
    ensures ResolveClass(d, recordCls, registry).Err? ==> r == Err(ResolveClass(d, recordCls, registry).error)
    ensures ResolveClass(d, recordCls, registry).Ok? && d.records.None? ==> r == Err(KeyError(Str("records")))
    ensures r.Ok? ==> ResolveClass(d, recordCls, registry) == Ok(r.value.recordCls) && d.records.Some?
    ensures r.Ok? ==> |r.value.records| == |d.records.value|
    ensures r.Ok? ==> forall i :: 0 <= i < |d.records.value| ==>
                        FromDict(r.value.recordCls, d.records.value[i]) == Ok(r.value.records[i])
    ensures ResolveClass(d, recordCls, registry).Ok? && d.records.Some? ==>
      (r.Ok? <==> forall i :: 0 <= i < |d.records.value| ==>
                    FromDict(ResolveClass(d, recordCls, registry).value, d.records.value[i]).Ok?)
  {
    match ResolveClass(d, recordCls, registry)
    case Err(e) => Err(e)
    case Ok(rc) =>
      if d.records.None? then Err(KeyError(Str("records")))
      else match ParseRecords(rc, d.records.value)
        case Err(e) => Err(e)
        case Ok(rs) => Ok(Contents(rc, rs))
  }

  /** The dictionary a LabeledVideoRecord container is written as: one clip,
      with the record class stored under its name. */
  const CLIP_DICT := RecordsDict(
    Some("eta.core.data.LabeledVideoRecord"),
    Some([map["video_path" := Str("clip.mp4"), "label" := Str("cat")]]))

  /** The loader as written cannot read that dictionary back without an
      explicit record class; with the tag resolved it can. */
  lemma TagOnlyLoadAsWritten()
    ensures FromDictAsWritten(CLIP_DICT, None) == Err(AttributeError("from_dict"))
    ensures LoadRecords(CLIP_DICT, None, map["eta.core.data.LabeledVideoRecord" := LABELED_VIDEO_RECORD]) ==
      Ok(Contents(LABELED_VIDEO_RECORD, CLIP_DICT.records.value))
  {
    var rec := CLIP_DICT.records.value[0];
    LabeledVideoWithoutGroup(rec);
    var fd := FromDict(LABELED_VIDEO_RECORD, rec);
    assert fd.value == rec;
    var pr := ParseRecords(LABELED_VIDEO_RECORD, CLIP_DICT.records.value);
    assert pr.Ok? && pr.value[0] == rec;
    assert pr.value == CLIP_DICT.records.value;
  }

  /** Given the class explicitly, both read the same records. */
  lemma ExplicitClassAgrees(d: RecordsDict, cls: RecordClass, registry: map<string, RecordClass>)
    ensures FromDictAsWritten(d, Some(cls)).Ok? <==> LoadRecords(d, Some(cls), registry).Ok?
    ensures FromDictAsWritten(d, Some(cls)).Ok? ==>
      LoadRecords(d, Some(cls), registry).value == Contents(cls, FromDictAsWritten(d, Some(cls)).value)
  {
  }

  class DataRecords {
    var recordCls: RecordClass
    var records: seq<Record>

    /** `DataRecords(record_cls, records=...)`. */
    constructor (recordCls: RecordClass, records: seq<Record>)
      ensures this.recordCls == recordCls && this.records == records
    {
      this.recordCls := recordCls;
      this.records := records;
    }

    /** `from_dict`, building the container `LoadRecords` describes. */
    static method FromDict(d: RecordsDict, recordCls: Option<RecordClass>, registry: map<string, RecordClass>)
      returns (r: Result<DataRecords>)
      ensures r.Err? <==> LoadRecords(d, recordCls, registry).Err?
      ensures r.Err? ==> r.error == LoadRecords(d, recordCls, registry).error
      ensures r.Ok? ==> fresh(r.value)
      ensures r.Ok? ==> Contents(r.value.recordCls, r.value.records) == LoadRecords(d, recordCls, registry).value
    {
      match LoadRecords(d, recordCls, registry)
      case Err(e) =>
        r := Err(e);
      case Ok(c) =>
        var container := new DataRecords(c.recordCls, c.records);
        r := Ok(container);
    }

    /** `build_keyset(field)`: the distinct values of the field, each once. */
    method BuildKeyset(field: string) returns (r: Result<seq<Value>>)
      ensures r.Err? <==> !HasField(records, field)
      ensures r.Err? ==> r.error == AttributeError(field)
      ensures r.Ok? ==> Elements(r.value) == Elements(Column(records, field)) && NoDuplicates(r.value)
    {
      var keys: set<Value> := {};
      for i := 0 to |records|
        invariant forall k :: 0 <= k < i ==> field in records[k]
        invariant keys == set k | 0 <= k < i :: records[k][field]
      {
        if field !in records[i] {
          return Err(AttributeError(field));
        }
        keys := keys + {records[i][field]};
      }
      assert Elements(Column(records, field)) == keys by {
        forall v | v in keys ensures v in Column(records, field) {
          var k :| 0 <= k < |records| && records[k][field] == v;
          assert Column(records, field)[k] == v;
        }
      }
      var list := SetToSeq(keys);
      r := Ok(list);
    }

    /** `build_lookup(field)`: the positions of the records, grouped by the
      value of the field (the properties are those of `Lookup`). */
    method BuildLookup(field: string) returns (r: Result<map<Value, seq<nat>>>)
      ensures r.Err? <==> !HasField(records, field)
      ensures r.Err? ==> r.error == AttributeError(field)
      ensures r.Ok? ==> r.value == Lookup(Column(records, field))
    {
      var lud: map<Value, seq<nat>> := map[];
      ghost var vals: seq<Value> := [];
      for i := 0 to |records|
        invariant |vals| == i
        invariant forall k :: 0 <= k < i ==> field in records[k] && vals[k] == records[k][field]
        invariant lud == Lookup(vals)
      {
        if field !in records[i] {
          return Err(AttributeError(field));
        }
        var v := records[i][field];
        assert (vals + [v])[..i] == vals;
        vals := vals + [v];
        lud := AddPosition(lud, v, i);
      }
      assert vals == Column(records, field);
      r := Ok(lud);
    }

    /** `build_subsets(field)`: the records grouped by the value of the field
      (`GroupFollowsLookup` relates it to the lookup). */
    method BuildSubsets(field: string) returns (r: Result<map<Value, seq<Record>>>)
      ensures r.Err? <==> !HasField(records, field)
      ensures r.Err? ==> r.error == AttributeError(field)
      ensures r.Ok? ==> r.value == Group(records, field)
    {
      var sss: map<Value, seq<Record>> := map[];
      for i := 0 to |records|
        invariant HasField(records[..i], field)
        invariant sss == Group(records[..i], field)
      {
        if field !in records[i] {
          assert !HasField(records, field);
          return Err(AttributeError(field));
        }
        var rec := records[i];
        assert records[..i + 1][..i] == records[..i];
        sss := AddRecord(sss, rec[field], rec);
      }
      assert records[..|records|] == records;
      r := Ok(sss);
    }

    /** `keep_inds` (of the generic container, not part of this model): taken
        to keep the records at the given positions, in their original order. */
    method KeepInds(inds: seq<nat>)
      modifies this`records
      ensures records == KeepIndices(old(records), Elements(inds))
    {
      records := KeepIndices(records, Elements(inds));
    }

    /** `subset_from_indices`: a new container of the records at the given
        positions (the generic `extract_inds`, taken to keep order); this one
        is left as it is. */
    method SubsetFromIndices(inds: seq<nat>) returns (sub: DataRecords)
      ensures fresh(sub) && sub.recordCls == recordCls
      ensures sub.records == KeepIndices(records, Elements(inds))
    {
      sub := new DataRecords(recordCls, KeepIndices(records, Elements(inds)));
    }

    /** `cull(field, keep_values, remove_values)`: on success keeps exactly the
      records whose field has a value of the plan, in order, and returns the
      new length; on any error the container is unchanged. */
    method Cull(field: string, keepValues: Option<seq<Value>>, removeValues: Option<seq<Value>>)
      returns (r: Result<nat>)
      modifies this`records
      ensures !HasField(old(records), field) ==> r == Err(AttributeError(field)) && records == old(records)
      ensures HasField(old(records), field) ==>
        match CullPlan(Column(old(records), field), keepValues, removeValues)
        case Err(e) => r == Err(e) && records == old(records)
        case Ok(keep) => records == Where(old(records), field, keep) && r == Ok(|records|)
    {
      var lud := BuildLookup(field);
      if lud.Err? {
        return Err(lud.error);
      }
      ghost var vals := Column(records, field);
      LookupIsLookup(vals);
      ghost var plan := CullPlan(vals, keepValues, removeValues);
      var keep: seq<Value>;
      if removeValues.Some? && removeValues.value != [] {
        keep := SetToSeq(lud.value.Keys - Elements(removeValues.value));
        assert forall v :: v in keep ==> v in Elements(keep);
        assert lud.value.Keys == Elements(vals);
        if keep != [] {
          assert keep[0] in Elements(keep);
        }
        assert plan == if keep == [] then Err(DataRecordsError(NoCullCriteria)) else Ok(Elements(keep));
      } else if keepValues.Some? {
        keep := keepValues.value;
      } else {
        keep := [];
      }
      if keep == [] {
        return Err(DataRecordsError(NoCullCriteria));
      }
      var inds := CullIndices(vals, lud.value, keep);
      if inds.Err? {
        return Err(inds.error);
      }
      assert plan == Ok(Elements(keep));
      forall j | 0 <= j < |records|
        ensures j in Elements(inds.value) <==> records[j][field] in Elements(keep)
      {
        assert vals[j] == records[j][field];
      }
      KeepMatchingIndices(records, field, Elements(keep), Elements(inds.value));
      KeepInds(inds.value);
      r := Ok(|records|);
    }
  }
}
