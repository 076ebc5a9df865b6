/** BaseDataRecord: a record whose class declares required, optional and
    excluded field names, built from a dictionary and pruned of optional
    fields still holding the `no_default` sentinel. */
module DataRecord {
  import opened Common

  /** A record class as the model sees it: its declared field lists. Its
      constructor takes each required field as a parameter, each optional
      one as a parameter defaulting to `no_default`, stores every parameter
      as the attribute of the same name, and then runs `clean_optional`
      (the shape of LabeledVideoRecord.__init__). */
  datatype RecordClass = RecordClass(
    name: string,
    required: seq<string>,
    optional: seq<string>,
    excluded: seq<string>)

  const LABELED_VIDEO_RECORD :=
    RecordClass("eta.core.data.LabeledVideoRecord", ["video_path", "label"], ["group"], [])

  /** The attributes `clean_optional` leaves: it deletes exactly the optional
      attributes still holding `no_default`; everything else, an explicit
      `None` included, stays with its value. */
  function Cleaned(attrs: Record, optional: seq<string>): (r: Record)
    ensures forall k :: k in r ==> k in attrs && r[k] == attrs[k]
    ensures forall k :: k in attrs && attrs[k] != NoDefault ==> k in r
    ensures forall k :: k in attrs && k !in optional ==> k in r
    ensures forall o :: o in optional && o in r ==> r[o] != NoDefault
  {
    map k | k in attrs && !(k in optional && attrs[k] == NoDefault) :: attrs[k]
  }

  /** `clean_optional`: the loop over `optional()` that deletes each optional
      attribute whose value is the sentinel. */
  method CleanOptional(attrs: Record, optional: seq<string>) returns (r: Record)
    ensures r == Cleaned(attrs, optional)
  {
    r := attrs;
    for j := 0 to |optional|
      invariant r == Cleaned(attrs, optional[..j])
    {
      var o := optional[j];
      assert optional[..j + 1] == optional[..j] + [o];
      if o in r && r[o] == NoDefault {
        r := map k | k in r && k != o :: r[k];
      }
    }
    assert optional[..|optional|] == optional;
  }

  /** The attributes a constructor stores before it cleans them. */
  function InitialAttrs(cls: RecordClass, kwargs: Record): Record {
    map k | k in cls.required + cls.optional :: if k in kwargs then kwargs[k] else NoDefault
  }

  /** `cls(**kwargs)`: the arguments must bind (every required parameter
      given, no unknown keyword), else TypeError. */
  function Construct(cls: RecordClass, kwargs: Record): (r: Result<Record>)
    ensures r.Err? <==>
      (exists k :: k in kwargs && k !in cls.required && k !in cls.optional) ||
      (exists k :: k in cls.required && k !in kwargs)
    ensures r.Err? ==> r.error == TypeError
    ensures r.Ok? ==> forall k :: k in r.value ==>
                        (k in cls.required || k in cls.optional) && k in kwargs && r.value[k] == kwargs[k]
    ensures r.Ok? ==> forall k :: k in cls.required && k !in cls.optional ==> k in r.value
    ensures r.Ok? ==> forall k :: k in kwargs && kwargs[k] != NoDefault ==> k in r.value
    ensures r.Ok? ==> forall o :: o in cls.optional && o in r.value ==> r.value[o] != NoDefault
  {
    if (exists k :: k in kwargs && k !in cls.required && k !in cls.optional) ||
       (exists k :: k in cls.required && k !in kwargs)
    then Err(TypeError)
    else Ok(Cleaned(InitialAttrs(cls, kwargs), cls.optional))
  }

  /** The position in `keys` of the first key missing from `d`, if any. */
  function FirstMissing(keys: seq<string>, d: Record): (r: Option<nat>)
    ensures r.None? <==> forall k :: k in keys ==> k in d
    ensures r.Some? ==> r.value < |keys| && keys[r.value] !in d
    ensures r.Some? ==> forall j :: 0 <= j < r.value ==> keys[j] in d
  {
    if keys == [] then None
    else if keys[0] !in d then Some(0)
    else match FirstMissing(keys[1..], d)
      case None => None
      case Some(i) => Some(i + 1)
  }

  /** The keyword arguments `from_dict` passes: every required key, and each
      optional key the dictionary has. */
  function FromDictKwargs(cls: RecordClass, d: Record): Record {
    map k | k in d && (k in cls.required || k in cls.optional) :: d[k]
  }

  /** `BaseDataRecord.from_dict`: KeyError naming the first required key the
      dictionary lacks; otherwise the record of the required values and of
      the optional values present, extra keys ignored. */
  function FromDict(cls: RecordClass, d: Record): (r: Result<Record>)
    ensures r.Err? <==> exists k :: k in cls.required && k !in d
    ensures r.Err? ==> r.error.KeyError? && r.error.key.Str? &&
                       r.error.key.s in cls.required && r.error.key.s !in d
    ensures r.Err? ==> exists i :: 0 <= i < |cls.required| && r.error == KeyError(Str(cls.required[i])) &&
                                   forall j :: 0 <= j < i ==> cls.required[j] in d
    ensures r.Ok? ==> forall k :: k in r.value ==> k in d && r.value[k] == d[k]
    ensures r.Ok? ==> forall k :: k in r.value ==> k in cls.required || k in cls.optional
    ensures r.Ok? ==> forall k :: k in cls.required && k !in cls.optional ==> k in r.value
    ensures r.Ok? ==> forall k :: (k in cls.required || k in cls.optional) && k in d && d[k] != NoDefault ==>
                        k in r.value
    ensures r.Ok? ==> forall o :: o in cls.optional && o in r.value ==> r.value[o] != NoDefault
  {
    match FirstMissing(cls.required, d)
    case Some(i) => Err(KeyError(Str(cls.required[i])))
    case None => Construct(cls, FromDictKwargs(cls, d))
  }

  /** `attributes()`: the names `base` lists (what the Serializable base
      class yields) without the excluded ones, in the same order. */
  function Attributes(base: seq<string>, cls: RecordClass): (r: seq<string>)
    ensures forall a :: a in r <==> a in base && a !in cls.excluded
    ensures |base| == 1 ==> r == if base[0] in cls.excluded then [] else base
  {
    if base == [] then []
    else (if base[0] in cls.excluded then [] else [base[0]]) + Attributes(base[1..], cls)
  }

  /** The filter commutes with concatenation: the names kept keep the order
      of the base list. */
  lemma {:induction false} AttributesConcat(a: seq<string>, b: seq<string>, cls: RecordClass)
    ensures Attributes(a + b, cls) == Attributes(a, cls) + Attributes(b, cls)
  {
    if a == [] {
      assert a + b == b;
    } else {
      var ab := a + b;
      assert ab[0] == a[0] && ab[1..] == a[1..] + b;
      AttributesConcat(a[1..], b, cls);
    }
  }

  /** With nothing in it excluded, the base list is kept as it is. */
  lemma {:induction false} AttributesNoneExcluded(base: seq<string>, cls: RecordClass)
    requires forall a :: a in base ==> a !in cls.excluded
    ensures Attributes(base, cls) == base
  {
    if base != [] {
      assert base[0] !in cls.excluded;
      AttributesNoneExcluded(base[1..], cls);
    }
  }

  /** The filtered list is never longer than the base list. */
  lemma {:induction false} AttributesLength(base: seq<string>, cls: RecordClass)
    ensures |Attributes(base, cls)| <= |base|
  {
    if base != [] {
      AttributesLength(base[1..], cls);
    }
  }

  /** A name that is not excluded is listed as often as the base list has it. */
  lemma {:induction false} AttributesCounts(base: seq<string>, cls: RecordClass, a: string)
    requires a !in cls.excluded
    ensures multiset(Attributes(base, cls))[a] == multiset(base)[a]
  {
    if base != [] {
      assert base == [base[0]] + base[1..];
      AttributesCounts(base[1..], cls, a);
    }
  }

  /** Keys other than the declared ones make no difference to `from_dict`. */
  lemma FromDictIgnoresExtraKeys(cls: RecordClass, d: Record)
    ensures FromDict(cls, d) == FromDict(cls, FromDictKwargs(cls, d))
  {
    var d' := FromDictKwargs(cls, d);
    assert FromDictKwargs(cls, d') == FromDictKwargs(cls, d);
    FirstMissingRestricted(cls.required, d, d');
  }

  lemma {:induction false} FirstMissingRestricted(keys: seq<string>, d: Record, d': Record)
    requires forall k :: k in keys ==> (k in d <==> k in d')
    ensures FirstMissing(keys, d) == FirstMissing(keys, d')
  {
    if keys != [] {
      FirstMissingRestricted(keys[1..], d, d');
    }
  }

  /** With every required key present, `from_dict` succeeds and keeps
      exactly the declared keys the dictionary holds, except an optional one
      holding `no_default`. */
  lemma FromDictPresentKeys(cls: RecordClass, d: Record)
    requires forall k :: k in cls.required ==> k in d
    ensures FromDict(cls, d).Ok?
    ensures forall k :: k in FromDict(cls, d).value <==>
              k in d && (k in cls.required || k in cls.optional) && !(k in cls.optional && d[k] == NoDefault)
  {
    assert FirstMissing(cls.required, d) == None;
  }

  /** A LabeledVideoRecord read from a dictionary without "group" has no
      "group" attribute; it holds exactly the path and the label, as given. */
  lemma LabeledVideoWithoutGroup(d: Record)
    requires "video_path" in d && "label" in d && "group" !in d
    ensures FromDict(LABELED_VIDEO_RECORD, d).Ok?
    ensures FromDict(LABELED_VIDEO_RECORD, d).value.Keys == {"video_path", "label"}
    ensures forall k :: k in FromDict(LABELED_VIDEO_RECORD, d).value ==> FromDict(LABELED_VIDEO_RECORD, d).value[k] == d[k]
  {
    var cls := LABELED_VIDEO_RECORD;
    FromDictPresentKeys(cls, d);
    var r := FromDict(cls, d).value;
    assert r.Keys == {"video_path", "label"} by {
      forall k | k in r ensures k == "video_path" || k == "label" {
        assert k in cls.required || k in cls.optional;
      }
    }
  }

  /** An explicit `None` group is kept: only the sentinel is pruned. */
  lemma LabeledVideoKeepsNullGroup(d: Record)
    requires "video_path" in d && "label" in d && "group" in d && d["group"] == Null
    ensures FromDict(LABELED_VIDEO_RECORD, d).Ok?
    ensures FromDict(LABELED_VIDEO_RECORD, d).value["group"] == Null
  {
  }

  /** A LabeledVideoRecord lacking a label cannot be read. */
  lemma LabeledVideoNeedsLabel(d: Record)
    requires "video_path" in d && "label" !in d
    ensures FromDict(LABELED_VIDEO_RECORD, d) == Err(KeyError(Str("label")))
  {
    assert FirstMissing(LABELED_VIDEO_RECORD.required, d) == Some(1);
  }
}
