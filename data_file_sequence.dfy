/** DataFileSequence: a printf-style pattern and an inclusive index interval
    [lb, ub] of the files it names, which a mutable sequence may grow by one
    index at either end. */
module FileSequence {
  import opened Common

  /** The path `pattern % index`. Python's printf formatting is not modelled:
      a path is the symbolic term naming the pattern and the index. */
  datatype Path = Formatted(pattern: string, index: int)

  function Format(pattern: string, index: int): Path {
    Formatted(pattern, index)
  }

  function Min(a: int, b: int): int { if a <= b then a else b }
  function Max(a: int, b: int): int { if a >= b then a else b }

  class DataFileSequence {
    const sequence: string
    const immutable: bool
    var lb: int
    var ub: int
    /** The cursor of the one iteration in progress (`_iter_index`). */
    var iterIndex: Option<int>

    /** The interval never inverts. */
    ghost predicate Valid()
      reads this
    {
      lb <= ub
    }

    constructor (sequence: string, immutable: bool, lb: int, ub: int)
      requires lb <= ub
      ensures Valid()
      ensures this.sequence == sequence && this.immutable == immutable
      ensures this.lb == lb && this.ub == ub && iterIndex == None
    {
      this.sequence := sequence;
      this.immutable := immutable;
      this.lb := lb;
      this.ub := ub;
      this.iterIndex := None;
    }

    /** `DataFileSequence(sequence, immutable_bounds)`. The bounds the disk
        scan infers are parameters: `None` when no file matched; when both
        are found the scan gives the least and the greatest index. */
    static method Create(sequence: string, immutable: bool, lower: Option<int>, upper: Option<int>)
      returns (r: Result<DataFileSequence>)
      requires lower.Some? && upper.Some? ==> lower.value <= upper.value
      ensures r.Err? <==> lower.None? || upper.None?
      ensures r.Err? ==> r.error == DataFileSequenceError(NoMatchingFiles)
      ensures r.Ok? ==> fresh(r.value) && r.value.Valid()
      ensures r.Ok? ==> r.value.sequence == sequence && r.value.immutable == immutable
      ensures r.Ok? ==> r.value.lb == lower.value && r.value.ub == upper.value
      ensures r.Ok? ==> r.value.iterIndex == None
    {
      if lower.None? || upper.None? {
        return Err(DataFileSequenceError(NoMatchingFiles));
      }
      var s := new DataFileSequence(sequence, immutable, lower.value, upper.value);
      r := Ok(s);
    }

    /** `check_bounds`: a pure test; it raises nothing and changes nothing. */
    predicate CheckBounds(index: int)
      reads this
      ensures CheckBounds(index) <==> lb <= index <= ub
    {
      if index < lb || index > ub then false else true
    }

    /** `gen_path` (and `__getitem__`). An immutable sequence accepts exactly
        the indices in its bounds and never moves them. A mutable one rejects
        a negative index, grows by one at the end the index is adjacent to,
        accepts an index already inside, and rejects everything else. */
    method GenPath(index: int) returns (r: Result<Path>)
      requires Valid()
      modifies this`lb, this`ub
      ensures Valid()
      ensures r.Ok? ==> r.value == Format(sequence, index)
      ensures immutable ==> lb == old(lb) && ub == old(ub)
      ensures immutable ==> (r.Ok? <==> old(CheckBounds(index)))
      ensures immutable && r.Err? ==> r.error == DataFileSequenceError(OutOfBounds)
      ensures !immutable ==> (r.Ok? <==> 0 <= index && old(lb) - 1 <= index <= old(ub) + 1)
      ensures !immutable && index < 0 ==> r == Err(DataFileSequenceError(NegativeIndex))
      ensures !immutable && 0 <= index && r.Err? ==> r.error == DataFileSequenceError(NonAdjacent)
      ensures !immutable && 0 <= index && index == old(lb) - 1 ==> lb == index && ub == old(ub)
      ensures !immutable && 0 <= index && index == old(ub) + 1 ==> ub == index && lb == old(lb)
      ensures r.Err? || old(CheckBounds(index)) ==> lb == old(lb) && ub == old(ub)
      ensures old(lb) - 1 <= lb <= old(lb) && old(ub) <= ub <= old(ub) + 1
      ensures ub - lb <= old(ub - lb) + 1
    {
      if immutable {
        if !CheckBounds(index) {
          return Err(DataFileSequenceError(OutOfBounds));
        }
      } else if index < 0 {
        return Err(DataFileSequenceError(NegativeIndex));
      } else if index == lb - 1 {
        lb := index;
      } else if index == ub + 1 {
        ub := index;
      } else if !CheckBounds(index) {
        return Err(DataFileSequenceError(NonAdjacent));
      }
      r := Ok(Format(sequence, index));
    }

    /** The `lower_bound` setter: refused on an immutable sequence, and
        clamped to the upper bound otherwise. */
    method SetLowerBound(value: int) returns (r: Result<()>)
      requires Valid()
      modifies this`lb
      ensures Valid()
      ensures r.Err? <==> immutable
      ensures r.Err? ==> r.error == DataFileSequenceError(ImmutableBounds) && lb == old(lb)
      ensures r.Ok? ==> lb == Min(value, ub)
    {
      if immutable {
        return Err(DataFileSequenceError(ImmutableBounds));
      }
      lb := Min(value, ub);
      r := Ok(());
    }

    /** The `upper_bound` setter: refused on an immutable sequence, and
        clamped to the lower bound otherwise. */
    method SetUpperBound(value: int) returns (r: Result<()>)
      requires Valid()
      modifies this`ub
      ensures Valid()
      ensures r.Err? <==> immutable
      ensures r.Err? ==> r.error == DataFileSequenceError(ImmutableBounds) && ub == old(ub)
      ensures r.Ok? ==> ub == Max(value, lb)
    {
      if immutable {
        return Err(DataFileSequenceError(ImmutableBounds));
      }
      ub := Max(value, lb);
      r := Ok(());
    }

    /** `__iter__`: (re)starts the one iteration just below the lower bound. */
    method Iter()
      modifies this`iterIndex
      ensures iterIndex == Some(lb - 1)
    {
      iterIndex := Some(lb - 1);
    }

    /** `__next__`: advances the cursor and yields that index's path (through
        `gen_path`, which refuses a negative index on a mutable sequence), or,
        past the bounds, clears the cursor and stops. Without a running
        iteration the cursor is `None` and `None += 1` raises TypeError. */
    method Next() returns (r: Result<Path>)
      requires Valid()
      modifies this`iterIndex, this`lb, this`ub
      ensures Valid() && lb == old(lb) && ub == old(ub)
      ensures old(iterIndex).None? ==> r == Err(TypeError) && iterIndex == None
      ensures old(iterIndex).Some? && CheckBounds(old(iterIndex).value + 1) ==>
        iterIndex == Some(old(iterIndex).value + 1) &&
        r == if immutable || 0 <= old(iterIndex).value + 1
             then Ok(Format(sequence, old(iterIndex).value + 1))
             else Err(DataFileSequenceError(NegativeIndex))
      ensures old(iterIndex).Some? && !CheckBounds(old(iterIndex).value + 1) ==>
        iterIndex == None && r == Err(StopIteration)
    {
      if iterIndex.None? {
        return Err(TypeError);
      }
      var i := iterIndex.value + 1;
      iterIndex := Some(i);
      if !CheckBounds(i) {
        iterIndex := None;
        return Err(StopIteration);
      }
      r := GenPath(i);
    }

    /** `list(sequence)`: Python's for statement driving `__iter__` and
        `__next__` until StopIteration. It yields the path of every index from
        the lower to the upper bound, in ascending order, leaves the bounds
        alone and clears the cursor. A mutable sequence whose lower bound was
        set below zero raises at its first index instead. */
    method Collect() returns (r: Result<seq<Path>>)
      requires Valid()
      modifies this`iterIndex, this`lb, this`ub
      ensures Valid() && lb == old(lb) && ub == old(ub)
      ensures r.Ok? <==> immutable || 0 <= lb
      ensures r.Err? ==> r.error == DataFileSequenceError(NegativeIndex) && iterIndex == Some(lb)
      ensures r.Ok? ==> iterIndex == None && |r.value| == ub - lb + 1
      ensures r.Ok? ==> forall k :: 0 <= k < |r.value| ==> r.value[k] == Format(sequence, lb + k)
    {
      Iter();
      var paths := [];
      var done := false;
      while !done
        invariant Valid() && lb == old(lb) && ub == old(ub)
        invariant !done ==> iterIndex == Some(lb - 1 + |paths|) && |paths| <= ub - lb + 1
        invariant done ==> iterIndex == None && |paths| == ub - lb + 1
        invariant |paths| > 0 ==> immutable || 0 <= lb
        invariant forall k :: 0 <= k < |paths| ==> paths[k] == Format(sequence, lb + k)
        decreases ub - lb + 1 - |paths|, !done
      {
        var next := Next();
        match next {
          case Ok(p) =>
            paths := paths + [p];
          case Err(e) =>
            if e != StopIteration {
              return Err(e);
            }
            done := true;
        }
      }
      r := Ok(paths);
    }
  }

  /** Iterating twice yields the same paths: every iteration restarts at the
      lower bound. */
  method IterateTwice(s: DataFileSequence) returns (first: Result<seq<Path>>, second: Result<seq<Path>>)
    requires s.Valid()
    modifies s
    ensures first == second
    ensures first.Ok? ==> |first.value| == s.ub - s.lb + 1
  {
    first := s.Collect();
    second := s.Collect();
    if first.Ok? {
      assert first.value == second.value;
    }
  }

  /** A mutable sequence over frames 3..10 accepts 11 and grows to it; 13 is
      then two steps away and is refused. An immutable one refuses 2 and 11. */
  method ExtensionExample() {
    var m := new DataFileSequence("/path/to/frame-%05d.png", false, 3, 10);
    var p := m.GenPath(11);
    assert p == Ok(Format("/path/to/frame-%05d.png", 11)) && m.ub == 11;
    p := m.GenPath(13);
    assert p == Err(DataFileSequenceError(NonAdjacent)) && m.lb == 3 && m.ub == 11;
    var f := new DataFileSequence("/path/to/frame-%05d.png", true, 3, 10);
    p := f.GenPath(3);
    assert p.Ok?;
    p := f.GenPath(2);
    assert p == Err(DataFileSequenceError(OutOfBounds));
    p := f.GenPath(11);
    assert p == Err(DataFileSequenceError(OutOfBounds));
  }
}
