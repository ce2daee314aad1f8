/** The read-only result record: field names paired with positional values. */
module Records {
  import opened Results

  datatype Record<V> = Record(fields: seq<string>, values: seq<V>)

  /** The kinds of index a record accepts; anything else (a float, say) is `OtherKey`. */
  datatype Key = Name(name: string) | Position(i: int) | OtherKey

  /** What a record is compared against: another record, or a plain sequence (a tuple or a list). */
  datatype Comparand<V> = AnotherRecord(record: Record<V>) | PlainSequence(items: seq<V>)

  predicate Unique(s: seq<string>) {
    forall i, j :: 0 <= i < j < |s| ==> s[i] != s[j]
  }

  /** A record as the pipeline builds it when the server behaves: unique names, one value per name. */
  predicate WellFormed<V>(r: Record<V>) {
    Unique(r.fields) && |r.fields| == |r.values|
  }

  /** The position of the first occurrence of `x` in `s`, as list.index finds it. */
  function IndexOf(s: seq<string>, x: string): (k: Option<nat>)
    ensures k.None? <==> x !in s
    ensures k.Some? ==> k.value < |s| && s[k.value] == x && x !in s[..k.value]
  {
    if s == [] then None
    else if s[0] == x then Some(0)
    else match IndexOf(s[1..], x)
      case None => None
      case Some(k) =>
        assert s[1..][..k] == s[1..k + 1];
        assert s[..k + 1] == [s[0]] + s[1..k + 1];
        Some(k + 1)
  }

  /** len(record): the number of field names. */
  function Len<V>(r: Record<V>): (n: nat)
    ensures n == |r.fields|
  {
    |r.fields|
  }

  /** Attribute-style lookup: the value at the first occurrence of `name`. */
  function GetAttr<V>(r: Record<V>, name: string): (res: Result<V>)
    ensures res == Err(AttributeError(name)) <==> name !in r.fields
    ensures forall j {:trigger r.fields[..j]} :: 0 <= j < |r.fields| && r.fields[j] == name && name !in r.fields[..j] ==>
              res == (if j < |r.values| then Ok(r.values[j]) else Err(IndexError))
  {
    match IndexOf(r.fields, name)
    case None => Err(AttributeError(name))
    case Some(j) => if j < |r.values| then Ok(r.values[j]) else Err(IndexError)
  }

  /** Python's subscript for a list of length `n`, negative positions counting from the end. */
  predicate InRange(i: int, n: nat) {
    -(n as int) <= i < n
  }

  function Wrap(i: int, n: nat): (k: nat)
    requires InRange(i, n)
    ensures k < n && (k == i || k == i + n)
  {
    if i < 0 then i + n else i
  }

  /** record[key]: a name goes through attribute lookup; a position goes through the name stored there. */
  function GetItem<V>(r: Record<V>, key: Key): (res: Result<V>)
    ensures key.OtherKey? ==> res == Err(TypeError)
    ensures key.Name? ==> res == GetAttr(r, key.name)
    ensures key.Position? && !InRange(key.i, |r.fields|) ==> res == Err(IndexError)
    ensures key.Position? && InRange(key.i, |r.fields|) ==>
              res == GetAttr(r, r.fields[Wrap(key.i, |r.fields|)]) && res != Err(TypeError)
  {
    match key
    case Name(name) => GetAttr(r, name)
    case Position(i) =>
      if InRange(i, |r.fields|) then GetAttr(r, r.fields[Wrap(i, |r.fields|)]) else Err(IndexError)
    case OtherKey => Err(TypeError)
  }

  /** The subscript `record[k]` at each position k, as the sequence iteration protocol calls it. */
  function Positions<V>(r: Record<V>): nat -> Result<V> {
    k => GetItem(r, Position(k))
  }

  /** Python's iteration over `__getitem__`: item(i), item(i + 1), ... until the first lookup that
      fails; `n` is a position from which every lookup is known to fail. */
  function Iterate<V>(item: nat -> Result<V>, n: nat, i: nat): (s: seq<V>)
    ensures i <= n ==> |s| <= n - i
    ensures i > n ==> s == []
    decreases n - i
  {
    if i >= n then []
    else match item(i)
      case Ok(v) => [v] + Iterate(item, n, i + 1)
      case Err(_) => []
  }

  /** Iteration from position i yields exactly the successful lookups i, i+1, ... */
  lemma {:induction false} IterateLookups<V>(item: nat -> Result<V>, n: nat, i: nat)
    ensures forall k :: 0 <= k < |Iterate(item, n, i)| ==> item(i + k) == Ok(Iterate(item, n, i)[k])
    decreases n - i
  {
    var s := Iterate(item, n, i);
    if i < n && item(i).Ok? {
      IterateLookups(item, n, i + 1);
      var rest := Iterate(item, n, i + 1);
      assert s == [item(i).value] + rest;
      forall k | 0 < k < |s|
        ensures item(i + k) == Ok(s[k])
      {
        assert s[k] == rest[k - 1];
        assert i + k == (i + 1) + (k - 1);
      }
    }
  }

  /** ... and stops only at position n or at a lookup that fails. */
  lemma {:induction false} IterateStops<V>(item: nat -> Result<V>, n: nat, i: nat)
    ensures i + |Iterate(item, n, i)| < n ==> item(i + |Iterate(item, n, i)|).Err?
    decreases n - i
  {
    var s := Iterate(item, n, i);
    if i < n && item(i).Ok? {
      IterateStops(item, n, i + 1);
      var rest := Iterate(item, n, i + 1);
      assert s == [item(i).value] + rest;
      assert i + |s| == i + 1 + |rest|;
    }
  }

  /** tuple(record): the run of successful positional lookups from 0, cut at the first failing one;
      past the last name every lookup fails, so the names bound the iteration. */
  function AsTuple<V>(r: Record<V>): (s: seq<V>)
    ensures |s| <= |r.fields|
    ensures forall k :: 0 <= k < |s| ==> GetItem(r, Position(k)) == Ok(s[k])
    ensures |s| < |r.fields| ==> GetItem(r, Position(|s|)).Err?
  {
    IterateLookups(Positions(r), |r.fields|, 0);
    IterateStops(Positions(r), |r.fields|, 0);
    Iterate(Positions(r), |r.fields|, 0)
  }

  /** record == other: two records compare their attribute dictionaries, so names and values;
      a plain sequence is compared with tuple(record), which for a well-formed record is its values. */
  function Equals<V(==)>(r: Record<V>, other: Comparand<V>): (b: bool)
    ensures other.AnotherRecord? ==> (b <==> r == other.record)
    ensures other.PlainSequence? && WellFormed(r) ==> (b <==> other.items == r.values)
  {
    match other
    case AnotherRecord(o) => r.fields == o.fields && r.values == o.values
    case PlainSequence(items) =>
      if WellFormed(r) then IterateWellFormed(r, 0); AsTuple(r) == items
      else AsTuple(r) == items
  }

  /** len(record) is exactly the range of positions that lookup accepts, negative ones included,
      when every name has a value. */
  lemma PositionsWithinLen<V>(r: Record<V>, i: int)
    requires |r.fields| <= |r.values|
    ensures GetItem(r, Position(i)).Ok? <==> InRange(i, Len(r))
  {
    if InRange(i, Len(r)) {
      var k := Wrap(i, |r.fields|);
      var j := IndexOf(r.fields, r.fields[k]).value;
      assert r.fields[j] == r.fields[k] && r.fields[k] !in r.fields[..j];
    }
  }

  /** With unique names, position i, its negative alias and the name at i all give values[i]. */
  lemma LookupUnique<V>(r: Record<V>, i: nat)
    requires WellFormed(r) && i < |r.fields|
    ensures GetItem(r, Position(i)) == Ok(r.values[i])
    ensures GetItem(r, Position(i - |r.fields|)) == Ok(r.values[i])
    ensures GetItem(r, Name(r.fields[i])) == Ok(r.values[i])
  {
  }

  /** Positional lookup with repeated names finds the first occurrence, not position i. */
  lemma LookupFirstOccurrence<V>(r: Record<V>, i: nat, j: nat)
    requires |r.fields| == |r.values| && j < i < |r.fields|
    requires r.fields[j] == r.fields[i] && r.fields[i] !in r.fields[..j]
    ensures GetItem(r, Position(i)) == Ok(r.values[j])
  {
  }

  /** When every lookup from i up to n succeeds, iteration yields exactly those values. */
  lemma {:induction false} IterateAllOk<V>(item: nat -> Result<V>, values: seq<V>, i: nat)
    requires i <= |values| && forall k :: i <= k < |values| ==> item(k) == Ok(values[k])
    ensures Iterate(item, |values|, i) == values[i..]
    decreases |values| - i
  {
    if i < |values| {
      IterateAllOk(item, values, i + 1);
      assert values[i..] == [values[i]] + values[i + 1..];
    }
  }

  /** Iterating a well-formed record yields its values, from position i on. */
  lemma IterateWellFormed<V>(r: Record<V>, i: nat)
    requires WellFormed(r) && i <= |r.fields|
    ensures Iterate(Positions(r), |r.fields|, i) == r.values[i..]
  {
    forall k | i <= k < |r.values|
      ensures Positions(r)(k) == Ok(r.values[k])
    {
      LookupUnique(r, k);
    }
    IterateAllOk(Positions(r), r.values, i);
  }

  /** Against another record the names count too: equal values under different names are unequal records. */
  lemma FieldNamesMatterForRecords<V>(r: Record<V>, o: Record<V>)
    requires WellFormed(r) && WellFormed(o) && r.values == o.values && r.fields != o.fields
    ensures !Equals(r, AnotherRecord(o))
    ensures Equals(r, PlainSequence(o.values)) && Equals(o, PlainSequence(r.values))
  {
  }

  /** With a repeated name, tuple(record) repeats the first value, so the record is not equal to its values. */
  lemma DuplicateNameIteration()
    ensures AsTuple(Record(["a", "a"], [1, 2])) == [1, 1]
    ensures !Equals(Record(["a", "a"], [1, 2]), PlainSequence([1, 2]))
  {
  }
}
