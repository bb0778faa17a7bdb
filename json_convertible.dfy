/** The shared JSON helpers of the model objects (JSONConvertibleTrait): the
    default-value serialization, reading listed properties from a decoded array,
    turning decoded arrays into arrays of objects, and the decoding entry point.
    An object's public properties are held as an array of entries; building an
    object from decoded data (the reflection-driven readFromJSONDefault on a new
    instance) and json_decode are parameters. */
module JsonConvertible {
  import opened Strings
  import opened PhpValues
  import opened Exceptions
  import opened Options

  /** What jsonSerializeDefault hands to json_encode: an empty stdClass object, or
      an associative array. */
  datatype Serialized = EmptyObject | Assoc(entries: seq<Entry>)

  // ---------------------------------------------------------------------------
  // jsonSerializeDefault

  /** The properties whose current value is not identical (!==) to their default,
      with their current values, in the order of the defaults. */
  function NonDefault(props: seq<Entry>, defaults: seq<Entry>): seq<Entry>
    decreases |defaults|
  {
    if |defaults| == 0 then []
    else
      var init := NonDefault(props, defaults[..|defaults| - 1]);
      var d := defaults[|defaults| - 1];
      var current := Lookup(props, d.key);
      if current != d.val then init + [Entry(d.key, current)] else init
  }

  function SerializeDefault(props: seq<Entry>, defaults: seq<Entry>): Serialized
  {
    var values := NonDefault(props, defaults);
    if |values| == 0 then EmptyObject else Assoc(values)
  }

  /** The key/value pairs json_encode writes for a serialized object. */
  function SerializedEntries(s: Serialized): seq<Entry>
  {
    if s.EmptyObject? then [] else s.entries
  }

  /** Only keys of the defaults are emitted. */
  lemma {:induction false} NonDefaultKeysFromDefaults(props: seq<Entry>, defaults: seq<Entry>, key: string)
    ensures HasKey(NonDefault(props, defaults), key) ==> HasKey(defaults, key)
    decreases |defaults|
  {
    if |defaults| > 0 {
      var init := defaults[..|defaults| - 1];
      var d := defaults[|defaults| - 1];
      NonDefaultKeysFromDefaults(props, init, key);
      HasKeyAppend(NonDefault(props, init), Entry(d.key, Lookup(props, d.key)), key);
      assert init + [d] == defaults;
      HasKeyAppend(init, d, key);
    }
  }

  /** A key is emitted exactly when it has a default and the property's current value
      differs from it; the emitted value is the current one. */
  lemma {:induction false} NonDefaultIff(props: seq<Entry>, defaults: seq<Entry>, key: string)
    requires DistinctKeys(defaults)
    ensures HasKey(NonDefault(props, defaults), key) <==> HasKey(defaults, key) && Lookup(props, key) != Lookup(defaults, key)
    ensures HasKey(NonDefault(props, defaults), key) ==> Lookup(NonDefault(props, defaults), key) == Lookup(props, key)
    decreases |defaults|
  {
    if |defaults| > 0 {
      var init := defaults[..|defaults| - 1];
      var d := defaults[|defaults| - 1];
      assert init + [d] == defaults;
      assert DistinctKeys(init);
      NonDefaultIff(props, init, key);
      var e := Entry(d.key, Lookup(props, d.key));
      HasKeyAppend(NonDefault(props, init), e, key);
      LookupAppend(NonDefault(props, init), e, key);
      HasKeyAppend(init, d, key);
      LookupAppend(init, d, key);
      if d.key == key {
        assert !HasKey(init, key);
        NonDefaultKeysFromDefaults(props, init, key);
      }
    }
  }

  /** One list of keys occurs within another, in the same order. */
  predicate IsSubsequence(a: seq<string>, b: seq<string>)
    decreases |b|
  {
    |a| == 0 ||
    (|b| > 0 &&
      ((a[|a| - 1] == b[|b| - 1] && IsSubsequence(a[..|a| - 1], b[..|b| - 1])) || IsSubsequence(a, b[..|b| - 1])))
  }

  /** The emitted keys keep the order of the defaults. */
  lemma {:induction false} NonDefaultKeepsOrder(props: seq<Entry>, defaults: seq<Entry>)
    ensures IsSubsequence(KeysOf(NonDefault(props, defaults)), KeysOf(defaults))
    decreases |defaults|
  {
    var ks := KeysOf(NonDefault(props, defaults));
    if |defaults| > 0 {
      var init := defaults[..|defaults| - 1];
      var d := defaults[|defaults| - 1];
      NonDefaultKeepsOrder(props, init);
      assert KeysOf(defaults)[..|defaults| - 1] == KeysOf(init);
      if Lookup(props, d.key) != d.val {
        assert ks[..|ks| - 1] == KeysOf(NonDefault(props, init));
      } else if |ks| > 0 {
        assert ks == KeysOf(NonDefault(props, init));
      }
    }
  }

  /** Nothing is emitted exactly when every property holds its default; the result is
      then an empty object, not an empty array. */
  lemma {:induction false} AllDefaultsGiveEmptyObject(props: seq<Entry>, defaults: seq<Entry>)
    ensures SerializeDefault(props, defaults) == EmptyObject <==>
      forall k :: 0 <= k < |defaults| ==> Lookup(props, defaults[k].key) == defaults[k].val
    decreases |defaults|
  {
    if |defaults| > 0 {
      var init := defaults[..|defaults| - 1];
      AllDefaultsGiveEmptyObject(props, init);
      assert forall k :: 0 <= k < |init| ==> init[k] == defaults[k];
    }
  }

  // ---------------------------------------------------------------------------
  // Array conversions

  /** The objects under the keys of their decoded entries. */
  function KeyedObjects(values: seq<Entry>, make: Value -> Value): (r: seq<Entry>)
    ensures |r| == |values|
    ensures forall k :: 0 <= k < |values| ==> r[k] == Entry(values[k].key, make(values[k].val))
  {
    seq(|values|, k requires 0 <= k < |values| => Entry(values[k].key, make(values[k].val)))
  }

  /** getObjectArray: one object per entry, as a list; getAssociativeObjectArray: the
      same objects under the entries' own keys. */
  method GetObjectArray(values: seq<Entry>, make: Value -> Value) returns (convertedSet: seq<Entry>)
    ensures convertedSet == ListEntries(ArrayMap(make, ValuesOf(values)))
  {
    var expected := ListEntries(ArrayMap(make, ValuesOf(values)));
    convertedSet := [];
    var i := 0;
    while i < |values|
      invariant 0 <= i <= |values|
      invariant |convertedSet| == i
      invariant forall k :: 0 <= k < i ==> convertedSet[k] == expected[k]
    {
      var newObj := make(values[i].val);
      assert IsList(convertedSet);
      ListNextIndex(convertedSet);
      convertedSet := Push(convertedSet, newObj);
      i := i + 1;
    }
  }

  method GetAssociativeObjectArray(values: seq<Entry>, make: Value -> Value) returns (convertedSet: seq<Entry>)
    requires DistinctKeys(values)
    ensures convertedSet == KeyedObjects(values, make)
  {
    convertedSet := [];
    var i := 0;
    while i < |values|
      invariant 0 <= i <= |values|
      invariant |convertedSet| == i
      invariant forall k :: 0 <= k < i ==> convertedSet[k] == KeyedObjects(values, make)[k]
    {
      var newObj := make(values[i].val);
      KeyedStep(convertedSet, values, make, i);
      convertedSet := Store(convertedSet, values[i].key, newObj);
      i := i + 1;
    }
  }

  /** One step of getAssociativeObjectArray: the next key is new, so the object is
      appended. */
  lemma KeyedStep(convertedSet: seq<Entry>, values: seq<Entry>, make: Value -> Value, i: nat)
    requires DistinctKeys(values) && i < |values| && |convertedSet| == i
    requires forall k :: 0 <= k < i ==> convertedSet[k] == KeyedObjects(values, make)[k]
    ensures var next := Store(convertedSet, values[i].key, make(values[i].val));
      |next| == i + 1 && forall k :: 0 <= k < i + 1 ==> next[k] == KeyedObjects(values, make)[k]
  {
    KeyNotYetStored(convertedSet, values, i);
    StoreAppends(convertedSet, values[i].key, make(values[i].val));
  }

  /** Under the associative conversion each input key reads back the object built
      from its own entry, and a key the input lacks reads null. */
  lemma KeyedObjectsLookup(values: seq<Entry>, make: Value -> Value, key: string)
    requires DistinctKeys(values)
    ensures forall k :: 0 <= k < |values| && values[k].key == key ==>
      Lookup(KeyedObjects(values, make), key) == make(values[k].val)
    ensures !HasKey(values, key) ==> Lookup(KeyedObjects(values, make), key) == Null
  {
    var keyed := KeyedObjects(values, make);
    assert DistinctKeys(keyed);
    forall k | 0 <= k < |values| && values[k].key == key
      ensures Lookup(keyed, key) == make(values[k].val)
    {
      LookupDistinct(keyed, k);
    }
    if !HasKey(values, key) {
      assert !HasKey(keyed, key);
    }
  }

  /** With distinct input keys, an entry's key is not among the keys copied before it. */
  lemma KeyNotYetStored(copied: seq<Entry>, values: seq<Entry>, i: nat)
    requires DistinctKeys(values) && i < |values| && |copied| == i
    requires forall k :: 0 <= k < i ==> copied[k].key == values[k].key
    ensures !HasKey(copied, values[i].key)
  {
  }

  /** The two conversions build the same objects in the same order; the list form
      numbers them from 0 and the associative form keeps the input keys. */
  lemma ObjectArraysAgree(values: seq<Entry>, make: Value -> Value)
    ensures ValuesOf(ListEntries(ArrayMap(make, ValuesOf(values)))) == ValuesOf(KeyedObjects(values, make))
    ensures KeysOf(KeyedObjects(values, make)) == KeysOf(values)
    ensures forall k :: 0 <= k < |values| ==> ListEntries(ArrayMap(make, ValuesOf(values)))[k].key == IntToString(k)
  {
    assert ValuesOf(ListEntries(ArrayMap(make, ValuesOf(values)))) == ArrayMap(make, ValuesOf(values));
  }

  /** The entries of a decoded list appended one by one to an existing array. */
  function AppendObjects(existing: seq<Entry>, items: seq<Entry>, make: Value -> Value): (r: seq<Entry>)
    ensures |r| == |existing| + |items|
    decreases |items|
  {
    if |items| == 0 then existing
    else Push(AppendObjects(existing, items[..|items| - 1], make), make(items[|items| - 1].val))
  }

  /** The entries $a[] = $v creates for the decoded items when the next index is
      n: the objects under n, n + 1, ... */
  function Numbered(n: nat, items: seq<Entry>, make: Value -> Value): (r: seq<Entry>)
    ensures |r| == |items|
  {
    seq(|items|, k requires 0 <= k < |items| => Entry(IntToString(n + k), make(items[k].val)))
  }

  lemma NumberedSnoc(n: nat, items: seq<Entry>, make: Value -> Value)
    requires |items| > 0
    ensures Numbered(n, items, make) == Numbered(n, items[..|items| - 1], make)
      + [Entry(IntToString(n + |items| - 1), make(items[|items| - 1].val))]
  {
  }

  /** Appending moves the array's next index past the appended objects. */
  lemma {:induction false} AppendObjectsNextIndex(existing: seq<Entry>, items: seq<Entry>, make: Value -> Value)
    ensures NextIndex(AppendObjects(existing, items, make)) == NextIndex(existing) + |items|
    decreases |items|
  {
    if |items| > 0 {
      AppendObjectsNextIndex(existing, items[..|items| - 1], make);
      PushNextIndex(AppendObjects(existing, items[..|items| - 1], make), make(items[|items| - 1].val));
    }
  }

  /** readObjectArray's appends: the existing entries, then the objects under the
      integer keys from the array's next index on. */
  lemma {:induction false} AppendObjectsNumbered(existing: seq<Entry>, items: seq<Entry>, make: Value -> Value)
    ensures AppendObjects(existing, items, make) == existing + Numbered(NextIndex(existing), items, make)
    decreases |items|
  {
    if |items| > 0 {
      var init := items[..|items| - 1];
      var n := NextIndex(existing);
      AppendObjectsNumbered(existing, init, make);
      AppendObjectsNextIndex(existing, init, make);
      NumberedSnoc(n, items, make);
    }
  }

  /** Appending keeps the existing entries in front and adds one object per item,
      in order. */
  lemma {:induction false} AppendObjectsKeepsExisting(existing: seq<Entry>, items: seq<Entry>, make: Value -> Value)
    ensures forall k :: 0 <= k < |existing| ==> AppendObjects(existing, items, make)[k] == existing[k]
    ensures forall k :: 0 <= k < |items| ==> AppendObjects(existing, items, make)[|existing| + k].val == make(items[k].val)
    decreases |items|
  {
    if |items| > 0 {
      var init := items[..|items| - 1];
      AppendObjectsKeepsExisting(existing, init, make);
      assert forall k :: 0 <= k < |init| ==> init[k] == items[k];
    }
  }

  /** One more appended object, written back over the property. */
  lemma AppendObjectsStep(start: seq<Entry>, name: string, existing: seq<Entry>, items: seq<Entry>, i: nat, make: Value -> Value)
    requires i < |items|
    ensures var current := AppendObjects(existing, items[..i], make);
      Store(Store(start, name, Arr(current)), name, Arr(Push(current, make(items[i].val))))
      == Store(start, name, Arr(AppendObjects(existing, items[..i + 1], make)))
  {
    var current := AppendObjects(existing, items[..i], make);
    StoreStore(start, name, Arr(current), Arr(Push(current, make(items[i].val))));
    assert items[..i + 1][..i] == items[..i];
  }

  /** The property readObjectArray leaves: a null property becomes an empty array;
      when the input has the key with an array, its objects are appended. */
  function ReadObjectArraySpec(props: seq<Entry>, values: seq<Entry>, propertyName: string, make: Value -> Value): seq<Entry>
    requires Lookup(props, propertyName).Null? || Lookup(props, propertyName).Arr?
  {
    var start := if Lookup(props, propertyName).Null? then Store(props, propertyName, Arr([])) else props;
    var list := Lookup(values, propertyName);
    if |values| > 0 && HasKey(values, propertyName) && list.Arr? then
      Store(start, propertyName, Arr(AppendObjects(Lookup(start, propertyName).entries, list.entries, make)))
    else start
  }

  /** The objects stored one by one under the keys of a decoded array. */
  function StoreObjects(existing: seq<Entry>, items: seq<Entry>, make: Value -> Value): seq<Entry>
    decreases |items|
  {
    if |items| == 0 then existing
    else
      var last := items[|items| - 1];
      Store(StoreObjects(existing, items[..|items| - 1], make), last.key, make(last.val))
  }

  /** One more stored object, written back over the property. */
  lemma StoreObjectsStep(start: seq<Entry>, name: string, existing: seq<Entry>, items: seq<Entry>, i: nat, make: Value -> Value)
    requires i < |items|
    ensures var current := StoreObjects(existing, items[..i], make);
      Store(Store(start, name, Arr(current)), name, Arr(Store(current, items[i].key, make(items[i].val))))
      == Store(start, name, Arr(StoreObjects(existing, items[..i + 1], make)))
  {
    var current := StoreObjects(existing, items[..i], make);
    StoreStore(start, name, Arr(current), Arr(Store(current, items[i].key, make(items[i].val))));
    assert items[..i + 1][..i] == items[..i];
  }

  /** After storing, each key of the input holds the object built from its entry and
      every other key keeps its old value. */
  lemma {:induction false} StoreObjectsLookup(existing: seq<Entry>, items: seq<Entry>, make: Value -> Value, key: string)
    requires DistinctKeys(items)
    ensures Lookup(StoreObjects(existing, items, make), key) ==
      if HasKey(items, key) then make(Lookup(items, key)) else Lookup(existing, key)
    decreases |items|
  {
    if |items| > 0 {
      var init := items[..|items| - 1];
      var last := items[|items| - 1];
      assert init + [last] == items;
      assert DistinctKeys(init);
      StoreObjectsLookup(existing, init, make, key);
      HasKeyAppend(init, last, key);
      LookupAppend(init, last, key);
      if last.key == key {
        assert !HasKey(init, key);
      }
    }
  }

  /** The property readAssociativeObjectArray leaves: as readObjectArray, with the
      objects stored under the input's keys. */
  function ReadAssociativeObjectArraySpec(props: seq<Entry>, values: seq<Entry>, propertyName: string, make: Value -> Value): seq<Entry>
    requires Lookup(props, propertyName).Null? || Lookup(props, propertyName).Arr?
  {
    var start := if Lookup(props, propertyName).Null? then Store(props, propertyName, Arr([])) else props;
    var list := Lookup(values, propertyName);
    if |values| > 0 && HasKey(values, propertyName) && list.Arr? then
      Store(start, propertyName, Arr(StoreObjects(Lookup(start, propertyName).entries, list.entries, make)))
    else start
  }

  // ---------------------------------------------------------------------------
  // readValuesFromArray

  /** The listed properties that the input holds, copied one by one. */
  function ReadNames(props: seq<Entry>, values: seq<Entry>, names: seq<string>): seq<Entry>
    decreases |names|
  {
    if |names| == 0 then props
    else
      var init := ReadNames(props, values, names[..|names| - 1]);
      var name := names[|names| - 1];
      if HasKey(values, name) then Store(init, name, Lookup(values, name)) else init
  }

  function ReadValues(props: seq<Entry>, values: seq<Entry>, names: seq<string>): seq<Entry>
  {
    if |values| == 0 then props else ReadNames(props, values, names)
  }

  /** A property takes the input's value exactly when it is listed and the input has
      the key, even when that value is null; every other property is unchanged, and
      an empty input changes nothing. */
  lemma {:induction false} ReadValuesLookup(props: seq<Entry>, values: seq<Entry>, names: seq<string>, key: string)
    ensures Lookup(ReadValues(props, values, names), key) ==
      if |values| > 0 && key in names && HasKey(values, key) then Lookup(values, key) else Lookup(props, key)
  {
    if |values| > 0 {
      ReadNamesLookup(props, values, names, key);
    }
  }

  lemma {:induction false} ReadNamesLookup(props: seq<Entry>, values: seq<Entry>, names: seq<string>, key: string)
    ensures Lookup(ReadNames(props, values, names), key) ==
      if key in names && HasKey(values, key) then Lookup(values, key) else Lookup(props, key)
    decreases |names|
  {
    if |names| > 0 {
      var init := names[..|names| - 1];
      assert names == init + [names[|names| - 1]];
      ReadNamesLookup(props, values, init, key);
    }
  }

  // ---------------------------------------------------------------------------
  // An object using the trait

  class JsonObject {
    /** The object's public properties. */
    var props: seq<Entry>

    constructor(props: seq<Entry>)
      ensures this.props == props
    {
      this.props := props;
    }

    /** jsonSerializeDefault over the defaults array (whose keys are distinct). */
    method JsonSerializeDefault(defaultValues: seq<Entry>) returns (r: Serialized)
      requires DistinctKeys(defaultValues)
      ensures r == SerializeDefault(props, defaultValues)
    {
      var serializeValues: seq<Entry> := [];
      var i := 0;
      while i < |defaultValues|
        invariant 0 <= i <= |defaultValues|
        invariant serializeValues == NonDefault(props, defaultValues[..i])
      {
        var key := defaultValues[i].key;
        var defaultValue := defaultValues[i].val;
        var currentValue := Lookup(props, key);
        assert defaultValues[..i + 1][..i] == defaultValues[..i];
        if currentValue != defaultValue {
          assert !HasKey(serializeValues, key) by {
            NonDefaultKeysFromDefaults(props, defaultValues[..i], key);
            if HasKey(defaultValues[..i], key) {
              var k :| 0 <= k < i && defaultValues[..i][k].key == key;
              assert defaultValues[k].key == defaultValues[i].key;
            }
          }
          StoreAppends(serializeValues, key, currentValue);
          serializeValues := Store(serializeValues, key, currentValue);
        }
        i := i + 1;
      }
      assert defaultValues[..i] == defaultValues;
      r := if |serializeValues| == 0 then EmptyObject else Assoc(serializeValues);
    }

    /** readValuesFromArray. */
    method ReadValuesFromArray(values: seq<Entry>, propertyNames: seq<string>)
      modifies this
      ensures props == ReadValues(old(props), values, propertyNames)
    {
      if |values| > 0 {
        var i := 0;
        while i < |propertyNames|
          invariant 0 <= i <= |propertyNames|
          invariant props == ReadNames(old(props), values, propertyNames[..i])
        {
          var propertyName := propertyNames[i];
          assert propertyNames[..i + 1][..i] == propertyNames[..i];
          if HasKey(values, propertyName) {
            props := Store(props, propertyName, Lookup(values, propertyName));
          }
          i := i + 1;
        }
        assert propertyNames[..i] == propertyNames;
      }
    }

    /** The first step of readObjectArray and readAssociativeObjectArray: a null
        property becomes an empty array. */
    method NullToEmptyArray(propertyName: string)
      requires Lookup(props, propertyName).Null? || Lookup(props, propertyName).Arr?
      modifies this
      ensures props == if Lookup(old(props), propertyName).Null? then Store(old(props), propertyName, Arr([])) else old(props)
      ensures HasKey(props, propertyName) && Lookup(props, propertyName).Arr?
    {
      if Lookup(props, propertyName).Null? {
        props := Store(props, propertyName, Arr([]));
      }
    }

    /** The loop of readObjectArray: each object appended to the array property. */
    method AppendToProperty(items: seq<Entry>, propertyName: string, make: Value -> Value)
      requires HasKey(props, propertyName) && Lookup(props, propertyName).Arr?
      modifies this
      ensures props == Store(old(props), propertyName, Arr(AppendObjects(Lookup(old(props), propertyName).entries, items, make)))
    {
      ghost var start := props;
      ghost var existing := Lookup(start, propertyName).entries;
      StoreSame(start, propertyName);
      var i := 0;
      while i < |items|
        invariant 0 <= i <= |items|
        invariant props == Store(start, propertyName, Arr(AppendObjects(existing, items[..i], make)))
      {
        var newObj := make(items[i].val);
        var current := Lookup(props, propertyName).entries;
        AppendObjectsStep(start, propertyName, existing, items, i, make);
        props := Store(props, propertyName, Arr(Push(current, newObj)));
        i := i + 1;
      }
      assert items[..i] == items;
    }

    /** The loop of readAssociativeObjectArray: each object stored in the array
        property under its input key. */
    method StoreInProperty(items: seq<Entry>, propertyName: string, make: Value -> Value)
      requires HasKey(props, propertyName) && Lookup(props, propertyName).Arr?
      modifies this
      ensures props == Store(old(props), propertyName, Arr(StoreObjects(Lookup(old(props), propertyName).entries, items, make)))
    {
      ghost var start := props;
      ghost var existing := Lookup(start, propertyName).entries;
      StoreSame(start, propertyName);
      var i := 0;
      while i < |items|
        invariant 0 <= i <= |items|
        invariant props == Store(start, propertyName, Arr(StoreObjects(existing, items[..i], make)))
      {
        var entry := items[i];
        var newObj := make(entry.val);
        var current := Lookup(props, propertyName).entries;
        StoreObjectsStep(start, propertyName, existing, items, i, make);
        props := Store(props, propertyName, Arr(Store(current, entry.key, newObj)));
        i := i + 1;
      }
      assert items[..i] == items;
    }

    /** readObjectArray: the property must be null or an array (appending to any
        other value is a fatal error). */
    method ReadObjectArray(values: seq<Entry>, propertyName: string, make: Value -> Value)
      requires Lookup(props, propertyName).Null? || Lookup(props, propertyName).Arr?
      modifies this
      ensures props == ReadObjectArraySpec(old(props), values, propertyName, make)
    {
      NullToEmptyArray(propertyName);
      if |values| > 0 && HasKey(values, propertyName) {
        var list := Lookup(values, propertyName);
        if list.Arr? {
          AppendToProperty(list.entries, propertyName, make);
        }
      }
    }

    /** readAssociativeObjectArray, with the same demand on the property. */
    method ReadAssociativeObjectArray(values: seq<Entry>, propertyName: string, make: Value -> Value)
      requires Lookup(props, propertyName).Null? || Lookup(props, propertyName).Arr?
      modifies this
      ensures props == ReadAssociativeObjectArraySpec(old(props), values, propertyName, make)
    {
      NullToEmptyArray(propertyName);
      if |values| > 0 && HasKey(values, propertyName) {
        var list := Lookup(values, propertyName);
        if list.Arr? {
          StoreInProperty(list.entries, propertyName, make);
        }
      }
    }
  }

  /** After readObjectArray the property is an array: the entries it had (none when
      it was null) followed by one object per input entry, under the integer keys
      from the array's next index on. */
  lemma ReadObjectArrayAppends(props: seq<Entry>, values: seq<Entry>, propertyName: string, make: Value -> Value)
    requires Lookup(props, propertyName).Null? || Lookup(props, propertyName).Arr?
    requires |values| > 0 && Lookup(values, propertyName).Arr?
    ensures var before := if Lookup(props, propertyName).Null? then [] else Lookup(props, propertyName).entries;
      var items := Lookup(values, propertyName).entries;
      Lookup(ReadObjectArraySpec(props, values, propertyName, make), propertyName)
      == Arr(before + Numbered(NextIndex(before), items, make))
  {
    var start := if Lookup(props, propertyName).Null? then Store(props, propertyName, Arr([])) else props;
    assert HasKey(values, propertyName);
    assert Lookup(start, propertyName).Arr?;
    AppendObjectsNumbered(Lookup(start, propertyName).entries, Lookup(values, propertyName).entries, make);
  }

  // ---------------------------------------------------------------------------
  // fromJSONInternal

  const InvalidJsonData := "Invalid JSON Data"

  /** fromJSONInternal: json_decode (with arrays for objects) yields null both for text
      that does not decode and for the JSON literal null; either, or no text at all,
      throws. Otherwise a new instance reads the decoded data. */
  function FromJsonInternal(jsonData: Option<string>, decode: string -> Value, read: Value -> Value): (r: Outcome<Value>)
    ensures r.Throws? <==> jsonData.None? || decode(jsonData.value) == Null
    ensures r.Throws? ==> r.ex == DomainException(InvalidJsonData)
    ensures r.Ok? ==> r.value == read(decode(jsonData.value))
  {
    var arrJson := if jsonData.None? then Null else decode(jsonData.value);
    if arrJson == Null then Throws(DomainException(InvalidJsonData)) else Ok(read(arrJson))
  }
}
