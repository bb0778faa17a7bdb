/** The PHP values that flow through the query layer: bound parameters, fetched
    row columns, cached entries, decoded JSON. Objects are represented by their
    property arrays. A list is an array whose keys are "0", "1", ... in order. */
module PhpValues {
  import opened Strings

  datatype Value = Null | Bool(b: bool) | Int(i: int) | Str(s: string) | Arr(entries: seq<Entry>)

  /** One key/value pair of a PHP array, keys kept in insertion order. */
  datatype Entry = Entry(key: string, val: Value)

  /** An associative database row: column name to value. */
  type Row = seq<Entry>

  /** (string)$v. Arrays convert to the word "Array". */
  function ToText(v: Value): string
  {
    match v
    case Null => ""
    case Bool(b) => if b then "1" else ""
    case Int(i) => IntToString(i)
    case Str(s) => s
    case Arr(_) => "Array"
  }

  /** empty() on a string: the empty string and "0". */
  predicate IsEmptyText(s: string)
  {
    s == "" || s == "0"
  }

  /** empty($v): null, false, 0, "", "0" and the empty array. */
  predicate IsEmpty(v: Value)
  {
    match v
    case Null => true
    case Bool(b) => !b
    case Int(i) => i == 0
    case Str(s) => IsEmptyText(s)
    case Arr(es) => |es| == 0
  }

  /** A value used as a condition ("if ($v)") is true exactly when it is not empty. */
  predicate IsTruthy(v: Value)
  {
    !IsEmpty(v)
  }

  /** The whitespace (int) skips before the number. */
  predicate IsNumericSpace(ch: char)
  {
    ch == ' ' || ch == '\t' || ch == '\n' || ch == '\r' || ch == '\U{0B}' || ch == '\U{0C}'
  }

  predicate IsDigit(ch: char)
  {
    '0' <= ch <= '9'
  }

  /** The value of the run of digits at the start of s, read as it is extended
      one digit at a time. */
  function DigitsValue(s: string, acc: nat): nat
    decreases |s|
  {
    if |s| > 0 && IsDigit(s[0]) then DigitsValue(s[1..], acc * 10 + (s[0] as int - '0' as int))
    else acc
  }

  function SkipSpace(s: string): string
    decreases |s|
  {
    if |s| > 0 && IsNumericSpace(s[0]) then SkipSpace(s[1..]) else s
  }

  /** (int)$s: leading whitespace, an optional sign, then the leading digits; 0 when
      there are none. */
  function LeadingInt(s: string): (n: int)
  {
    var t := SkipSpace(s);
    if |t| > 0 && t[0] == '-' then 0 - DigitsValue(t[1..], 0)
    else if |t| > 0 && t[0] == '+' then DigitsValue(t[1..], 0)
    else DigitsValue(t, 0)
  }

  /** (int)$v. */
  function IntCast(v: Value): int
  {
    match v
    case Null => 0
    case Bool(b) => if b then 1 else 0
    case Int(i) => i
    case Str(s) => LeadingInt(s)
    case Arr(es) => if |es| == 0 then 0 else 1
  }

  /** array_key_exists($key, $a) */
  predicate HasKey(es: seq<Entry>, key: string)
  {
    exists k :: 0 <= k < |es| && es[k].key == key
  }

  /** $a[$key] ?? null: the value stored under key, or null when it is absent. */
  function Lookup(es: seq<Entry>, key: string): (v: Value)
    ensures !HasKey(es, key) ==> v == Null
    ensures HasKey(es, key) ==> exists k :: 0 <= k < |es| && es[k].key == key && es[k].val == v
    decreases |es|
  {
    if |es| == 0 then Null
    else if es[0].key == key then es[0].val
    else
      var v := Lookup(es[1..], key);
      assert HasKey(es, key) ==> HasKey(es[1..], key);
      assert forall k :: 0 <= k < |es| - 1 ==> es[1..][k] == es[k + 1];
      v
  }

  /** isset($a[$key]): present and not null. */
  predicate IsSet(es: seq<Entry>, key: string)
  {
    Lookup(es, key) != Null
  }

  /** $a[$key] = $v: replaces the value in place when the key exists, else appends. */
  function Store(es: seq<Entry>, key: string, v: Value): (r: seq<Entry>)
    ensures Lookup(r, key) == v
    ensures forall k :: k != key ==> Lookup(r, k) == Lookup(es, k)
    decreases |es|
  {
    if |es| == 0 then [Entry(key, v)]
    else if es[0].key == key then [Entry(key, v)] + es[1..]
    else [es[0]] + Store(es[1..], key, v)
  }

  /** The entries of a PHP list [v0, v1, ...]. */
  function ListEntries(vs: seq<Value>): (es: seq<Entry>)
    ensures |es| == |vs|
    ensures forall k :: 0 <= k < |vs| ==> es[k] == Entry(IntToString(k), vs[k])
  {
    seq(|vs|, k requires 0 <= k < |vs| => Entry(IntToString(k), vs[k]))
  }

  /** The values of an array, in order (array_values / foreach order). */
  function ValuesOf(es: seq<Entry>): (vs: seq<Value>)
    ensures |vs| == |es|
    ensures forall k :: 0 <= k < |es| ==> vs[k] == es[k].val
  {
    seq(|es|, k requires 0 <= k < |es| => es[k].val)
  }

  /** The keys of an array, in order (array_keys). */
  function KeysOf(es: seq<Entry>): (ks: seq<string>)
    ensures |ks| == |es|
    ensures forall k :: 0 <= k < |es| ==> ks[k] == es[k].key
  {
    seq(|es|, k requires 0 <= k < |es| => es[k].key)
  }

  /** array_map($f, $list): f applied to each element, in order. */
  function ArrayMap<A, B>(f: A -> B, xs: seq<A>): (r: seq<B>)
    ensures |r| == |xs|
    ensures forall k :: 0 <= k < |xs| ==> r[k] == f(xs[k])
  {
    seq(|xs|, k requires 0 <= k < |xs| => f(xs[k]))
  }

  /** A PHP array never holds the same key twice. */
  predicate DistinctKeys(es: seq<Entry>)
  {
    forall i, j :: 0 <= i < j < |es| ==> es[i].key != es[j].key
  }

  /** In an array with distinct keys, each key reads back the value stored with it. */
  lemma LookupDistinct(es: seq<Entry>, i: int)
    requires DistinctKeys(es) && 0 <= i < |es|
    ensures Lookup(es, es[i].key) == es[i].val
  {
    assert HasKey(es, es[i].key);
    var k :| 0 <= k < |es| && es[k].key == es[i].key && es[k].val == Lookup(es, es[i].key);
    assert k == i;
  }

  /** The value of s read as decimal digits; -1 when s is empty or holds anything
      but digits. */
  function DecimalValue(s: string): int
    decreases |s|
  {
    if |s| == 0 || !IsDigit(s[|s| - 1]) then -1
    else
      var d := s[|s| - 1] as int - '0' as int;
      if |s| == 1 then d
      else
        var init := DecimalValue(s[..|s| - 1]);
        if init < 0 then -1 else init * 10 + d
  }

  /** The index a key stands for: a key in the canonical decimal form of a natural
      number (no leading zero) is kept by PHP as that integer. Any other key, and a
      negative integer key, lies below every index and counts as -1. */
  function KeyIndex(key: string): int
  {
    if |key| > 1 && key[0] == '0' then -1 else DecimalValue(key)
  }

  /** The key $a[] = $v uses: one more than the largest integer key, and 0 when no
      key is a non-negative integer. */
  function NextIndex(es: seq<Entry>): nat
    decreases |es|
  {
    if |es| == 0 then 0
    else
      var rest := NextIndex(es[..|es| - 1]);
      var index := KeyIndex(es[|es| - 1].key);
      if index >= rest then index + 1 else rest
  }

  /** A list: the keys are 0, 1, 2, ... in order. */
  predicate IsList(es: seq<Entry>)
  {
    forall k :: 0 <= k < |es| ==> es[k].key == IntToString(k)
  }

  /** $a[] = $v: the value goes under the next integer key. */
  function Push(es: seq<Entry>, v: Value): (r: seq<Entry>)
    ensures |r| == |es| + 1 && r[..|es|] == es && r[|es|] == Entry(IntToString(NextIndex(es)), v)
  {
    es + [Entry(IntToString(NextIndex(es)), v)]
  }

  /** The key $a[] = $v picks is one no entry uses yet, so nothing is overwritten;
      on a list it is the new entry's position, so the array stays a list. */
  lemma PushKey(es: seq<Entry>, v: Value)
    ensures !HasKey(es, Push(es, v)[|es|].key)
    ensures IsList(es) ==> Push(es, v)[|es|].key == IntToString(|es|) && IsList(Push(es, v))
  {
    NextIndexFresh(es);
    ListNextIndex(es);
  }

  lemma DigitCharValue(d: nat)
    requires d < 10
    ensures IsDigit(DigitChar(d)) && DigitChar(d) as int - '0' as int == d
  {
    if d == 0 {} else if d == 1 {} else if d == 2 {} else if d == 3 {} else if d == 4 {}
    else if d == 5 {} else if d == 6 {} else if d == 7 {} else if d == 8 {} else {}
  }

  /** The decimal form of n reads back as n and, unless n is 0, does not start
      with a zero. */
  lemma {:induction false} NatToStringValue(n: nat)
    ensures DecimalValue(NatToString(n)) == n
    ensures n > 0 ==> NatToString(n)[0] != '0'
    decreases n
  {
    var s := NatToString(n);
    if n < 10 {
      DigitCharValue(n);
    } else {
      NatToStringValue(n / 10);
      DigitCharValue(n % 10);
      assert s[..|s| - 1] == NatToString(n / 10);
    }
  }

  /** (string)$n for an index n is a key PHP keeps as the integer n. */
  lemma KeyIndexOfIndex(n: nat)
    ensures KeyIndex(IntToString(n)) == n
  {
    NatToStringValue(n);
  }

  /** Every integer key lies below the next index. */
  lemma {:induction false} NextIndexAbove(es: seq<Entry>)
    ensures forall k :: 0 <= k < |es| ==> KeyIndex(es[k].key) < NextIndex(es)
    decreases |es|
  {
    if |es| > 0 {
      var init := es[..|es| - 1];
      NextIndexAbove(init);
      var n := NextIndex(es);
      assert NextIndex(init) <= n;
      forall k | 0 <= k < |es|
        ensures KeyIndex(es[k].key) < n
      {
        if k < |init| {
          assert init[k] == es[k];
        }
      }
    }
  }

  /** No entry already uses the next index as its key. */
  lemma NextIndexFresh(es: seq<Entry>)
    ensures !HasKey(es, IntToString(NextIndex(es)))
  {
    NextIndexAbove(es);
    KeyIndexOfIndex(NextIndex(es));
  }

  /** On a list the next index is the length. */
  lemma {:induction false} ListNextIndex(es: seq<Entry>)
    ensures IsList(es) ==> NextIndex(es) == |es|
    decreases |es|
  {
    if IsList(es) && |es| > 0 {
      var init := es[..|es| - 1];
      assert IsList(init) by {
        assert forall k :: 0 <= k < |init| ==> init[k] == es[k];
      }
      ListNextIndex(init);
      KeyIndexOfIndex(|es| - 1);
    }
  }

  /** Without non-negative integer keys the next index is 0: $a[] = $v on an array
      keyed only by names stores under "0". */
  lemma {:induction false} NextIndexWithoutIntKeys(es: seq<Entry>, v: Value)
    requires forall k :: 0 <= k < |es| ==> KeyIndex(es[k].key) < 0
    ensures NextIndex(es) == 0
    ensures Push(es, v)[|es|].key == "0"
    decreases |es|
  {
    if |es| > 0 {
      var init := es[..|es| - 1];
      assert forall k :: 0 <= k < |init| ==> init[k] == es[k];
      NextIndexWithoutIntKeys(init, v);
    }
  }

  /** Each push moves the next index on by one. */
  lemma PushNextIndex(es: seq<Entry>, v: Value)
    ensures NextIndex(Push(es, v)) == NextIndex(es) + 1
  {
    var r := Push(es, v);
    assert r[..|r| - 1] == es;
    KeyIndexOfIndex(NextIndex(es));
  }

  /** An appended entry adds its key to the keys present. */
  lemma HasKeyAppend(es: seq<Entry>, e: Entry, key: string)
    ensures HasKey(es + [e], key) <==> HasKey(es, key) || e.key == key
  {
    if HasKey(es + [e], key) {
      var k :| 0 <= k < |es + [e]| && (es + [e])[k].key == key;
      if k < |es| {
        assert es[k].key == key;
      }
    }
    if HasKey(es, key) {
      var k :| 0 <= k < |es| && es[k].key == key;
      assert (es + [e])[k].key == key;
    }
    if e.key == key {
      assert (es + [e])[|es|].key == key;
    }
  }

  /** Without the first entry a key is present exactly when it is not that entry's. */
  lemma HasKeyTail(es: seq<Entry>, key: string)
    requires |es| > 0 && es[0].key != key
    ensures HasKey(es, key) <==> HasKey(es[1..], key)
  {
    if HasKey(es, key) {
      var k :| 0 <= k < |es| && es[k].key == key;
      assert es[1..][k - 1].key == key;
    }
    if HasKey(es[1..], key) {
      var k :| 0 <= k < |es[1..]| && es[1..][k].key == key;
      assert es[k + 1].key == key;
    }
  }

  /** Looking a key up after an appended entry: an earlier entry still wins. */
  lemma {:induction false} LookupAppend(es: seq<Entry>, e: Entry, key: string)
    ensures Lookup(es + [e], key) == if HasKey(es, key) then Lookup(es, key) else if e.key == key then e.val else Null
    decreases |es|
  {
    if |es| == 0 {
      assert !HasKey(es, key);
    } else if es[0].key == key {
      assert HasKey(es, key);
    } else {
      assert (es + [e])[1..] == es[1..] + [e];
      LookupAppend(es[1..], e, key);
      HasKeyTail(es, key);
    }
  }

  /** Looking a key up in an array that starts with a given entry. */
  lemma LookupFront(e: Entry, rest: seq<Entry>, key: string)
    ensures Lookup([e] + rest, key) == if e.key == key then e.val else Lookup(rest, key)
  {
    assert ([e] + rest)[1..] == rest;
  }

  /** Storing under a new key appends the entry. */
  lemma {:induction false} StoreAppends(es: seq<Entry>, key: string, v: Value)
    requires !HasKey(es, key)
    ensures Store(es, key, v) == es + [Entry(key, v)]
    decreases |es|
  {
    if |es| > 0 {
      assert es[0].key != key;
      HasKeyTail(es, key);
      StoreAppends(es[1..], key, v);
      ConsAppend(es, Entry(key, v));
    }
  }

  lemma ConsAppend<T>(s: seq<T>, x: T)
    requires |s| > 0
    ensures [s[0]] + (s[1..] + [x]) == s + [x]
  {
  }

  /** A second store under the same key replaces the first. */
  lemma {:induction false} StoreStore(es: seq<Entry>, key: string, v: Value, w: Value)
    ensures Store(Store(es, key, v), key, w) == Store(es, key, w)
    decreases |es|
  {
    if |es| > 0 && es[0].key != key {
      StoreStore(es[1..], key, v, w);
    }
  }

  /** Storing the value already present under a key changes nothing. */
  lemma {:induction false} StoreSame(es: seq<Entry>, key: string)
    requires HasKey(es, key)
    ensures Store(es, key, Lookup(es, key)) == es
    decreases |es|
  {
    if es[0].key != key {
      assert HasKey(es[1..], key) by {
        var k :| 0 <= k < |es| && es[k].key == key;
        assert es[1..][k - 1].key == key;
      }
      StoreSame(es[1..], key);
      assert [es[0]] + es[1..] == es;
    } else {
      assert [Entry(key, es[0].val)] + es[1..] == es;
    }
  }
}
