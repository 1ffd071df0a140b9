// The property maps the data model hands to the information panel: a
// java.util.LinkedHashMap<String, String>, which keeps its keys in first
// insertion order and replaces the value of a key put twice in place.
module Properties {
  import opened Wrappers

  /**
   * A property value. Numbers are kept as numbers (the Java code renders
   * them with String.valueOf); Null is the null reference.
   */
  datatype PropertyValue = Text(s: string) | Number(x: real) | Null

  /** The entries of a LinkedHashMap, in iteration order. */
  type PropertyMap = seq<(string, PropertyValue)>

  function Keys(m: PropertyMap): (keys: seq<string>)
  {
    seq(|m|, i requires 0 <= i < |m| => m[i].0)
  }

  /** No key occurs twice, as in every map. */
  predicate UniqueKeys(m: PropertyMap)
  {
    forall i, j :: 0 <= i < j < |m| ==> m[i].0 != m[j].0
  }

  /** Map.get: the value stored under k, if any. */
  function Lookup(m: PropertyMap, k: string): (r: Option<PropertyValue>)
    ensures r.None? <==> k !in Keys(m)
    ensures r.Some? ==> (k, r.value) in m
  {
    if m == [] then None
    else
      assert Keys(m) == [m[0].0] + Keys(m[1..]);
      if m[0].0 == k then Some(m[0].1)
      else Lookup(m[1..], k)
  }

  /**
   * Map.put: a new key is appended at the end; a key already present keeps
   * its position and takes the new value.
   */
  function Put(m: PropertyMap, k: string, v: PropertyValue): (r: PropertyMap)
    ensures k !in Keys(m) ==> r == m + [(k, v)]
    ensures k in Keys(m) ==> Keys(r) == Keys(m)
  {
    if m == [] then [(k, v)]
    else
      assert Keys(m) == [m[0].0] + Keys(m[1..]);
      if m[0].0 == k then
        assert Keys([(k, v)] + m[1..]) == [k] + Keys(m[1..]);
        [(k, v)] + m[1..]
      else
        var rest := Put(m[1..], k, v);
        assert Keys([m[0]] + rest) == [m[0].0] + Keys(rest);
        [m[0]] + rest
  }

  /** After a put, the key reads back the new value and every other key reads as before. */
  lemma {:induction false} PutThenLookup(m: PropertyMap, k: string, v: PropertyValue, k': string)
    ensures Lookup(Put(m, k, v), k') == if k' == k then Some(v) else Lookup(m, k')
    decreases |m|
  {
    if m != [] && m[0].0 != k {
      PutThenLookup(m[1..], k, v, k');
      assert Put(m, k, v)[1..] == Put(m[1..], k, v);
    }
  }

  /** A put keeps the keys of a map distinct. */
  lemma PutKeepsKeysUnique(m: PropertyMap, k: string, v: PropertyValue)
    requires UniqueKeys(m)
    ensures UniqueKeys(Put(m, k, v))
  {
    var r := Put(m, k, v);
    if k in Keys(m) {
      assert Keys(r) == Keys(m);
      forall i, j | 0 <= i < j < |r| ensures r[i].0 != r[j].0 {
        assert Keys(r)[i] == r[i].0 && Keys(r)[j] == r[j].0;
      }
    }
  }

  /** Map.putAll: the entries of `entries` put one after the other, in order. */
  function PutAll(m: PropertyMap, entries: PropertyMap): (r: PropertyMap)
    decreases |entries|
  {
    if entries == [] then m
    else PutAll(Put(m, entries[0].0, entries[0].1), entries[1..])
  }

  /**
   * Putting entries whose keys are new and pairwise distinct appends them
   * in their own order.
   */
  lemma {:induction false} PutAllFresh(m: PropertyMap, entries: PropertyMap)
    requires UniqueKeys(entries)
    requires forall i :: 0 <= i < |entries| ==> entries[i].0 !in Keys(m)
    ensures PutAll(m, entries) == m + entries
    decreases |entries|
  {
    if entries != [] {
      var m' := Put(m, entries[0].0, entries[0].1);
      assert m' == m + [entries[0]];
      forall i | 0 <= i < |entries[1..]|
        ensures entries[1..][i].0 !in Keys(m')
      {
        assert entries[1..][i] == entries[i + 1];
        assert Keys(m') == Keys(m) + [entries[0].0];
      }
      PutAllFresh(m', entries[1..]);
      assert m' + entries[1..] == m + entries;
    }
  }

  /** Two maps with distinct keys and no key in common make one map with distinct keys. */
  lemma UniqueKeysConcat(a: PropertyMap, b: PropertyMap)
    requires UniqueKeys(a) && UniqueKeys(b)
    requires forall i, j :: 0 <= i < |a| && 0 <= j < |b| ==> a[i].0 != b[j].0
    ensures UniqueKeys(a + b)
  {
    forall i, j | 0 <= i < j < |a + b| ensures (a + b)[i].0 != (a + b)[j].0 {
      if j < |a| {
        assert (a + b)[i] == a[i] && (a + b)[j] == a[j];
      } else if i < |a| {
        assert (a + b)[i] == a[i] && (a + b)[j] == b[j - |a|];
      } else {
        assert (a + b)[i] == b[i - |a|] && (a + b)[j] == b[j - |a|];
      }
    }
  }

  /** A decimal digit. */
  function Digit(d: nat): (c: char)
    requires d < 10
    ensures '0' <= c <= '9'
  {
    ('0' as int + d) as char
  }

  /** The decimal text of a non-negative int, as string concatenation writes it. */
  function DecimalString(n: nat): (s: string)
    ensures |s| >= 1
    ensures n >= 10 ==> |s| >= 2
  {
    if n < 10 then [Digit(n)] else DecimalString(n / 10) + [Digit(n % 10)]
  }

  /** Different numbers have different decimal texts. */
  lemma {:induction false} DecimalStringInjective(a: nat, b: nat)
    requires DecimalString(a) == DecimalString(b)
    ensures a == b
    decreases a
  {
    if a < 10 && b < 10 {
      assert Digit(a) == DecimalString(a)[0] == Digit(b);
    } else if a >= 10 && b >= 10 {
      var sa, sb := DecimalString(a), DecimalString(b);
      assert sa[..|sa| - 1] == DecimalString(a / 10);
      assert sb[..|sb| - 1] == DecimalString(b / 10);
      DecimalStringInjective(a / 10, b / 10);
      assert Digit(a % 10) == sa[|sa| - 1] == Digit(b % 10);
    } else {
      // one text has a single character, the other at least two
      assert false;
    }
  }
}
