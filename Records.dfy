/** Alarms, tickets and tracker issues are Python dictionaries decoded from
    JSON. A dictionary is modelled as the sequence of its entries in
    insertion order, because the ticket renderer walks the keys in that
    order. */
module Records {
  import opened Wrappers

  /** An alarm field value: a string, a list of strings, or any other JSON
      scalar (number, boolean, null), kept as the text `str()` gives it. */
  datatype Value = Str(s: string) | Strs(items: seq<string>) | Other(text: string)

  type Record = seq<(string, Value)>

  /** An alarm as the monitoring platform returns it. */
  type Alarm = Record

  /** The exception that ends the run: a `KeyError` on a missing key, a
      `TypeError`/`AttributeError` on a value of the wrong kind, an
      `IndexError` from popping an empty list. */
  datatype Fault = MissingKey(key: string) | WrongType(key: string) | EmptyList(key: string)

  /** What a filtering stage hands on: the surviving items, `exit(0)` when
      nothing survives, or the exception that aborted the run. */
  datatype Step<T> = Continue(items: seq<T>) | Exit | Abort(fault: Fault)

  /** An existing tracker issue, reduced to the property payload this system
      stored on it (empty when the issue has none). */
  datatype Issue = Issue(properties: map<string, string>)

  function Keys(r: Record): seq<string> {
    if r == [] then [] else [r[0].0] + Keys(r[1..])
  }

  /** No key occurs twice, as in every Python dictionary. */
  predicate Keyed(r: Record) {
    forall i, j :: 0 <= i < j < |Keys(r)| ==> Keys(r)[i] != Keys(r)[j]
  }

  /** `d.get(k)`. */
  function Get(r: Record, k: string): (v: Option<Value>)
    ensures v.None? <==> k !in Keys(r)
  {
    if r == [] then None else if r[0].0 == k then Some(r[0].1) else Get(r[1..], k)
  }

  /** `d[k] = v`: an existing key keeps its place, a new key goes last. */
  function Put(r: Record, k: string, v: Value): (r': Record)
    ensures Get(r', k) == Some(v)
    ensures forall k' :: k' != k ==> Get(r', k') == Get(r, k')
    ensures Keys(r') == if k in Keys(r) then Keys(r) else Keys(r) + [k]
  {
    if r == [] then [(k, v)]
    else if r[0].0 == k then [(k, v)] + r[1..]
    else [r[0]] + Put(r[1..], k, v)
  }

  lemma KeyedTail(other: Record)
    requires other != [] && Keyed(other)
    ensures Keyed(other[1..]) && other[0].0 !in Keys(other[1..])
  {
    assert Keys(other) == [other[0].0] + Keys(other[1..]);
    forall i, j | 0 <= i < j < |Keys(other[1..])|
      ensures Keys(other[1..])[i] != Keys(other[1..])[j]
    {
      assert Keys(other)[i + 1] != Keys(other)[j + 1];
    }
    forall i | 0 <= i < |Keys(other[1..])|
      ensures Keys(other[1..])[i] != other[0].0
    {
      assert Keys(other)[0] != Keys(other)[i + 1];
    }
  }

  /** `d.update(other)`. */
  function Update(r: Record, other: Record): (r': Record)
    ensures |Keys(r')| >= |Keys(r)| && Keys(r')[..|Keys(r)|] == Keys(r)
    ensures Keyed(other) ==> forall k :: Get(r', k) == if k in Keys(other) then Get(other, k) else Get(r, k)
    decreases |other|
  {
    if other == [] then r
    else
      var p := Put(r, other[0].0, other[0].1);
      var r' := Update(p, other[1..]);
      assert Keys(other) == [other[0].0] + Keys(other[1..]);
      assert Keys(r')[..|Keys(r)|] == Keys(p)[..|Keys(r)|];
      if Keyed(other) then KeyedTail(other); r' else r'
  }

  /** The keys of `ks` that are not among `present`, in the order of `ks`. */
  function NewKeys(ks: seq<string>, present: seq<string>): (nk: seq<string>)
    ensures forall k :: k in nk <==> k in ks && k !in present
  {
    if ks == [] then [] else (if ks[0] in present then [] else [ks[0]]) + NewKeys(ks[1..], present)
  }

  lemma {:induction false} NewKeysIgnores(ks: seq<string>, present: seq<string>, k: string)
    requires k !in ks
    ensures NewKeys(ks, present + [k]) == NewKeys(ks, present)
  {
    if ks != [] {
      NewKeysIgnores(ks[1..], present, k);
    }
  }

  /** `d.update(other)` on dictionaries: the keys of `d` keep their places,
      and the keys `other` adds follow, once each, in `other`'s order. */
  lemma {:induction false} UpdateKeys(r: Record, other: Record)
    requires Keyed(r) && Keyed(other)
    ensures Keyed(Update(r, other))
    ensures Keys(Update(r, other)) == Keys(r) + NewKeys(Keys(other), Keys(r))
    decreases |other|
  {
    if other != [] {
      var k := other[0].0;
      var p := Put(r, k, other[0].1);
      assert Keys(other) == [k] + Keys(other[1..]);
      KeyedTail(other);
      if k !in Keys(r) {
        forall i, j | 0 <= i < j < |Keys(p)|
          ensures Keys(p)[i] != Keys(p)[j]
        {
          if j < |Keys(r)| {
            assert Keys(p)[i] == Keys(r)[i] && Keys(p)[j] == Keys(r)[j];
          } else {
            assert Keys(p)[i] == Keys(r)[i];
          }
        }
        NewKeysIgnores(Keys(other[1..]), Keys(r), k);
      }
      UpdateKeys(p, other[1..]);
    }
  }

  /** Two records with the same keys in the same places agree on `get` for
      every key whose value they share. */
  lemma {:induction false} GetPointwise(r: Record, s: Record, k: string)
    requires |r| == |s|
    requires forall i :: 0 <= i < |r| ==> r[i].0 == s[i].0 && (r[i].0 == k ==> r[i].1 == s[i].1)
    ensures Get(r, k) == Get(s, k)
  {
    if r != [] {
      GetPointwise(r[1..], s[1..], k);
    }
  }

  lemma {:induction false} KeysAre(r: Record)
    ensures |Keys(r)| == |r| && forall i :: 0 <= i < |r| ==> Keys(r)[i] == r[i].0
  {
    if r != [] {
      KeysAre(r[1..]);
    }
  }

  /** In a dictionary, each entry is what `get` finds for its key. */
  lemma {:induction false} GetAt(r: Record, i: nat)
    requires Keyed(r) && i < |r|
    ensures Get(r, r[i].0) == Some(r[i].1)
  {
    KeysAre(r);
    if i > 0 {
      KeyedTail(r);
      assert r[1..][i - 1] == r[i];
      GetAt(r[1..], i - 1);
      assert Keys(r)[0] != Keys(r)[i];
    }
  }
}
