/** Shared vocabulary of the backend model: optional values, results,
    JSON values as the handlers build them, and a key-ordered sort that
    stands for the store's ORDER BY. */
module Common {

  datatype Option<+T> = None | Some(value: T)

  datatype Result<+T, +E> = Success(value: T) | Failure(error: E)

  /** Timestamps are opaque instants; only their order is used. */
  type Timestamp = int

  /** Python truthiness of an optional string: both None and "" are false. */
  predicate Truthy(s: Option<string>)
  {
    s.Some? && s.value != ""
  }

  /** A JSON value, as the handlers put it into responses and provider payloads. */
  datatype Json =
    | JNull
    | JBool(b: bool)
    | JInt(i: int)
    | JStr(s: string)
    | JArr(items: seq<Json>)
    | JObj(fields: map<string, Json>)

  /** A string-to-string dictionary as a JSON object. */
  function StringMapJson(m: map<string, string>): (r: Json)
    ensures r.JObj? && r.fields.Keys == m.Keys
    ensures forall k :: k in m ==> r.fields[k] == JStr(m[k])
  {
    JObj(map k | k in m :: JStr(m[k]))
  }

  /** `s` is in nondecreasing order of `key`. */
  ghost predicate SortedBy<T>(s: seq<T>, key: T -> int)
  {
    forall i, j :: 0 <= i < j < |s| ==> key(s[i]) <= key(s[j])
  }

  /** Every element of `s` has a key of at least `b`. */
  ghost predicate KeysAtLeast<T>(s: seq<T>, key: T -> int, b: int)
  {
    forall k :: 0 <= k < |s| ==> b <= key(s[k])
  }

  /** Inserts `x` into `s` just before the first element whose key is not smaller. */
  function InsertBy<T>(x: T, s: seq<T>, key: T -> int): (r: seq<T>)
    ensures multiset(r) == multiset(s) + multiset{x}
  {
    if s == [] then [x]
    else if key(x) <= key(s[0]) then [x] + s
    else
      assert s == [s[0]] + s[1..];
      [s[0]] + InsertBy(x, s[1..], key)
  }

  /** Putting an element in front of a sorted sequence whose keys are all at
      least the element's own keeps it sorted. */
  lemma {:induction false} ConsSorted<T>(h: T, tail: seq<T>, key: T -> int, b: int)
    requires SortedBy(tail, key) && KeysAtLeast(tail, key, key(h)) && b <= key(h)
    ensures SortedBy([h] + tail, key)
    ensures KeysAtLeast([h] + tail, key, b)
  {
    var r := [h] + tail;
    forall i, j | 0 <= i < j < |r| ensures key(r[i]) <= key(r[j]) {
      assert r[j] == tail[j - 1];
      if i > 0 {
        assert r[i] == tail[i - 1];
      }
    }
    forall k | 0 <= k < |r| ensures b <= key(r[k]) {
      if k > 0 {
        assert r[k] == tail[k - 1];
      }
    }
  }

  /** Inserting into a sorted sequence keeps it sorted, and keeps any lower
      bound that `x` also respects. */
  lemma {:induction false} InsertBySorted<T>(x: T, s: seq<T>, key: T -> int, b: int)
    requires SortedBy(s, key)
    requires KeysAtLeast(s, key, b) && b <= key(x)
    ensures SortedBy(InsertBy(x, s, key), key)
    ensures KeysAtLeast(InsertBy(x, s, key), key, b)
  {
    if s == [] {
    } else if key(x) <= key(s[0]) {
      assert KeysAtLeast(s, key, key(x)) by {
        forall k | 0 <= k < |s| ensures key(x) <= key(s[k]) {
          assert k == 0 || key(s[0]) <= key(s[k]);
        }
      }
      ConsSorted(x, s, key, b);
    } else {
      InsertBySorted(x, s[1..], key, key(s[0]));
      ConsSorted(s[0], InsertBy(x, s[1..], key), key, b);
    }
  }

  /** A stable insertion sort by `key`: the model of the store's ordering clause.
      Rows with equal keys come back in an order the store does not promise;
      only sortedness and the permutation are relied upon. */
  function SortBy<T>(s: seq<T>, key: T -> int): (r: seq<T>)
    ensures multiset(r) == multiset(s)
  {
    if s == [] then []
    else
      assert s == [s[0]] + s[1..];
      InsertBy(s[0], SortBy(s[1..], key), key)
  }

  /** SortBy returns its input in nondecreasing key order. */
  lemma {:induction false} SortBySorted<T>(s: seq<T>, key: T -> int)
    ensures SortedBy(SortBy(s, key), key)
  {
    if s != [] {
      SortBySorted(s[1..], key);
      var t := SortBy(s[1..], key);
      var b := if t == [] then key(s[0]) else (if key(s[0]) < key(t[0]) then key(s[0]) else key(t[0]));
      InsertBySorted(s[0], t, key, b);
    }
  }
}
