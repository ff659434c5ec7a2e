/**
 * The shape of the constructors' `for` loops: convert every entry of a
 * list or dict in turn, and let the first exception escape.
 */
module Conversions {
  import opened Wrappers
  import opened Values

  /** Converting `items[..i]` with `f`, in order, stopping at the first failure. */
  function ConvertAll<T, U>(f: T -> Result<U>, items: seq<T>, i: nat): (r: Result<seq<U>>)
    requires i <= |items|
    ensures r.Success? ==> |r.value| == i
  {
    if i == 0 then Success([])
    else
      var done :- ConvertAll(f, items, i - 1);
      var x :- f(items[i - 1]);
      Success(done + [x])
  }

  /** Once a prefix fails, every longer prefix fails with the same error. */
  lemma {:induction false} ConvertAllFailurePersists<T, U>(f: T -> Result<U>, items: seq<T>, i: nat, n: nat)
    requires i <= n <= |items|
    requires ConvertAll(f, items, i).Failure?
    ensures ConvertAll(f, items, n) == ConvertAll(f, items, i)
    decreases n - i
  {
    if i < n {
      ConvertAllFailurePersists(f, items, i, n - 1);
    }
  }

  /** Each converted item is the conversion of the item at its position. */
  lemma {:induction false} ConvertAllElements<T, U>(f: T -> Result<U>, items: seq<T>, i: nat)
    requires i <= |items|
    requires ConvertAll(f, items, i).Success?
    ensures forall k :: 0 <= k < i ==> f(items[k]) == Success(ConvertAll(f, items, i).value[k])
  {
    if i > 0 {
      ConvertAllElements(f, items, i - 1);
    }
  }

  /** The conversion succeeds exactly when every item converts. */
  lemma {:induction false} ConvertAllSucceeds<T, U>(f: T -> Result<U>, items: seq<T>, i: nat)
    requires i <= |items|
    ensures ConvertAll(f, items, i).Success? <==> forall k :: 0 <= k < i ==> f(items[k]).Success?
  {
    if i > 0 {
      ConvertAllSucceeds(f, items, i - 1);
    }
  }

  /** One more item converted. */
  lemma ConvertAllStep<T, U>(f: T -> Result<U>, items: seq<T>, i: nat, done: seq<U>, x: U)
    requires i < |items|
    requires ConvertAll(f, items, i) == Success(done)
    requires f(items[i]) == Success(x)
    ensures ConvertAll(f, items, i + 1) == Success(done + [x])
  {
  }

  /** An item that fails ends the conversion with its error. */
  lemma ConvertAllFails<T, U>(f: T -> Result<U>, items: seq<T>, i: nat, done: seq<U>)
    requires i < |items|
    requires ConvertAll(f, items, i) == Success(done)
    requires f(items[i]).Failure?
    ensures ConvertAll(f, items, |items|) == Failure(f(items[i]).error)
  {
    ConvertAllFailurePersists(f, items, i + 1, |items|);
  }

  /** The error is that of the first entry that fails. */
  lemma {:induction false} ConvertAllFirstError<T, U>(f: T -> Result<U>, items: seq<T>, i: nat, j: nat)
    requires j < i <= |items|
    requires f(items[j]).Failure?
    requires forall k :: 0 <= k < j ==> f(items[k]).Success?
    ensures ConvertAll(f, items, i) == Failure(f(items[j]).error)
    decreases i
  {
    if j < i - 1 {
      ConvertAllFirstError(f, items, i - 1, j);
    } else {
      ConvertAllSucceeds(f, items, i - 1);
    }
  }

  /** Converting the entries `keys[..i]` of a dict with `f`, in order, stopping at the first failure. */
  function ConvertEntries<V, U>(f: V -> Result<U>, fields: map<string, V>, keys: seq<string>, i: nat)
    : (r: Result<map<string, U>>)
    requires i <= |keys| && forall k :: k in keys ==> k in fields
    ensures r.Success? ==> forall k :: k in r.value <==> k in keys[..i]
  {
    if i == 0 then Success(map[])
    else
      var done :- ConvertEntries(f, fields, keys, i - 1);
      var x :- f(fields[keys[i - 1]]);
      Success(done[keys[i - 1] := x])
  }

  /** One more entry converted. */
  lemma ConvertEntriesStep<V, U>(f: V -> Result<U>, fields: map<string, V>, keys: seq<string>, i: nat, m: map<string, U>, x: U)
    requires i < |keys| && forall k :: k in keys ==> k in fields
    requires ConvertEntries(f, fields, keys, i) == Success(m)
    requires f(fields[keys[i]]) == Success(x)
    ensures ConvertEntries(f, fields, keys, i + 1) == Success(m[keys[i] := x])
  {
  }

  /** An entry that fails ends the conversion with its error. */
  lemma ConvertEntriesFails<V, U>(f: V -> Result<U>, fields: map<string, V>, keys: seq<string>, i: nat, m: map<string, U>)
    requires i < |keys| && forall k :: k in keys ==> k in fields
    requires ConvertEntries(f, fields, keys, i) == Success(m)
    requires f(fields[keys[i]]).Failure?
    ensures ConvertEntries(f, fields, keys, |keys|) == Failure(f(fields[keys[i]]).error)
  {
    ConvertEntriesFailurePersists(f, fields, keys, i + 1, |keys|);
  }

  /** Each converted entry is the conversion of the entry under the same key. */
  lemma {:induction false} ConvertEntriesElements<V, U>(f: V -> Result<U>, fields: map<string, V>, keys: seq<string>, i: nat)
    requires i <= |keys| && forall k :: k in keys ==> k in fields
    requires ConvertEntries(f, fields, keys, i).Success?
    ensures forall k :: k in ConvertEntries(f, fields, keys, i).value ==> f(fields[k]) == Success(ConvertEntries(f, fields, keys, i).value[k])
  {
    if i > 0 {
      ConvertEntriesElements(f, fields, keys, i - 1);
    }
  }

  lemma {:induction false} ConvertEntriesFailurePersists<V, U>(f: V -> Result<U>, fields: map<string, V>,
                                                            keys: seq<string>, i: nat, n: nat)
    requires i <= n <= |keys| && forall k :: k in keys ==> k in fields
    requires ConvertEntries(f, fields, keys, i).Failure?
    ensures ConvertEntries(f, fields, keys, n) == ConvertEntries(f, fields, keys, i)
    decreases n - i
  {
    if i < n {
      ConvertEntriesFailurePersists(f, fields, keys, i, n - 1);
    }
  }

  /** A list cut at `n` and joined again is the list. */
  lemma TakeDrop<T>(s: seq<T>, n: nat)
    requires n <= |s|
    ensures s[..n] + s[n..] == s
  {
  }

  /** The values of `m` in the order of `keys`. */
  function ValuesAt<V>(m: map<string, V>, keys: seq<string>): (r: seq<V>)
    requires forall k :: k in keys ==> k in m
    ensures |r| == |keys| && forall j :: 0 <= j < |keys| ==> r[j] == m[keys[j]]
  {
    seq(|keys|, j requires 0 <= j < |keys| => m[keys[j]])
  }

  /**
   * Converting the values of a dict in key order succeeds exactly when
   * every value converts, and then keeps each key's conversion at the
   * key's position.
   */
  lemma ConvertValues<V, U>(f: V -> Result<U>, m: map<string, V>)
    ensures var keys := SortedKeys(m.Keys);
      ConvertAll(f, ValuesAt(m, keys), |keys|).Success? <==> forall a :: a in m ==> f(m[a]).Success?
    ensures var keys := SortedKeys(m.Keys);
      var r := ConvertAll(f, ValuesAt(m, keys), |keys|);
      r.Success? ==> forall i :: 0 <= i < |keys| ==> f(m[keys[i]]) == Success(r.value[i])
  {
    var keys := SortedKeys(m.Keys);
    var vs := ValuesAt(m, keys);
    ConvertAllSucceeds(f, vs, |keys|);
    forall a | a in m ensures exists i :: 0 <= i < |keys| && keys[i] == a {
      assert a in keys;
    }
    if ConvertAll(f, vs, |keys|).Success? {
      ConvertAllElements(f, vs, |keys|);
    }
  }

  /** What `iteritems()` visits: every `(key, value)` pair once, keys in sorted order. */
  function Items<V(!new)>(m: map<string, V>): (r: seq<(string, V)>)
    ensures |r| == |m|
    ensures forall k, v :: (k, v) in r <==> k in m && m[k] == v
  {
    var keys := SortedKeys(m.Keys);
    var r := seq(|keys|, i requires 0 <= i < |keys| => (keys[i], m[keys[i]]));
    forall k | k in m ensures (k, m[k]) in r {
      var i :| 0 <= i < |keys| && keys[i] == k;
      assert r[i] == (k, m[k]);
    }
    r
  }

  /** The members of a list, as `set(list)` collects them. */
  function SetOf(s: seq<string>): set<string>
  {
    set x | x in s
  }

  /** The union of `f(x)` over the members `x` of `ids` whose `f` succeeds. */
  function UnionOver(ids: set<string>, f: string -> Result<set<string>>): set<string>
  {
    set x, y | x in ids && f(x).Success? && y in f(x).value :: y
  }

  /** Adding one member that succeeds adds its set to the union. */
  lemma UnionOverAdd(ids: set<string>, x: string, f: string -> Result<set<string>>)
    requires f(x).Success?
    ensures UnionOver(ids + {x}, f) == UnionOver(ids, f) + f(x).value
  {
    forall y | y in f(x).value ensures y in UnionOver(ids + {x}, f) {
      assert x in ids + {x};
    }
  }

  /** A member of the union comes from some id whose set holds it. */
  lemma UnionOverMember(ids: set<string>, f: string -> Result<set<string>>, y: string)
    ensures y in UnionOver(ids, f) <==> exists x :: x in ids && f(x).Success? && y in f(x).value
  {
    if exists x :: x in ids && f(x).Success? && y in f(x).value {
      var x :| x in ids && f(x).Success? && y in f(x).value;
      assert y in UnionOver(ids, f);
    }
  }

  lemma UnionOverEmpty(f: string -> Result<set<string>>)
    ensures UnionOver({}, f) == {}
  {
  }

  /** The set of ids `f` reads off `items`, failing at the first item without one. */
  function IdsOf<T>(f: T -> Result<string>, items: seq<T>): Result<set<string>>
  {
    var ids :- ConvertAll(f, items, |items|);
    Success(SetOf(ids))
  }

  /** The collected ids are exactly those of the items. */
  lemma IdsOfMembers<T>(f: T -> Result<string>, items: seq<T>)
    requires IdsOf(f, items).Success?
    ensures forall x :: x in IdsOf(f, items).value <==> exists k :: 0 <= k < |items| && f(items[k]) == Success(x)
  {
    var ids := ConvertAll(f, items, |items|).value;
    ConvertAllElements(f, items, |items|);
    forall x | x in IdsOf(f, items).value ensures exists k :: 0 <= k < |items| && f(items[k]) == Success(x) {
      var k :| 0 <= k < |ids| && ids[k] == x;
      assert f(items[k]) == Success(x);
    }
    forall x | exists k :: 0 <= k < |items| && f(items[k]) == Success(x) ensures x in IdsOf(f, items).value {
      var k :| 0 <= k < |items| && f(items[k]) == Success(x);
      assert ids[k] == x;
    }
  }
  /** The ids read off the values of a map, in key order, are those of its values, whatever the keys. */
  lemma IdsOfValues<V>(f: V -> Result<string>, m: map<string, V>)
    requires IdsOf(f, ValuesAt(m, SortedKeys(m.Keys))).Success?
    ensures forall x :: x in IdsOf(f, ValuesAt(m, SortedKeys(m.Keys))).value <==> exists a :: a in m && f(m[a]) == Success(x)
  {
    var keys := SortedKeys(m.Keys);
    var vals := ValuesAt(m, keys);
    IdsOfMembers(f, vals);
    forall x | (exists a :: a in m && f(m[a]) == Success(x))
      ensures exists k :: 0 <= k < |vals| && f(vals[k]) == Success(x)
    {
      var a :| a in m && f(m[a]) == Success(x);
      var k :| 0 <= k < |keys| && keys[k] == a;
      assert vals[k] == m[a];
    }
  }


  /** Ids are collected exactly when every item has one. */
  lemma IdsOfSucceeds<T>(f: T -> Result<string>, items: seq<T>)
    ensures IdsOf(f, items).Success? <==> forall k :: 0 <= k < |items| ==> f(items[k]).Success?
  {
    ConvertAllSucceeds(f, items, |items|);
  }

  /** `for x in items: ids.add(f(x))`. */
  method CollectIdsOf<T>(f: T -> Result<string>, items: seq<T>) returns (r: Result<set<string>>)
    ensures r == IdsOf(f, items)
  {
    var acc: seq<string> := [];
    var i := 0;
    while i < |items|
      invariant 0 <= i <= |items|
      invariant ConvertAll(f, items, i) == Success(acc)
    {
      var x := f(items[i]);
      if x.Failure? {
        ConvertAllFails(f, items, i, acc);
        return Failure(x.error);
      }
      ConvertAllStep(f, items, i, acc, x.value);
      acc := acc + [x.value];
      i := i + 1;
    }
    return Success(SetOf(acc));
  }

  /** An item with its position, as a counter `i` running beside a loop pairs them. */
  datatype Numbered<S> = Numbered(idx: nat, step: S)

  function Indexed<S>(steps: seq<S>): (r: seq<Numbered<S>>)
    ensures |r| == |steps| && forall i :: 0 <= i < |steps| ==> r[i] == Numbered(i, steps[i])
  {
    seq(|steps|, i requires 0 <= i < |steps| => Numbered(i, steps[i]))
  }

  /** `for x in items: out.append(f(x))`, the first exception escaping. */
  method ConvertEach<T, U>(f: T -> Result<U>, items: seq<T>) returns (r: Result<seq<U>>)
    ensures r == ConvertAll(f, items, |items|)
  {
    var acc: seq<U> := [];
    var i := 0;
    while i < |items|
      invariant 0 <= i <= |items|
      invariant ConvertAll(f, items, i) == Success(acc)
    {
      var x := f(items[i]);
      if x.Failure? {
        ConvertAllFails(f, items, i, acc);
        return Failure(x.error);
      }
      ConvertAllStep(f, items, i, acc, x.value);
      acc := acc + [x.value];
      i := i + 1;
    }
    return Success(acc);
  }
}
