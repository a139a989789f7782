/** A decoded bencode document, as `bencodepy.decode` hands it to the
    manifest accessors: a tree of integers, byte strings, lists and ordered
    dictionaries with byte-string keys. The decoding itself is not modelled;
    what is modelled is how Python subscripts, iterates and decodes such a
    tree, including the exceptions it raises on a value of the wrong kind. */
module Bencode {
  import opened Outcomes
  import opened Foreign

  datatype Value =
    | Int(i: int)
    | Str(bytes: Bytes)
    | List(items: seq<Value>)
    | Dict(entries: seq<Entry>)

  /** One key of an ordered dictionary with the value stored under it. */
  datatype Entry = Entry(key: Bytes, value: Value)

  /** `k in d` for a dictionary `d`. */
  predicate HasKey(d: Value, k: Bytes) {
    d.Dict? && exists i | 0 <= i < |d.entries| :: d.entries[i].key == k
  }

  /** `d` is a dictionary that stores `v` under `k`. */
  ghost predicate Has(d: Value, k: Bytes, v: Value) {
    d.Dict? && exists i :: 0 <= i < |d.entries| && d.entries[i] == Entry(k, v)
  }

  /** A dictionary holds each key once; every dictionary a decoder builds does. */
  ghost predicate DistinctKeys(d: Value) {
    d.Dict? ==> forall i, j :: 0 <= i < j < |d.entries| ==> d.entries[i].key != d.entries[j].key
  }

  function Find(entries: seq<Entry>, k: Bytes): (r: Result<Value>)
    ensures r.Ok? <==> exists i :: 0 <= i < |entries| && entries[i].key == k
    ensures r.Ok? ==> exists i :: 0 <= i < |entries| && entries[i] == Entry(k, r.value)
    ensures r.Err? ==> r == Err(KeyError(k))
  {
    if |entries| == 0 then Err(KeyError(k))
    else if entries[0].key == k then Ok(entries[0].value)
    else
      var r := Find(entries[1..], k);
      assert forall i :: 0 <= i < |entries| - 1 ==> entries[1..][i] == entries[i + 1];
      r
  }

  /** `d[k]`: the value stored under `k`; KeyError when the dictionary lacks
      the key, TypeError when `d` is not a dictionary at all (Python raises
      TypeError when an integer, a byte string or a list is subscripted
      with a byte string). */
  function Lookup(d: Value, k: Bytes): (r: Result<Value>)
    ensures r.Ok? <==> HasKey(d, k)
    ensures r.Ok? ==> Has(d, k, r.value)
    ensures !d.Dict? ==> r == Err(TypeError)
    ensures d.Dict? && !HasKey(d, k) ==> r == Err(KeyError(k))
  {
    match d
    case Dict(entries) => Find(entries, k)
    case _ => Err(TypeError)
  }

  /** In a dictionary with distinct keys, `d[k]` is the value stored under `k`. */
  lemma LookupStored(d: Value, k: Bytes, v: Value)
    requires DistinctKeys(d) && Has(d, k, v)
    ensures Lookup(d, k) == Ok(v)
  {
    var i :| 0 <= i < |d.entries| && d.entries[i] == Entry(k, v);
    assert HasKey(d, k);
    var r := Lookup(d, k);
    var j :| 0 <= j < |d.entries| && d.entries[j] == Entry(k, r.value);
    assert !(i < j) && !(j < i);
  }

  /** `d[k] = v` on the entries of a dictionary: an existing key keeps its
      place and takes the new value, a new key goes last. */
  function Assign(entries: seq<Entry>, k: Bytes, v: Value): seq<Entry>
  {
    if |entries| == 0 then [Entry(k, v)]
    else if entries[0].key == k then [Entry(k, v)] + entries[1..]
    else [entries[0]] + Assign(entries[1..], k, v)
  }

  /** Assigning one key leaves the lookup of every other key as it was. */
  lemma {:induction false} AssignOtherKey(entries: seq<Entry>, k: Bytes, v: Value, k': Bytes)
    requires k' != k
    ensures Find(Assign(entries, k, v), k') == Find(entries, k')
  {
    if |entries| > 0 && entries[0].key != k && entries[0].key != k' {
      AssignOtherKey(entries[1..], k, v, k');
      assert (Assign(entries, k, v))[1..] == Assign(entries[1..], k, v);
    }
  }

  /** `iter(v)`: a list yields its items, a byte string its bytes as
      integers, a dictionary its keys; an integer is not iterable. */
  function Iterate(v: Value): (r: Result<seq<Value>>)
    ensures r.Err? <==> v.Int?
    ensures v.Int? ==> r == Err(TypeError)
    ensures v.List? ==> r == Ok(v.items)
    ensures v.Str? ==> |r.value| == |v.bytes| && forall i :: 0 <= i < |v.bytes| ==> r.value[i] == Int(v.bytes[i] as int)
    ensures v.Dict? ==> |r.value| == |v.entries| && forall i :: 0 <= i < |v.entries| ==> r.value[i] == Str(v.entries[i].key)
  {
    match v
    case Int(_) => Err(TypeError)
    case Str(b) => Ok(seq(|b|, i requires 0 <= i < |b| => Int(b[i] as int)))
    case List(items) => Ok(items)
    case Dict(entries) => Ok(seq(|entries|, i requires 0 <= i < |entries| => Str(entries[i].key)))
  }

  /** `list(map(f, items))`: `f` applied to every item in order; the first
      item on which `f` raises ends the iteration with that exception. */
  function MapAll<T>(items: seq<Value>, f: Value -> Result<T>): (r: Result<seq<T>>)
    ensures r.Ok? <==> forall i :: 0 <= i < |items| ==> f(items[i]).Ok?
    ensures r.Ok? ==> |r.value| == |items| && forall i :: 0 <= i < |items| ==> f(items[i]) == Ok(r.value[i])
    ensures r.Err? ==> exists i :: 0 <= i < |items| && f(items[i]) == Err(r.error)
                                   && forall j :: 0 <= j < i ==> f(items[j]).Ok?
  {
    if |items| == 0 then Ok([])
    else
      var first := f(items[0]);
      if first.Err? then Err(first.error)
      else
        var rest := MapAll(items[1..], f);
        assert forall i :: 0 <= i < |items| - 1 ==> items[1..][i] == items[i + 1];
        if rest.Err? then
          var i :| 0 <= i < |items| - 1 && f(items[1..][i]) == Err(rest.error)
                   && forall j :: 0 <= j < i ==> f(items[1..][j]).Ok?;
          assert forall j :: 0 <= j < i + 1 ==> f(items[j]).Ok? by {
            forall j | 0 <= j < i + 1 ensures f(items[j]).Ok? {
              if j > 0 { assert items[j] == items[1..][j - 1]; }
            }
          }
          Err(rest.error)
        else
          Ok([first.value] + rest.value)
  }

  /** `v.decode()`: the UTF-8 text of a byte string. */
  function DecodeText(v: Value, utf8: Utf8): (r: Result<string>)
    ensures r.Ok? <==> v.Str? && utf8(v.bytes).Some?
    ensures r.Ok? ==> utf8(v.bytes) == Some(r.value)
    ensures r.Err? && v.Str? ==> r.error == UnicodeDecodeError
    ensures !v.Str? ==> r == Err(AttributeError)
  {
    match v
    case Str(b) =>
      (match utf8(b)
       case Some(s) => Ok(s)
       case None => Err(UnicodeDecodeError))
    case _ => Err(AttributeError)
  }
}
