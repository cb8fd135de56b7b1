/**
 The Python values and exceptions the load-testing scripts work with:
 optional arguments, the exceptions they raise, JSON-like payload values,
 Python truthiness, and keyword-argument dictionaries.
 */
module PyBase {

  /** An optional argument: `None` is Python's `None`. */
  datatype Option<+T> = None | Some(value: T)

  /** The exceptions raised by the modelled code, one constructor per raise site kind. */
  datatype Error =
    | InvalidChannelType(channelType: Option<string>)   // ValueError: channel_type not allowed
    | InvalidSetting(key: string)                       // ValueError: unknown channel setting
    | ExactlyOneRequired(first: string, second: string) // ValueError: both or neither given
    | IndexOutOfRange                                   // IndexError: split or random.choice
    | MissingKey(key: string)                           // KeyError on a dict read or del
    | NoFieldsProvided                                  // AttributeError: empty profile update
    | UnsupportedAttribute(key: string)                 // AttributeError: unknown user attribute

  /** The outcome of an operation that may raise. */
  datatype Result<+T> = Ok(value: T) | Err(error: Error)

  /** JSON-like values: request payloads, profile dictionaries, praw keyword arguments. */
  datatype Value =
    | Null
    | Bool(b: bool)
    | Int(i: int)
    | Str(s: string)
    | List(items: seq<Value>)
    | Dict(fields: map<string, Value>)

  /** Python's `bool(v)` for the values above. */
  predicate Truthy(v: Value)
  {
    match v
    case Null => false
    case Bool(b) => b
    case Int(i) => i != 0
    case Str(s) => s != ""
    case List(items) => items != []
    case Dict(fields) => fields != map[]
  }

  /**
   A `**kwargs` dictionary. Python keeps keyword arguments in the order they were
   passed, and the validators report the first offending key in that order.
   */
  type Kwargs = seq<(string, Value)>

  /** Python's `d.get(key)`: the value stored under `key`, or `None`. */
  function Lookup<V>(d: map<string, V>, key: string): (r: Option<V>)
    ensures r.Some? <==> key in d
    ensures r.Some? ==> r.value == d[key]
  {
    if key in d then Some(d[key]) else None
  }

  /** `d` maps `key` to `v`. */
  predicate HasEntry(d: map<string, Value>, key: string, v: Value)
  {
    key in d && d[key] == v
  }

  /** The keys of a keyword-argument dictionary. */
  function KeysOf(kw: Kwargs): set<string>
  {
    set i | 0 <= i < |kw| :: kw[i].0
  }

  /** The key of entry `i` is not repeated later in `kw`. */
  predicate LastOccurrence(kw: Kwargs, i: int)
    requires 0 <= i < |kw|
  {
    forall j :: i < j < |kw| ==> kw[j].0 != kw[i].0
  }

  /** The keys of a non-empty list are its head's key and the keys of its tail. */
  lemma KeysOfCons(kw: Kwargs)
    requires kw != []
    ensures KeysOf(kw) == {kw[0].0} + KeysOf(kw[1..])
  {
    forall k | k in KeysOf(kw) ensures k in {kw[0].0} + KeysOf(kw[1..]) {
      var i :| 0 <= i < |kw| && kw[i].0 == k;
      if i > 0 { assert kw[1..][i - 1] == kw[i]; }
    }
  }

  /** The dictionary a keyword-argument list denotes; a repeated key keeps its last value. */
  function ToDict(kw: Kwargs): (d: map<string, Value>)
    ensures d.Keys == KeysOf(kw)
    ensures forall i :: 0 <= i < |kw| && LastOccurrence(kw, i) ==> d[kw[i].0] == kw[i].1
    decreases |kw|
  {
    if kw == [] then map[]
    else
      var d := ToDict(kw[1..]);
      KeysOfCons(kw);
      assert forall i :: 1 <= i < |kw| && LastOccurrence(kw, i) ==> LastOccurrence(kw[1..], i - 1);
      if kw[0].0 in d then d else d[kw[0].0 := kw[0].1]
  }

  /**
   The first key of `kw`, in argument order, that is outside `allowed`; `None` when
   every key is allowed. This is the key a `for key in kwargs: if key not in ...: raise`
   loop raises on.
   */
  function FirstKeyOutside(kw: Kwargs, allowed: set<string>): (r: Option<string>)
    ensures r.None? <==> KeysOf(kw) <= allowed
    ensures r.Some? ==> r.value !in allowed
    ensures r.Some? ==> exists i :: 0 <= i < |kw| && kw[i].0 == r.value && KeysOf(kw[..i]) <= allowed
    decreases |kw|
  {
    if kw == [] then None
    else if kw[0].0 !in allowed then
      assert KeysOf(kw[..0]) == {};
      Some(kw[0].0)
    else
      var rest := FirstKeyOutside(kw[1..], allowed);
      KeysOfCons(kw);
      if rest.Some? then
        var i :| 0 <= i < |kw[1..]| && kw[1..][i].0 == rest.value && KeysOf(kw[1..][..i]) <= allowed;
        assert kw[..i + 1] == [kw[0]] + kw[1..][..i];
        assert KeysOf(kw[..i + 1]) <= allowed by {
          forall k | k in KeysOf(kw[..i + 1]) ensures k in allowed {
            var j :| 0 <= j < i + 1 && kw[..i + 1][j].0 == k;
            if j > 0 { assert kw[..i + 1][j] == kw[1..][..i][j - 1]; }
          }
        }
        assert kw[i + 1].0 == rest.value;
        rest
      else
        rest
  }

  /**
   The first of `keys`, in order, that `d` lacks: the KeyError raised by a run of
   reads and deletes of those keys. `None` when all are present.
   */
  function FirstMissing<V>(keys: seq<string>, d: map<string, V>): (r: Option<string>)
    ensures r.None? <==> forall i :: 0 <= i < |keys| ==> keys[i] in d
    ensures r.Some? ==> r.value !in d
    ensures r.Some? ==> exists i :: 0 <= i < |keys| && keys[i] == r.value && forall j :: 0 <= j < i ==> keys[j] in d
    decreases |keys|
  {
    if keys == [] then None
    else if keys[0] !in d then Some(keys[0])
    else
      var rest := FirstMissing(keys[1..], d);
      assert forall i :: 1 <= i < |keys| ==> keys[i] == keys[1..][i - 1];
      if rest.Some? then
        var i :| 0 <= i < |keys[1..]| && keys[1..][i] == rest.value && forall j :: 0 <= j < i ==> keys[1..][j] in d;
        assert keys[i + 1] == rest.value;
        rest
      else
        rest
  }

  /** A sequence is its prefix followed by its suffix. */
  lemma SplitJoin<T>(s: seq<T>, i: nat)
    requires i <= |s|
    ensures s[..i] + s[i..] == s
  {
  }

  /** Concatenation is associative. */
  lemma ConcatAssoc<T>(x: seq<T>, y: seq<T>, z: seq<T>)
    ensures x + (y + z) == (x + y) + z
  {
  }

  /** Where the four parts of a four-part concatenation sit in it. */
  lemma FourParts<T>(a: seq<T>, b: seq<T>, c: seq<T>, d: seq<T>)
    ensures var s := a + b + c + d;
      && s[..|a|] == a
      && (b != [] ==> s[|a|] == b[0])
      && s[|a| + |b|..|a| + |b| + |c|] == c
      && s[|a| + |b| + |c|..] == d
  {
    var s := a + b + c + d;
    assert s == a + (b + c + d);
    assert s == (a + b) + (c + d);
  }

  /** Where each part of a five-part concatenation sits in it. */
  lemma FiveParts<T>(a: seq<T>, b: seq<T>, c: seq<T>, d: seq<T>, e: seq<T>)
    ensures var s := a + b + c + d + e;
      && s[..|a|] == a
      && s[|a|..|a| + |b|] == b
      && s[|a| + |b|..|a| + |b| + |c|] == c
      && s[|a| + |b| + |c|..|s| - |e|] == d
      && s[|s| - |e|..] == e
  {
  }

  /** Appending one element to the empty sequence, or to a singleton. */
  lemma AppendSmall<T>(x: T, y: T)
    ensures [] + [x] == [x]
    ensures [x] + [y] == [x, y]
  {
  }

  /** Appending two elements one at a time. */
  lemma AppendTwo<T>(s: seq<T>, x: T, y: T)
    ensures s + [x] + [y] == s + [x, y]
  {
  }
}
