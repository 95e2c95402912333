/**
 * Python 2 operations on values `json.loads` returns, with the exceptions
 * they raise: `key in v`, `v[key]` with a string key, `for x in v`, and
 * `str + v`. An exception is its class's `message` text, which is all the
 * netconnectd client ever looks at.
 */
module PyValues {
  import opened Wrappers
  import opened Json

  /** A value a Python expression returns, or the message of the exception it raises. */
  datatype Outcome<+T> = Ok(value: T) | Raised(message: string)

  /** The Python 2 type name of a decoded value, on a 64-bit build (integers beyond 64 bits decode as `long`). */
  function TypeName(v: Json): string
  {
    match v
    case Null => "NoneType"
    case Bool(_) => "bool"
    case Number(n) => if -0x8000_0000_0000_0000 <= n < 0x8000_0000_0000_0000 then "int" else "long"
    case String(_) => "unicode"
    case Array(_) => "list"
    case Object(_) => "dict"
  }

  /** Python's `needle in hay` on text: `needle` occurs somewhere in `hay` (the empty text everywhere). */
  predicate IsSubstring(needle: string, hay: string)
  {
    (|needle| <= |hay| && hay[..|needle|] == needle) || (hay != [] && IsSubstring(needle, hay[1..]))
  }

  /** `key in v`: a dict key, a list element, a substring; anything else is not iterable. */
  function Contains(v: Json, key: string): (r: Outcome<bool>)
    ensures r.Raised? <==> !(v.Object? || v.Array? || v.String?)
    ensures v.Object? ==> r == Ok(Get(v.members, key).Some?)
    ensures v.Array? ==> r == Ok(String(key) in v.items)
    ensures v.String? ==> r == Ok(IsSubstring(key, v.str))
  {
    match v
    case Object(ms) => Ok(Get(ms, key).Some?)
    case Array(items) => Ok(String(key) in items)
    case String(s) => Ok(IsSubstring(key, s))
    case _ => Raised("argument of type '" + TypeName(v) + "' is not iterable")
  }

  /** `v[key]` with a string key: only a dict holding the key yields a value. */
  function Index(v: Json, key: string): (r: Outcome<Json>)
    ensures r.Ok? <==> v.Object? && Get(v.members, key).Some?
    ensures r.Ok? ==> r.value == Get(v.members, key).value
    ensures v.Object? && r.Raised? ==> r.message == key
  {
    match v
    case Object(ms) =>
      (match Get(ms, key)
       case Some(x) => Ok(x)
       case None => Raised(key))
    case Array(_) => Raised("list indices must be integers, not str")
    case String(_) => Raised("string indices must be integers")
    case _ => Raised("'" + TypeName(v) + "' object has no attribute '__getitem__'")
  }

  /** The keys of a decoded object, each once, where it first occurs. */
  function Keys(members: seq<Member>): (ks: seq<string>)
    ensures forall i | 0 <= i < |members| :: members[i].key in ks
    ensures forall k | k in ks :: Get(members, k).Some?
    ensures forall i, j | 0 <= i < j < |ks| :: ks[i] != ks[j]
  {
    if members == [] then []
    else
      var front := Keys(members[..|members| - 1]);
      var last := members[|members| - 1].key;
      assert forall i | 0 <= i < |members| - 1 :: members[i] == members[..|members| - 1][i];
      if last in front then front else front + [last]
  }

  /** Each key as a decoded text. */
  function KeyTexts(ks: seq<string>): (r: seq<Json>)
    ensures |r| == |ks| && forall i | 0 <= i < |ks| :: r[i] == String(ks[i])
  {
    seq(|ks|, i requires 0 <= i < |ks| => String(ks[i]))
  }

  lemma KeyTextsCover(members: seq<Member>)
    ensures forall i | 0 <= i < |members| :: String(members[i].key) in KeyTexts(Keys(members))
  {
    var ks := Keys(members);
    forall i | 0 <= i < |members|
      ensures String(members[i].key) in KeyTexts(ks)
    {
      var j :| 0 <= j < |ks| && ks[j] == members[i].key;
      assert KeyTexts(ks)[j] == String(members[i].key);
    }
  }

  /** The elements `for x in v` visits: list items, dict keys, one-character strings. */
  function Elements(v: Json): (r: Outcome<seq<Json>>)
    ensures r.Raised? <==> !(v.Object? || v.Array? || v.String?)
    ensures v.Array? ==> r == Ok(v.items)
    ensures v.Object? ==> (r.Ok? &&
      (forall x | x in r.value :: x.String? && Get(v.members, x.str).Some?) &&
      (forall i | 0 <= i < |v.members| :: String(v.members[i].key) in r.value) &&
      (forall i, j | 0 <= i < j < |r.value| :: r.value[i] != r.value[j]))
    ensures v.String? ==> (r.Ok? && |r.value| == |v.str| &&
      forall i | 0 <= i < |v.str| :: r.value[i] == String([v.str[i]]))
  {
    match v
    case Array(items) => Ok(items)
    case Object(ms) =>
      KeyTextsCover(ms);
      Ok(KeyTexts(Keys(ms)))
    case String(s) => Ok(seq(|s|, i requires 0 <= i < |s| => String([s[i]])))
    case _ => Raised("'" + TypeName(v) + "' object is not iterable")
  }

  /** `"..." + v` where the left operand is a byte string: only text concatenates. */
  function Concat(prefix: string, v: Json): (r: Outcome<string>)
    ensures r.Ok? <==> v.String?
    ensures r.Ok? ==> r.value == prefix + v.str
  {
    if v.String? then Ok(prefix + v.str)
    else Raised("cannot concatenate 'str' and '" + TypeName(v) + "' objects")
  }
}
