/**
 * JSON values as the scraper's Python code sees them after `json.load`:
 * objects are dicts (a repeated key keeps its first position and its last
 * value), arrays are lists. Python's truthiness, `dict.get`, subscripting,
 * `for` iteration and `str()` are modelled on these values; an operation the
 * value's type does not support raises, which is a `Failure` here.
 */
module PyJson {
  import opened Wrappers

  /** A decoded JSON value. Numbers with a fraction or exponent are not modelled. */
  datatype Json =
    | Null
    | Bool(b: bool)
    | Int(i: int)
    | Str(s: string)
    | Arr(items: seq<Json>)
    | Obj(fields: seq<(string, Json)>)

  /** The Python exceptions the modelled code can raise. */
  datatype PyError =
    | AttributeError
    | TypeError
    | KeyError
    | IndexError
    | ValueError
    | IntegrityError

  const EmptyObj := Obj([])
  const EmptyArr := Arr([])

  /** Python truthiness: None, False, 0 and empty strings, lists and dicts are false. */
  predicate Truthy(v: Json)
  {
    match v
    case Null => false
    case Bool(b) => b
    case Int(i) => i != 0
    case Str(s) => s != ""
    case Arr(items) => items != []
    case Obj(fields) => fields != []
  }

  /** The value a dict holds for `k`: the last binding, as json.load keeps it. */
  function Lookup(fields: seq<(string, Json)>, k: string): (r: Option<Json>)
    ensures r.None? <==> forall i :: 0 <= i < |fields| ==> fields[i].0 != k
    ensures r.Some? ==> exists i :: 0 <= i < |fields| && fields[i] == (k, r.value)
  {
    if fields == [] then None
    else if fields[|fields| - 1].0 == k then Some(fields[|fields| - 1].1)
    else Lookup(fields[..|fields| - 1], k)
  }

  /** `v.get(k, default)`: only dicts have `get`. */
  function Get(v: Json, k: string, default: Json): (r: Result<Json, PyError>)
    ensures r.Failure? <==> !v.Obj?
    ensures r.Failure? ==> r.error == AttributeError
  {
    if !v.Obj? then Failure(AttributeError)
    else
      match Lookup(v.fields, k)
      case Some(x) => Success(x)
      case None => Success(default)
  }

  /** What `v.get(k, default)` returns when `v` is a dict. */
  function GetOr(v: Json, k: string, default: Json): (r: Json)
    ensures v.Obj? ==> Get(v, k, default) == Success(r)
  {
    if v.Obj? && Lookup(v.fields, k).Some? then Lookup(v.fields, k).value else default
  }

  /** `v.get(k)`: None when the key is missing. */
  function Field(v: Json, k: string): Json
  {
    GetOr(v, k, Null)
  }

  /** `v[k]` with a string key. */
  function Subscript(v: Json, k: string): (r: Result<Json, PyError>)
    ensures r.Success? <==> v.Obj? && Lookup(v.fields, k).Some?
  {
    match v
    case Obj(fields) =>
      (match Lookup(fields, k)
       case Some(x) => Success(x)
       case None => Failure(KeyError))
    case _ => Failure(TypeError)
  }

  /** `v[0]`. A dict has no key 0, since JSON keys are strings. */
  function First(v: Json): (r: Result<Json, PyError>)
    ensures v.Arr? && v.items != [] ==> r == Success(v.items[0])
    ensures r.Success? ==> v.Arr? || v.Str?
  {
    match v
    case Arr(items) => if items == [] then Failure(IndexError) else Success(items[0])
    case Str(s) => if s == [] then Failure(IndexError) else Success(Str([s[0]]))
    case Obj(_) => Failure(KeyError)
    case _ => Failure(TypeError)
  }

  /** The keys of a dict in insertion order, each once. */
  function Keys(fields: seq<(string, Json)>): (r: seq<string>)
    ensures forall k :: k in r <==> exists i :: 0 <= i < |fields| && fields[i].0 == k
    ensures forall i, j :: 0 <= i < j < |r| ==> r[i] != r[j]
  {
    if fields == [] then []
    else
      var before := Keys(fields[..|fields| - 1]);
      var k := fields[|fields| - 1].0;
      if k in before then
        assert forall i :: 0 <= i < |fields| - 1 ==> fields[..|fields| - 1][i] == fields[i];
        before
      else
        assert forall i :: 0 <= i < |fields| - 1 ==> fields[..|fields| - 1][i] == fields[i];
        before + [k]
  }

  /** The characters of a string as one-character strings. */
  function Chars(s: string): (r: seq<Json>)
    ensures |r| == |s|
    ensures forall i :: 0 <= i < |s| ==> r[i] == Str([s[i]])
  {
    seq(|s|, i requires 0 <= i < |s| => Str([s[i]]))
  }

  function StrKeys(ks: seq<string>): (r: seq<Json>)
    ensures |r| == |ks|
    ensures forall i :: 0 <= i < |ks| ==> r[i] == Str(ks[i])
  {
    seq(|ks|, i requires 0 <= i < |ks| => Str(ks[i]))
  }

  /** What `for x in v` visits: a list's items, a dict's keys, a string's
      characters; other values are not iterable. */
  function Iter(v: Json): (r: Result<seq<Json>, PyError>)
    ensures r.Failure? <==> v.Null? || v.Bool? || v.Int?
    ensures v.Arr? ==> r == Success(v.items)
    ensures v.Obj? && r.Success? ==> forall x :: x in r.value ==> x.Str?
    ensures v.Str? && r.Success? ==> forall x :: x in r.value ==> x.Str? && |x.s| == 1
  {
    match v
    case Arr(items) => Success(items)
    case Obj(fields) => Success(StrKeys(Keys(fields)))
    case Str(s) => Success(Chars(s))
    case _ => Failure(TypeError)
  }

  /** `len(v)` is as long as iteration. */
  lemma IterEmptyIffFalsy(v: Json)
    requires v.Arr? || v.Obj? || v.Str?
    ensures Iter(v).Success? && (Iter(v).value == [] <==> !Truthy(v))
  {
    if v.Obj? && v.fields != [] {
      assert v.fields[0].0 in Keys(v.fields);
    }
  }

  // ---------------------------------------------------------------------
  // str()

  function DigitChar(d: nat): (c: char)
    requires d < 10
    ensures c as int - '0' as int == d
  {
    ('0' as int + d) as char
  }

  /** Decimal digits of a non-negative integer, without leading zeros. */
  function NatDigits(n: nat): (r: string)
    ensures |r| >= 1
    ensures forall i :: 0 <= i < |r| ==> '0' <= r[i] <= '9'
    decreases n
  {
    if n < 10 then [DigitChar(n)] else NatDigits(n / 10) + [DigitChar(n % 10)]
  }

  function DigitsValue(s: string): int
  {
    if s == [] then 0 else DigitsValue(s[..|s| - 1]) * 10 + (s[|s| - 1] as int - '0' as int)
  }

  /** Reading the digits back gives the number. */
  lemma {:induction false} NatDigitsValue(n: nat)
    ensures DigitsValue(NatDigits(n)) == n
    decreases n
  {
    if n >= 10 {
      NatDigitsValue(n / 10);
      var r := NatDigits(n);
      assert r[..|r| - 1] == NatDigits(n / 10);
      assert r[|r| - 1] as int - '0' as int == n % 10;
      assert DigitsValue(r) == (n / 10) * 10 + n % 10;
    }
  }

  function IntStr(i: int): string
  {
    if i < 0 then "-" + NatDigits(-i) else NatDigits(i)
  }

  function Join(parts: seq<string>): string
  {
    if parts == [] then "" else if |parts| == 1 then parts[0] else parts[0] + ", " + Join(parts[1..])
  }

  /** `str(v)`: strings unchanged, integers in decimal, booleans and None by
      name, lists and dicts by their repr. */
  function PyStr(v: Json): string
  {
    match v
    case Str(s) => s
    case _ => Repr(v)
  }

  function Repr(v: Json): string
  {
    match v
    case Null => "None"
    case Bool(b) => if b then "True" else "False"
    case Int(i) => IntStr(i)
    case Str(s) => "'" + s + "'"
    case Arr(items) => "[" + Join(seq(|items|, k requires 0 <= k < |items| => Repr(items[k]))) + "]"
    case Obj(fields) => "{" + Join(seq(|fields|, k requires 0 <= k < |fields| => "'" + fields[k].0 + "': " + Repr(fields[k].1))) + "}"
  }
}
