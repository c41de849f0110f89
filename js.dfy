/** The slice of JavaScript's value model that the workspace tools rely on:
    JSON-like values, property reads on plain objects, truthiness,
    loose equality, string conversion, `Array.prototype.find`, and plain
    objects used as insertion-ordered dictionaries. */
module Js {

  datatype Option<+T> = None | Some(value: T)

  /** A JavaScript value as it appears in a workspace element (parsed from
      YAML or returned by the platform).  Numbers are modelled as integers. */
  datatype Value =
    | Undefined
    | Null
    | Bool(b: bool)
    | Num(n: int)
    | Str(s: string)
    | Arr(items: seq<Value>)
    | Obj(fields: map<string, Value>)

  /** A plain object: property name to value.  A property that was assigned
      `undefined` is still present (it shows up among the object's keys). */
  type Element = map<string, Value>

  /** `e.k`: a missing property reads as `undefined`. */
  function Get(e: Element, k: string): Value
  {
    if k in e then e[k] else Undefined
  }

  /** `v.k` on an arbitrary value: only objects have fields here. */
  function Field(v: Value, k: string): Value
  {
    if v.Obj? then Get(v.fields, k) else Undefined
  }

  /** JavaScript truthiness (`if (v)`, `!v`, `a && b`). */
  predicate Truthy(v: Value)
  {
    match v
    case Undefined => false
    case Null => false
    case Bool(b) => b
    case Num(n) => n != 0
    case Str(s) => s != ""
    case Arr(_) => true
    case Obj(_) => true
  }

  predicate Nullish(v: Value)
  {
    v.Undefined? || v.Null?
  }

  /** Loose equality `a == b`: `null` and `undefined` equal each other and
      nothing else; otherwise values are compared structurally within one
      kind.  Cross-kind coercions (`1 == "1"`) are not part of the model. */
  predicate LooseEq(a: Value, b: Value)
  {
    if Nullish(a) || Nullish(b) then Nullish(a) && Nullish(b) else a == b
  }

  /** `String(v)`, as used by template literals and property-key coercion. */
  function ToJsString(v: Value): string
  {
    match v
    case Undefined => "undefined"
    case Null => "null"
    case Bool(b) => if b then "true" else "false"
    case Num(n) => IntToDecimal(n)
    case Str(s) => s
    case Arr(items) => JoinItems(items)
    case Obj(_) => "[object Object]"
  }

  /** `Array.prototype.join(",")`: `null` and `undefined` items print as "". */
  function JoinItems(items: seq<Value>): string
  {
    if |items| == 0 then ""
    else
      (if Nullish(items[0]) then "" else ToJsString(items[0]))
      + (if |items| == 1 then "" else "," + JoinItems(items[1..]))
  }

  function IntToDecimal(n: int): string
  {
    if n < 0 then "-" + NatToDecimal(-n) else NatToDecimal(n)
  }

  function NatToDecimal(n: nat): string
  {
    if n < 10 then [Digit(n)] else NatToDecimal(n / 10) + [Digit(n % 10)]
  }

  function Digit(d: nat): char
    requires d < 10
  {
    "0123456789"[d]
  }

  /** `items.find(p)`: the first item satisfying `p`, if any. */
  function Find(items: seq<Element>, p: Element -> bool): (r: Option<Element>)
    ensures r.None? <==> forall i :: 0 <= i < |items| ==> !p(items[i])
    ensures r.Some? ==> exists i :: 0 <= i < |items| && items[i] == r.value && p(r.value)
                                    && forall j :: 0 <= j < i ==> !p(items[j])
  {
    if |items| == 0 then None
    else if p(items[0]) then Some(items[0])
    else
      var r := Find(items[1..], p);
      assert forall i :: 1 <= i < |items| ==> items[1..][i - 1] == items[i];
      if r.Some? then
        ghost var i :| 0 <= i < |items[1..]| && items[1..][i] == r.value && p(r.value)
                       && forall j :: 0 <= j < i ==> !p(items[1..][j]);
        assert items[i + 1] == r.value;
        r
      else r
  }

  /** The first element whose property `k` loosely equals `v`
      (`items.find((item) => item.k == v)`). */
  function FindBy(items: seq<Element>, k: string, v: Value): Option<Element>
  {
    Find(items, (item: Element) => LooseEq(Get(item, k), v))
  }

  /** A plain object used as a dictionary: its keys in insertion order. */
  type Dict<V> = seq<(string, V)>

  function Keys<V>(d: Dict<V>): seq<string>
  {
    seq(|d|, i requires 0 <= i < |d| => d[i].0)
  }

  lemma KeysCons<V>(d: Dict<V>)
    requires |d| > 0
    ensures Keys(d) == [d[0].0] + Keys(d[1..])
  {
  }

  /** `d[k]`, reading the first entry with key `k`. */
  function Lookup<V>(d: Dict<V>, k: string): (r: Option<V>)
    ensures r.None? <==> k !in Keys(d)
    ensures r.Some? ==> (k, r.value) in d
  {
    if |d| == 0 then None
    else
      KeysCons(d);
      if d[0].0 == k then Some(d[0].1) else Lookup(d[1..], k)
  }

  /** `d[k] = v`: overwrite in place when `k` is present, append otherwise. */
  function Assign<V>(d: Dict<V>, k: string, v: V): (r: Dict<V>)
    ensures Lookup(r, k) == Some(v)
    ensures forall k' :: k' != k ==> Lookup(r, k') == Lookup(d, k')
    ensures k in Keys(d) ==> Keys(r) == Keys(d)
    ensures k !in Keys(d) ==> Keys(r) == Keys(d) + [k]
  {
    if |d| == 0 then [(k, v)]
    else if d[0].0 == k then
      var r := [(k, v)] + d[1..];
      assert r[0] == (k, v) && r[1..] == d[1..];
      KeysCons(d);
      KeysCons(r);
      r
    else
      var rest := Assign(d[1..], k, v);
      var r := [d[0]] + rest;
      assert r[0] == d[0] && r[1..] == rest;
      KeysCons(d);
      KeysCons(r);
      r
  }

  /** `delete d[k]`: every entry with key `k` is dropped and every other entry is kept. */
  function Remove<V>(d: Dict<V>, k: string): (r: Dict<V>)
    ensures k !in Keys(r)
    ensures forall k' :: k' != k ==> Lookup(r, k') == Lookup(d, k')
    ensures forall i :: 0 <= i < |r| ==> r[i] in d && r[i].0 != k
    ensures forall i :: 0 <= i < |d| && d[i].0 != k ==> d[i] in r
  {
    if |d| == 0 then []
    else
      var rest := Remove(d[1..], k);
      if d[0].0 == k then rest
      else
        var r := [d[0]] + rest;
        KeysCons(r);
        r
  }

  /** `c` grows `b`, which is `a` or `a` plus `xs[0]`, by items of `xs[1..]`;
      so `c` grows `a` by items of `xs`. */
  lemma GrowthFrom<T>(a: seq<T>, b: seq<T>, c: seq<T>, xs: seq<T>)
    requires |xs| > 0 && (b == a || b == a + [xs[0]])
    requires |b| <= |c| && c[..|b|] == b && forall i :: |b| <= i < |c| ==> c[i] in xs[1..]
    ensures |a| <= |c| && c[..|a|] == a && forall i :: |a| <= i < |c| ==> c[i] in xs
  {
    assert c[..|a|] == b[..|a|];
    forall i | |a| <= i < |c| ensures c[i] in xs {
      if i < |b| {
        assert c[i] == b[i] == xs[0];
      } else {
        assert c[i] in xs[1..];
      }
    }
  }

  lemma AppendAssoc<T>(a: seq<T>, b: seq<T>, c: seq<T>)
    ensures (a + b) + c == a + (b + c)
  {
  }

  /** Growing a prefix by one element. */
  lemma PrefixSnoc<T>(s: seq<T>, k: nat)
    requires k < |s|
    ensures s[..k + 1] == s[..k] + [s[k]]
  {
  }

  /** Slicing a sequence that extends one that extends `a`. */
  lemma Suffixes<T>(a: seq<T>, b: seq<T>, c: seq<T>)
    requires |a| <= |b| <= |c| && b[..|a|] == a && c[..|b|] == b
    ensures c[..|a|] == a && c[|a|..] == b[|a|..] + c[|b|..]
  {
    assert c[..|a|] == b[..|a|];
  }
}
