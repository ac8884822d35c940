/**
 * JSON values as the TypeScript code sees them after `JSON.parse`, with
 * the JavaScript operators the code leans on: truthiness and `||`,
 * nullishness and `??`, `&&`, property access with and without optional
 * chaining, `Object.keys`, template-literal conversion to a string.
 */
module JsValue {
  import opened Wrappers
  import opened Strings
  import Seqs

  /**
   * A JavaScript value. Numbers are integers: every number the system
   * reads or writes is an id, a count, a minute total or a position.
   * An object is its list of properties in insertion order.
   */
  datatype Js =
    | Undefined
    | Null
    | Bool(b: bool)
    | Num(n: int)
    | Str(s: string)
    | Arr(items: seq<Js>)
    | Obj(fields: seq<(string, Js)>)

  /**
   * The message of the `TypeError` raised by reading a property of `null`
   * or `undefined`; the engine's own text also names the value and the
   * property, which this one message stands for.
   */
  const TypeError: string := "Cannot read properties of null or undefined"

  /** `!!v` */
  predicate Truthy(v: Js) {
    match v
    case Undefined => false
    case Null => false
    case Bool(b) => b
    case Num(n) => n != 0
    case Str(s) => s != ""
    case Arr(_) => true
    case Obj(_) => true
  }

  /** `v == null`, that is `v === null || v === undefined` */
  predicate IsNullish(v: Js) { v == Undefined || v == Null }

  /** `a || b` */
  function Or(a: Js, b: Js): Js { if Truthy(a) then a else b }

  /** `a ?? b` */
  function Coalesce(a: Js, b: Js): Js { if IsNullish(a) then b else a }

  /** `a && b` */
  function And(a: Js, b: Js): Js { if Truthy(a) then b else a }

  /** The falsy values that are not nullish: where `||` and `??` part ways. */
  predicate FalsyNotNullish(v: Js) { !Truthy(v) && !IsNullish(v) }

  /**
   * `||` and `??` give different answers exactly when the left operand is
   * `false`, `0` or `""` and the right operand is another value.
   */
  lemma OrCoalesceDiffer(a: Js, b: Js)
    ensures Or(a, b) != Coalesce(a, b) <==> FalsyNotNullish(a) && a != b
    ensures FalsyNotNullish(a) <==> a == Bool(false) || a == Num(0) || a == Str("")
  {
  }

  /** `fields[k]` for an object built by `JSON.parse`: the last property with the name wins. */
  function Lookup(fields: seq<(string, Js)>, k: string): (r: Js)
    ensures r == Undefined || exists i :: 0 <= i < |fields| && fields[i] == (k, r)
    ensures (exists i :: 0 <= i < |fields| && fields[i].0 == k) ==> exists i :: 0 <= i < |fields| && fields[i] == (k, r)
    ensures (forall i :: 0 <= i < |fields| ==> fields[i].0 != k) ==> r == Undefined
  {
    if fields == [] then Undefined
    else if fields[|fields| - 1].0 == k then fields[|fields| - 1].1
    else Lookup(fields[..|fields| - 1], k)
  }

  /** A property appended after the others overrides every earlier one of the same name. */
  lemma LookupAppend(fields: seq<(string, Js)>, k: string, v: Js, k': string)
    ensures Lookup(fields + [(k, v)], k') == if k' == k then v else Lookup(fields, k')
  {
    assert (fields + [(k, v)])[..|fields|] == fields;
  }

  /** `v?.k`: `undefined` on a nullish value or a missing property. */
  function Prop(v: Js, k: string): Js {
    match v
    case Obj(fields) => Lookup(fields, k)
    case Arr(items) => if k == "length" then Num(|items|) else Undefined
    case Str(s) => if k == "length" then Num(|s|) else Undefined
    case _ => Undefined
  }

  /** `v.k`: throws on a nullish value. */
  function Member(v: Js, k: string): (r: Result<Js>)
    ensures r.Err? <==> IsNullish(v)
    ensures r.Ok? ==> r.value == Prop(v, k)
  {
    if IsNullish(v) then Err(TypeError) else Ok(Prop(v, k))
  }

  /** `v?.[i]` */
  function At(v: Js, i: nat): Js {
    match v
    case Arr(items) => if i < |items| then items[i] else Undefined
    case Str(s) => if i < |s| then Str([s[i]]) else Undefined
    case Obj(fields) => Lookup(fields, NatToString(i))
    case _ => Undefined
  }

  /** `Array.isArray(v)` */
  predicate IsArray(v: Js) { v.Arr? }

  /** `v.map(x => x.id)` on an array: throws when an element is nullish. */
  function MapIds(items: seq<Js>): (r: Result<seq<Js>>)
    ensures r.Ok? <==> forall i :: 0 <= i < |items| ==> !IsNullish(items[i])
    ensures r.Err? ==> r.error == TypeError
    ensures r.Ok? ==> |r.value| == |items|
    ensures r.Ok? ==> forall i :: 0 <= i < |items| ==> r.value[i] == Prop(items[i], "id")
  {
    if items == [] then Ok([])
    else if IsNullish(items[0]) then Err(TypeError)
    else
      var rest := MapIds(items[1..]);
      if rest.Err? then
        assert !IsNullish(items[0]) && exists i :: 1 <= i < |items| && IsNullish(items[i]) by {
          var j :| 0 <= j < |items[1..]| && IsNullish(items[1..][j]);
          assert items[1..][j] == items[j + 1];
        }
        rest
      else Ok([Prop(items[0], "id")] + rest.value)
  }

  /** `Object.keys(v)`: throws on a nullish value; arrays and strings have index keys. */
  function Keys(v: Js): (r: Result<seq<string>>)
    ensures r.Err? <==> IsNullish(v)
  {
    match v
    case Undefined => Err(TypeError)
    case Null => Err(TypeError)
    case Obj(fields) => Ok(Seqs.Distinct(Names(fields)))
    case Arr(items) => Ok(IndexNames(|items|))
    case Str(s) => Ok(IndexNames(|s|))
    case _ => Ok([])
  }

  function Names(fields: seq<(string, Js)>): (r: seq<string>)
    ensures |r| == |fields| && forall i :: 0 <= i < |fields| ==> r[i] == fields[i].0
  {
    if fields == [] then [] else [fields[0].0] + Names(fields[1..])
  }

  /** `["0", "1", ..., String(n - 1)]` */
  function IndexNames(n: nat): (r: seq<string>)
    ensures |r| == n && forall i :: 0 <= i < n ==> r[i] == NatToString(i)
  {
    if n == 0 then [] else IndexNames(n - 1) + [NatToString(n - 1)]
  }

  /** `${v}` in a template literal. */
  function ToText(v: Js): string {
    match v
    case Undefined => "undefined"
    case Null => "null"
    case Bool(b) => if b then "true" else "false"
    case Num(n) => IntToString(n)
    case Str(s) => s
    case Arr(items) => Join(",", ItemTexts(items))
    case Obj(_) => "[object Object]"
  }

  /** Array elements as `Array.prototype.join` writes them: `null` and `undefined` become "". */
  function ItemTexts(items: seq<Js>): seq<string>
    decreases items
  {
    if items == [] then []
    else [if IsNullish(items[0]) then "" else ToText(items[0])] + ItemTexts(items[1..])
  }

  /** The object without the named properties: `const { a, b, ...rest } = v`. */
  function Omit(fields: seq<(string, Js)>, names: set<string>): (r: seq<(string, Js)>)
    ensures forall k :: k in names ==> Lookup(r, k) == Undefined
    ensures forall k :: k !in names ==> Lookup(r, k) == Lookup(fields, k)
  {
    if fields == [] then []
    else
      var init := Omit(fields[..|fields| - 1], names);
      var last := fields[|fields| - 1];
      if last.0 in names then init
      else
        assert forall k :: Lookup(init + [last], k) == if k == last.0 then last.1 else Lookup(init, k) by {
          forall k ensures Lookup(init + [last], k) == if k == last.0 then last.1 else Lookup(init, k) {
            LookupAppend(init, last.0, last.1, k);
          }
        }
        init + [last]
  }
}
