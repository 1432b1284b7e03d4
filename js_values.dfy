/**
 * Parsed YAML/JSON documents as JavaScript sees them, and the few pieces of
 * JavaScript semantics the validators depend on: truthiness (every presence
 * test in the validators is `!x[field]`), property access with its
 * TypeError on null/undefined, `Object.entries`, string conversion in
 * template literals, and `required.filter(field => !data[field])`.
 */
module JsValues {
  import opened Strings

  /**
   * A JavaScript value.  An object's properties are listed in JavaScript's
   * own-property order (integer-like keys such as "1" first, ascending,
   * then the other keys in insertion order), which is the order
   * `Object.entries` yields; the parser outcome is taken to deliver them in
   * that order.  Parsers never give an object two properties with the same
   * name.
   * `NativeFunction` stands for a built-in method reached through a
   * prototype (e.g. `[].filter`); no parser produces one.
   */
  datatype Value =
    | Undefined
    | Null
    | Bool(b: bool)
    | Num(n: int)
    | Str(s: string)
    | Arr(items: seq<Value>)
    | Obj(props: seq<(string, Value)>)
    | NativeFunction(name: string)
  {
    /** Reading a property of this value throws a TypeError. */
    predicate Nullish() {
      Undefined? || Null?
    }
  }

  /** JavaScript's ToBoolean: `""`, `0`, `false`, `null` and `undefined` are falsy. */
  predicate Truthy(v: Value)
    ensures Truthy(v) ==> !v.Nullish()
  {
    match v
    case Undefined => false
    case Null => false
    case Bool(b) => b
    case Num(n) => n != 0
    case Str(s) => s != ""
    case _ => true
  }

  /** The outcome of evaluating JavaScript code: a value, or a thrown error's message. */
  datatype Completion<+T> = Normal(value: T) | Abrupt(message: string)

  /** The members every object inherits from Object.prototype. */
  const ObjectPrototypeMembers: seq<string> :=
    ["constructor", "hasOwnProperty", "isPrototypeOf", "propertyIsEnumerable",
     "toLocaleString", "toString", "valueOf"]

  /** The methods of Array.prototype. */
  const ArrayPrototypeMembers: seq<string> :=
    ["at", "concat", "copyWithin", "entries", "every", "fill", "filter", "find",
     "findIndex", "findLast", "findLastIndex", "flat", "flatMap", "forEach",
     "includes", "indexOf", "join", "keys", "lastIndexOf", "map", "pop", "push",
     "reduce", "reduceRight", "reverse", "shift", "slice", "some", "sort",
     "splice", "toReversed", "toSorted", "toSpliced", "unshift", "values", "with"]

  /** The methods of String.prototype. */
  const StringPrototypeMembers: seq<string> :=
    ["at", "charAt", "charCodeAt", "codePointAt", "concat", "endsWith", "includes",
     "indexOf", "lastIndexOf", "localeCompare", "match", "matchAll", "normalize",
     "padEnd", "padStart", "repeat", "replace", "replaceAll", "search", "slice",
     "split", "startsWith", "substring", "toLowerCase", "toUpperCase",
     "toLocaleLowerCase", "toLocaleUpperCase", "trim", "trimStart", "trimEnd"]

  /** The methods of Number.prototype. */
  const NumberPrototypeMembers: seq<string> := ["toExponential", "toFixed", "toPrecision"]

  /** `Object.prototype` has a member called `key`. */
  predicate ObjectMember(key: string) {
    exists i | 0 <= i < |ObjectPrototypeMembers| :: ObjectPrototypeMembers[i] == key
  }

  /** `Array.prototype` has a method called `key`. */
  predicate ArrayMember(key: string) {
    exists i | 0 <= i < |ArrayPrototypeMembers| :: ArrayPrototypeMembers[i] == key
  }

  /** `String.prototype` has a method called `key`. */
  predicate StringMember(key: string) {
    exists i | 0 <= i < |StringPrototypeMembers| :: StringPrototypeMembers[i] == key
  }

  /** `Number.prototype` has a method called `key`. */
  predicate NumberMember(key: string) {
    exists i | 0 <= i < |NumberPrototypeMembers| :: NumberPrototypeMembers[i] == key
  }

  /** The first own property called `key`, or undefined. */
  function Lookup(props: seq<(string, Value)>, key: string): (v: Value)
    ensures (forall k | 0 <= k < |props| :: props[k].0 != key) ==> v == Undefined
  {
    if props == [] then Undefined
    else if props[0].0 == key then props[0].1
    else Lookup(props[1..], key)
  }

  /**
   * `v[key]` for a value that is neither null nor undefined: an own property,
   * else an inherited member, else undefined.  (Numeric indices into arrays and
   * strings are not modelled: no validator reads a numeric key.)
   */
  function Prop(v: Value, key: string): Value
    requires !v.Nullish()
  {
    match v
    case Obj(props) =>
      var own := Lookup(props, key);
      if own != Undefined then own
      else if ObjectMember(key) then NativeFunction(key)
      else Undefined
    case Arr(items) =>
      if key == "length" then Num(|items|)
      else if ArrayMember(key) || ObjectMember(key) then NativeFunction(key)
      else Undefined
    case Str(s) =>
      if key == "length" then Num(Utf16Length(s))
      else if StringMember(key) || ObjectMember(key) then NativeFunction(key)
      else Undefined
    case Num(_) =>
      if NumberMember(key) || ObjectMember(key) then NativeFunction(key)
      else Undefined
    case _ =>
      if ObjectMember(key) then NativeFunction(key) else Undefined
  }

  /** V8's message for reading `key` of null or undefined. */
  function ReadError(v: Value, key: string): string
    requires v.Nullish()
  {
    "Cannot read properties of " + (if v.Null? then "null" else "undefined") + " (reading '" + key + "')"
  }

  /** `Object.entries(v)` for a value that is neither null nor undefined. */
  function Entries(v: Value): (es: seq<(string, Value)>)
    requires !v.Nullish()
    ensures v.Obj? ==> es == v.props
    ensures v.Arr? ==> |es| == |v.items|
    ensures v.Str? ==> |es| == |v.s|
    ensures !v.Obj? && !v.Arr? && !v.Str? ==> es == []
  {
    match v
    case Obj(props) => props
    case Arr(items) => Indexed(items)
    case Str(s) => Indexed(Chars(s))
    case _ => []
  }

  /** The one-character strings of `s`, in order. */
  function Chars(s: string): (cs: seq<Value>)
    ensures |cs| == |s|
  {
    seq(|s|, i requires 0 <= i < |s| => Str([s[i]]))
  }

  /** Elements paired with their indices rendered as property names. */
  function Indexed(items: seq<Value>): (es: seq<(string, Value)>)
    ensures |es| == |items|
  {
    seq(|items|, i requires 0 <= i < |items| => (NatToString(i), items[i]))
  }

  /** `${v}`: how a value is rendered inside a template literal. */
  function ToDisplay(v: Value): string
    decreases v
  {
    match v
    case Undefined => "undefined"
    case Null => "null"
    case Bool(b) => if b then "true" else "false"
    case Num(n) => IntToString(n)
    case Str(s) => s
    case Arr(items) =>
      // Array.prototype.join renders null and undefined elements as "".
      Join(seq(|items|, i requires 0 <= i < |items| =>
             if items[i].Nullish() then "" else ToDisplay(items[i])), ",")
    case Obj(_) => "[object Object]"
    case NativeFunction(name) => "function " + name + "() { [native code] }"
  }

  /**
   * `fields.filter(field => !v[field])`: the fields of the table that `v`
   * lacks or holds a falsy value for, in table order.
   */
  function MissingFields(v: Value, fields: seq<string>): (missing: seq<string>)
    requires !v.Nullish()
    ensures |missing| <= |fields|
  {
    if fields == [] then []
    else (if Truthy(Prop(v, fields[0])) then [] else [fields[0]]) + MissingFields(v, fields[1..])
  }

  /**
   * A field is listed exactly when it is in the table and falsy in `v`;
   * nothing is listed exactly when every field of the table is truthy.
   */
  lemma {:induction false} MissingFieldsMeaning(v: Value, fields: seq<string>)
    requires !v.Nullish()
    ensures forall f :: f in MissingFields(v, fields) <==> f in fields && !Truthy(Prop(v, f))
    ensures MissingFields(v, fields) == [] <==> forall k | 0 <= k < |fields| :: Truthy(Prop(v, fields[k]))
  {
    if fields != [] {
      MissingFieldsMeaning(v, fields[1..]);
      assert forall k | 1 <= k < |fields| :: fields[k] == fields[1..][k - 1];
    }
  }

  /** When two values agree on every field of a table, they lack the same fields. */
  lemma {:induction false} MissingFieldsDependOnTableOnly(v: Value, w: Value, fields: seq<string>)
    requires !v.Nullish() && !w.Nullish()
    requires forall k | 0 <= k < |fields| :: Prop(v, fields[k]) == Prop(w, fields[k])
    ensures MissingFields(v, fields) == MissingFields(w, fields)
  {
    if fields != [] {
      MissingFieldsDependOnTableOnly(v, w, fields[1..]);
    }
  }
}
