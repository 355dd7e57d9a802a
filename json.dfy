/** A JavaScript value as the chat client sees a parsed JSON reply. `Undefined`
    stands for a property that is absent; JSON itself never produces it. Numbers are
    kept as integers: the code only tests them for truthiness and equality. */
module Json {

  datatype Value =
    | Undefined
    | Null
    | Bool(b: bool)
    | Num(n: int)
    | Str(s: string)
    | Arr(items: seq<Value>)
    | Obj(fields: map<string, Value>)

  /** JavaScript truthiness: `undefined`, `null`, `false`, `0` and `""` are falsy,
      every other value (including empty arrays and objects) is truthy. */
  predicate Truthy(v: Value) {
    match v
    case Undefined => false
    case Null => false
    case Bool(b) => b
    case Num(n) => n != 0
    case Str(s) => s != ""
    case Arr(_) => true
    case Obj(_) => true
  }

  /** `null` or `undefined`: reading a property of such a value with `.` throws. */
  predicate Nullish(v: Value) {
    v.Undefined? || v.Null?
  }

  /** `v?.key`: the property when v is an object that has it, `undefined` otherwise.
      On a non-nullish value this is also what `v.key` gives for the keys the chat
      code reads (none of them is a property of strings or arrays). */
  function Prop(v: Value, key: string): (r: Value)
    ensures r != Undefined ==> v.Obj? && key in v.fields && r == v.fields[key]
    ensures v.Obj? && key in v.fields ==> r == v.fields[key]
  {
    if v.Obj? && key in v.fields then v.fields[key] else Undefined
  }

  /** `v && typeof v === 'string'`: a non-empty string. */
  predicate IsText(v: Value) {
    v.Str? && v.s != ""
  }

  /** `a || b`. */
  function Or(a: Value, b: Value): (r: Value)
    ensures Truthy(r) <==> Truthy(a) || Truthy(b)
    ensures Truthy(a) ==> r == a
    ensures !Truthy(a) ==> r == b
  {
    if Truthy(a) then a else b
  }
}
