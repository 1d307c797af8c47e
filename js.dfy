/** The few pieces of JavaScript semantics the builder relies on: what a
    configuration entry can hold, when `a || b` picks its left operand, what a
    template literal turns a value into, and what awaiting a collaborator
    gives back. */
module Js {

  datatype Option<+T> = None | Some(value: T)

  /** A value read from the build configuration. A string is kept as is; any
      other value (a number, a boolean, null, an object or an array) is kept as
      its truthiness and the text `${v}` gives for it, since that is all the
      builder ever looks at. */
  datatype Value = Undefined | Str(s: string) | Other(truthy: bool, text: string)

  /** JavaScript truthiness: `undefined` and the empty string are falsy. */
  predicate Truthy(v: Value)
    ensures v == Undefined || v == Str("") ==> !Truthy(v)
    ensures v.Str? && v.s != "" ==> Truthy(v)
    ensures v.Other? ==> (Truthy(v) <==> v.truthy)
  {
    match v
    case Undefined => false
    case Str(s) => s != ""
    case Other(t, _) => t
  }

  /** `typeof v === 'string'` */
  predicate IsString(v: Value)
    ensures IsString(v) ==> (Truthy(v) <==> v != Str(""))
    ensures v == Undefined ==> !IsString(v)
  {
    v.Str?
  }

  /** `a || b`: the left operand when it is truthy, the right one otherwise. */
  function Or(a: Value, b: Value): (r: Value)
    ensures r == a || r == b
    ensures Truthy(r) <==> Truthy(a) || Truthy(b)
    ensures Truthy(a) ==> r == a
  {
    if Truthy(a) then a else b
  }

  /** `${v}`: the text a template literal substitutes for `v`. */
  function Template(v: Value): (r: string)
    ensures IsString(v) ==> r == v.s
    ensures v == Undefined ==> r == "undefined"
  {
    match v
    case Undefined => "undefined"
    case Str(s) => s
    case Other(_, text) => text
  }

  /** What a thrown or rejected JavaScript exception carries. */
  datatype Exception = Exception(message: string)

  /** The outcome of calling (and awaiting) a collaborator: the value it
      returned, or the exception it threw or its promise was rejected with. */
  datatype Outcome<+T> = Returned(value: T) | Threw(exception: Exception)
  {
    /** The exception, if the call threw. */
    function Error(): (r: Option<Exception>)
      ensures r.None? <==> Returned?
      ensures Threw? ==> r == Some(exception)
    {
      match this
      case Returned(_) => None
      case Threw(e) => Some(e)
    }

    /** The returned value, or `default` when the call threw. */
    function GetOr(default: T): (r: T)
      ensures Returned? ==> r == value
    {
      match this
      case Returned(v) => v
      case Threw(_) => default
    }
  }
}
