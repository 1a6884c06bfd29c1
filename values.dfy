/** The values an entity's attributes hold, the errors raised while handling them, and
    `str()` of a value as the registry key uses it. */
module Values {
  import opened Text
  import opened Timestamps

  /** An attribute value: a string, an integer, a float (kept as the literal it was read
      from, not as a number), a list, or a `datetime`. */
  datatype Value =
    | Str(s: string)
    | Int(i: int)
    | Float(literal: string)
    | List(items: seq<Value>)
    | Time(t: DateTime)

  /** The exceptions the storage layer raises. */
  datatype Error =
    | TimestampNotText(key: string)   // TypeError from `datetime.fromisoformat`
    | TimestampNotIso(key: string)    // ValueError from `datetime.fromisoformat`
    | ReadOnlyAttribute(key: string)  // TypeError or AttributeError from `setattr`
    | MissingAttribute(key: string)   // AttributeError when reading an unset attribute
    | MissingClassTag                 // KeyError: a record without `__class__`
    | UnknownClassTag(tag: Value)     // `__class__` names no model class
    | SelfArgument                    // TypeError: a keyword `self` collides with `__init__`'s own

  /** The Python exception class each error is raised as. */
  function ExceptionName(e: Error): string {
    match e
    case TimestampNotText(_) => "TypeError"
    case TimestampNotIso(_) => "ValueError"
    case ReadOnlyAttribute(key) => if key == "__weakref__" then "AttributeError" else "TypeError"
    case MissingAttribute(_) => "AttributeError"
    case MissingClassTag => "KeyError"
    case UnknownClassTag(tag) => if tag.Str? then "NameError" else "TypeError"
    case SelfArgument => "TypeError"
  }

  /** Whether `json.dump` can write the value: anything but a `datetime`, at any depth of
      a list. */
  predicate Serializable(v: Value)
    decreases v
  {
    match v
    case Time(_) => false
    case List(items) => forall i :: 0 <= i < |items| ==> Serializable(items[i])
    case _ => true
  }

  /** `str(v)`. A list shows its items with `repr`, which quotes strings. */
  function ToText(v: Value): string
    decreases v
  {
    match v
    case Str(s) => s
    case Int(i) => IntText(i)
    case Float(literal) => literal
    case Time(t) => Format(t, ' ')
    case List(items) =>
      "[" + Join(seq(|items|, k requires 0 <= k < |items| =>
                     if items[k].Str? then "'" + items[k].s + "'" else ToText(items[k])), ", ")
      + "]"
  }
}
