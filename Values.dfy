/** The Python values the chatbot's functions receive and build, and the exceptions they raise. */
module Values {

  /** A dynamically typed Python value: the functions of the chatbot inspect the type of their
      arguments at run time, so the model keeps every shape they may be handed. */
  datatype Value =
    | PyNone
    | PyBool(b: bool)
    | PyInt(i: int)
    | PyFloat(x: real)
    | PyStr(s: string)
    | PyList(items: seq<Value>)
    | PyDict(fields: map<string, Value>)

  /** Python truthiness: `None`, `False`, zero and empty containers are false, and every other
      value is true. */
  function Truthy(v: Value): (t: bool)
    ensures !t <==> v == PyNone || v == PyBool(false) || v == PyInt(0) || v == PyFloat(0.0)
                    || v == PyStr([]) || v == PyList([]) || v == PyDict(map[])
  {
    match v
    case PyNone => false
    case PyBool(b) => b
    case PyInt(i) => i != 0
    case PyFloat(x) => x != 0.0
    case PyStr(s) => |s| > 0
    case PyList(items) => |items| > 0
    case PyDict(fields) => |fields| > 0
  }

  /** The two exception classes the chatbot raises, with their messages. */
  datatype Exception = ValueError(message: string) | IOError(message: string)
}
