/** The extraction record: a dictionary from field names to Python values. */
module Records {
  import opened Common
  import opened Sorting

  /** The Python values a record holds: strings, ints (`type`) and floats (`total`). */
  datatype Value = Str(s: string) | Int(i: int) | Float(x: real)

  /** One invoice's fields (`path`, `file`, `type`, `number`, `uid`, ...). */
  type Record = map<string, Value>

  /** Python truthiness: empty strings and zeros are false. */
  predicate Truthy(v: Value)
  {
    match v
    case Str(s) => s != []
    case Int(i) => i != 0
    case Float(x) => x != 0.0
  }

  /** The key Python's `<` compares a value by: ints and floats as numbers, strings as text. */
  function KeyOf(v: Value): (k: Key)
    ensures k.TextKey? <==> v.Str?
  {
    match v
    case Str(s) => TextKey(s)
    case Int(i) => NumKey(i as real)
    case Float(x) => NumKey(x)
  }

  /** Python's binary `+` on two values: concatenation of strings, addition of numbers
      (an int and a float give a float), and a TypeError for a string with a number. */
  function Add(a: Value, b: Value): (r: Result<Value>)
    ensures r.Ok? <==> (a.Str? <==> b.Str?)
    ensures a.Str? && b.Str? ==> r == Ok(Str(a.s + b.s))
  {
    match (a, b)
    case (Str(s), Str(t)) => Ok(Str(s + t))
    case (Int(i), Int(j)) => Ok(Int(i + j))
    case (Int(i), Float(y)) => Ok(Float(i as real + y))
    case (Float(x), Int(j)) => Ok(Float(x + j as real))
    case (Float(x), Float(y)) => Ok(Float(x + y))
    case _ => Err(TypeError)
  }
}
