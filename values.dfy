/** Values as the class receives them, from call-site parameters or from host facts. */
module Values {
  import opened Wrappers

  /** A Puppet value: a boolean, a string, or a hash of strings (the `options` parameter). */
  datatype Value = Bool(b: bool) | Str(s: string) | Hash(entries: map<string, string>)

  /** The strings that the boolean normalisation reads as true. */
  const TrueWords: set<string> := {"true", "yes"}

  /** The strings that the boolean normalisation reads as false. */
  const FalseWords: set<string> := {"false", "no"}

  /**
   * Boolean normalisation: real booleans stand for themselves, the words
   * "true"/"yes" and "false"/"no" for the boolean they name; any other value
   * is read as false.
   */
  function ToBool(v: Value): (r: bool)
    ensures v.Str? && v.s in TrueWords ==> r
    ensures v.Str? && v.s in FalseWords ==> !r
    ensures v.Bool? ==> r == v.b
  {
    match v
    case Bool(b) => b
    case Str(s) => s in TrueWords
    case Hash(_) => false
  }

  /** A string-valued parameter; a value of another shape leaves it undefined. */
  function ToText(v: Value): Option<string>
  {
    match v
    case Str(s) => Some(s)
    case _ => None
  }

  /** A hash-valued parameter; a value of another shape reads as the empty hash. */
  function ToHash(v: Value): map<string, string>
  {
    match v
    case Hash(m) => m
    case _ => map[]
  }

  /** "yes" and "no" are interchangeable with the booleans they name. */
  lemma YesNoNormalised()
    ensures ToBool(Str("yes")) == ToBool(Bool(true)) == ToBool(Str("true")) == true
    ensures ToBool(Str("no")) == ToBool(Bool(false)) == ToBool(Str("false")) == false
  {
  }
}
