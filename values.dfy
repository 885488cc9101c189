/** The dynamically typed values a test double receives as arguments
    (Swift's `Any`), reduced to the three types the model needs. */
module Values {
  import opened Decimal

  /** The runtime type of a value; `TypeName` is what `"\(T.self)"` and the
      reflected `storedType` print. */
  datatype TypeTag = IntType | StringType | BoolType

  datatype Dyn = IntValue(i: int) | StringValue(s: string) | BoolValue(b: bool)

  function TypeOf(d: Dyn): (t: TypeTag)
    ensures t == IntType <==> d.IntValue?
    ensures t == StringType <==> d.StringValue?
  {
    match d
    case IntValue(_) => IntType
    case StringValue(_) => StringType
    case BoolValue(_) => BoolType
  }

  /** A Swift type name: never empty, and capitalised. */
  function TypeName(t: TypeTag): (n: string)
    ensures |n| > 0 && 'A' <= n[0] <= 'Z'
  {
    match t
    case IntType => "Int"
    case StringType => "String"
    case BoolType => "Bool"
  }

  /** What Swift's string interpolation `"\(value)"` prints for a value. */
  function Display(d: Dyn): (s: string)
    ensures d.StringValue? ==> s == d.s
    ensures d.IntValue? ==> |s| > 0
    ensures d.IntValue? ==> (s[0] == '-' <==> d.i < 0)
    ensures d.BoolValue? ==> (s == "true" <==> d.b)
  {
    match d
    case IntValue(i) => IntToString(i)
    case StringValue(s) => s
    case BoolValue(b) => if b then "true" else "false"
  }

  /** Two values of the same runtime type are equal exactly when their
      payloads are, so `==` on `Dyn` is Swift's `==` after a successful cast. */
  lemma SameTypeEquality(a: Dyn, b: Dyn)
    requires TypeOf(a) == TypeOf(b)
    ensures a == b <==> (match a
                         case IntValue(x) => x == b.i
                         case StringValue(x) => x == b.s
                         case BoolValue(x) => x == b.b)
  {
  }

  lemma TypeNameInjective(t: TypeTag, u: TypeTag)
    ensures TypeName(t) == TypeName(u) <==> t == u
  {
  }

  /** Two values of the same type that print alike are equal, so a value
      mismatch message always shows two different texts. */
  lemma DisplayInjectiveWithinType(a: Dyn, b: Dyn)
    requires TypeOf(a) == TypeOf(b)
    ensures Display(a) == Display(b) <==> a == b
  {
    if a.IntValue? && Display(a) == Display(b) {
      IntToStringInjective(a.i, b.i);
    }
  }
}
