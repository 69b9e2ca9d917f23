/** The SOC models the library knows by name, `ModelToString`, and the
    `get_model` check that turns the string "None" into an error. */
module BoardModel {
  import opened Errors

  /** `enum class Model`; `Other(code)` is any value of the underlying type
      outside the six enumerators (reachable only through a cast). */
  datatype Model = J721E_SK | AM68_SK | AM69_SK | AM62A_SK | AM62P_SK | J722S_EVM | Other(code: int)

  predicate IsEnumerator(m: Model)
  {
    !m.Other?
  }

  /** `ModelToString`: each enumerator's own identifier, "None" otherwise. */
  function ModelToString(m: Model): (r: string)
    ensures m.Other? <==> r == "None"
  {
    match m
    case J721E_SK => "J721E_SK"
    case AM68_SK => "AM68_SK"
    case AM69_SK => "AM69_SK"
    case AM62A_SK => "AM62A_SK"
    case AM62P_SK => "AM62P_SK"
    case J722S_EVM => "J722S_EVM"
    case Other(_) => "None"
  }

  /** `get_model()`: the model's name, or an error when that name is "None". */
  function GetModel(m: Model): (r: Result<string>)
    ensures r.Ok? <==> IsEnumerator(m)
    ensures r.Ok? ==> r.value == ModelToString(m) && r.value != "None"
    ensures r.Err? ==> r.error == ModelNameError
  {
    var name := ModelToString(m);
    if name == "None" then Err(ModelNameError) else Ok(name)
  }

  /** Distinct enumerators have distinct names. */
  lemma {:induction false} ModelToStringInjective(a: Model, b: Model)
    requires IsEnumerator(a) && IsEnumerator(b)
    ensures ModelToString(a) == ModelToString(b) ==> a == b
  {
  }
}
