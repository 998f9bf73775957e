/**
 * A submitted Flask form (`request.form.to_dict()`): a dictionary from field
 * names to the submitted text, and the conversions the evaluators apply to it.
 */
module FormFields {
  import opened Wrappers
  import opened TextOps

  type Form = map<string, string>

  /** `form[key]`: the text, or KeyError when the field was not submitted. */
  function Required(form: Form, key: string): (r: Result<string>)
    ensures r.Ok? <==> key in form
    ensures r.Ok? ==> r.value == form[key]
    ensures r.Err? ==> r.error == KeyError(key)
  {
    if key in form then Ok(form[key]) else Err(KeyError(key))
  }

  /** `form.get(key, default)` for a text field. */
  function TextOr(form: Form, key: string, default: string): (r: string)
    ensures key in form ==> r == form[key]
    ensures key !in form ==> r == default
  {
    if key in form then form[key] else default
  }

  /** `int(form[key])` */
  function RequiredInt(form: Form, key: string): (r: Result<int>)
    ensures r.Ok? <==> key in form && ParseInt(form[key]).Some?
    ensures r.Ok? ==> r.value == ParseInt(form[key]).value
    ensures key !in form ==> r == Err(KeyError(key))
  {
    if key !in form then Err(KeyError(key))
    else match ParseInt(form[key])
      case None => Err(ValueError(key))
      case Some(n) => Ok(n)
  }

  /** `float(form[key])` */
  function RequiredReal(form: Form, key: string): (r: Result<real>)
    ensures r.Ok? <==> key in form && ParseReal(form[key]).Some?
    ensures r.Ok? ==> r.value == ParseReal(form[key]).value
    ensures key !in form ==> r == Err(KeyError(key))
  {
    if key !in form then Err(KeyError(key))
    else match ParseReal(form[key])
      case None => Err(ValueError(key))
      case Some(x) => Ok(x)
  }

  /**
   * `int(form.get(key, default))`: an absent field gives the default, but a
   * submitted empty field is passed to `int` and raises.
   */
  function IntOr(form: Form, key: string, default: int): (r: Result<int>)
    ensures key !in form ==> r == Ok(default)
    ensures key in form && form[key] == "" ==> r == Err(ValueError(key))
    ensures key in form ==> (r.Ok? <==> ParseInt(form[key]).Some?)
    ensures key in form && r.Ok? ==> r.value == ParseInt(form[key]).value
  {
    if key !in form then Ok(default)
    else match ParseInt(form[key])
      case None => Err(ValueError(key))
      case Some(n) => Ok(n)
  }

  /**
   * `float(form.get(key, default) or default)`: an absent field and a
   * submitted empty field both give the default.
   */
  function RealOr(form: Form, key: string, default: real): (r: Result<real>)
    ensures key !in form || form[key] == "" ==> r == Ok(default)
    ensures key in form && form[key] != "" ==>
      (r.Ok? <==> ParseReal(form[key]).Some?) && (r.Ok? ==> r.value == ParseReal(form[key]).value)
  {
    if key !in form || form[key] == "" then Ok(default)
    else match ParseReal(form[key])
      case None => Err(ValueError(key))
      case Some(x) => Ok(x)
  }
}
