/**
 * The PHP and Laravel value semantics the core relies on, for values that are
 * strings or null (`None`).
 */
module Php {
  import opened Wrappers

  /** PHP truthiness of a string or null, as `! $x` and `$x ? … : …` test it. */
  predicate Truthy(v: Option<string>)
    ensures !Truthy(v) <==> v in {None, Some(""), Some("0")}
  {
    match v
    case None => false
    case Some(s) => s != "" && s != "0"
  }

  /** PHP's `empty()` on a string or null: null, `''` and `'0'` are empty. It is
      exactly the negation of truthiness. */
  predicate IsEmpty(v: Option<string>)
    ensures IsEmpty(v) <==> !Truthy(v)
  {
    v.None? || v.value == "" || v.value == "0"
  }

  /**
   * Laravel's dot-notation getter (`Arr::get`, `config()`) applied, below the
   * segments already walked, to an array whose values are all strings. A path
   * holding a dot would have to descend into a string, so it reads the default;
   * any other path reads the entry of that name.
   */
  function FlatGet(m: map<string, string>, path: string): (r: Option<string>)
    ensures r.Some? <==> '.' !in path && path in m
    ensures r.Some? ==> r.value == m[path]
  {
    if '.' in path then None
    else if path in m then Some(m[path])
    else None
  }
}
