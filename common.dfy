/** Values shared by every module: optional JSON fields and JavaScript truthiness. */
module Common {

  /** A JSON field or a variable that may be missing, where `null` and `undefined`
      behave alike (every use here tests truthiness or `??`). */
  datatype Option<+T> = None | Some(value: T)

  /** `if (s)` on an optional string: present and non-empty. */
  predicate StrTruthy(o: Option<string>) { o.Some? && o.value != "" }

  /** `if (x)` on an optional number: present and non-zero (NaN is not modelled). */
  predicate NumTruthy(o: Option<real>) { o.Some? && o.value != 0.0 }

  /** `if (n)` on an optional integer id: present and non-zero. */
  predicate IntTruthy(o: Option<int>) { o.Some? && o.value != 0 }

  /** `if (b)` on an optional boolean. */
  predicate BoolTruthy(o: Option<bool>) { o == Some(true) }

  /** The JavaScript expression `o || fallback` on an optional string. */
  function OrElse(o: Option<string>, fallback: string): string
  {
    if StrTruthy(o) then o.value else fallback
  }

  /** The JavaScript expression `x || fallback` on an optional number. */
  function NumOrElse(o: Option<real>, fallback: real): real
  {
    if NumTruthy(o) then o.value else fallback
  }
}
