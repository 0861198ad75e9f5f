/**
 * The tri-state field of a partial update in the v2 web API: a field is either left out
 * of the request, or given a value, and that value may itself be `null`.
 *
 * The Java class keeps a value and a flag behind a private constructor that only its two
 * factories call, so its only states are "defined with some value, possibly null" and
 * "undefined, with a null value". The datatype has exactly those two states, and being a
 * value it never changes after construction, as the class's final fields promise.
 */
module UpdateFields {
  import opened Wrappers

  /** `None` stands for Java's `null`. */
  datatype UpdateField<T> = NotSet | Set(value: Option<T>)

  /** A field given in the request, possibly with `null`. */
  function WithValue<T>(value: Option<T>): (f: UpdateField<T>)
    ensures IsDefined(f) && GetValue(f) == value
  {
    Set(value)
  }

  /** A field left out of the request. */
  function Undefined<T>(): (f: UpdateField<T>)
    ensures !IsDefined(f) && GetValue(f) == None
  {
    NotSet
  }

  function GetValue<T>(f: UpdateField<T>): Option<T>
  {
    match f
    case NotSet => None
    case Set(v) => v
  }

  function IsDefined<T>(f: UpdateField<T>): bool
  {
    f.Set?
  }

  /** The two factories reach every field: each one is rebuilt from what its getters report. */
  lemma FactoriesReachEveryField<T>(f: UpdateField<T>)
    ensures f == if IsDefined(f) then WithValue(GetValue(f)) else Undefined()
  {
  }

  /** An undefined field reads as `null`; only a defined one can hold a value. */
  lemma UndefinedReadsNull<T>(f: UpdateField<T>)
    ensures GetValue(f).Some? ==> IsDefined(f)
  {
  }

  /**
   * Hands the value to the consumer when the field is defined, `null` included, and does
   * nothing otherwise. The consumer is a step on some state `S` it changes.
   */
  function ApplyIfDefined<T, S>(f: UpdateField<T>, consumer: (S, Option<T>) -> S, state: S): (r: S)
    ensures IsDefined(f) ==> r == consumer(state, GetValue(f))
    ensures !IsDefined(f) ==> r == state
  {
    match f
    case NotSet => state
    case Set(v) => consumer(state, v)
  }

  /** A consumer that records its calls: it is called once, with the stored value, exactly when the field is defined. */
  lemma ApplyIfDefinedCallsOnce<T>(f: UpdateField<T>)
    ensures var calls := ApplyIfDefined(f, (trace: seq<Option<T>>, v: Option<T>) => trace + [v], []);
      && (|calls| == 1 <==> IsDefined(f))
      && (|calls| == 0 <==> !IsDefined(f))
      && (IsDefined(f) ==> calls == [GetValue(f)])
  {
  }

  /** `toString` is the value's own; a `null` value, which every undefined field holds, fails. */
  function ToString<T>(f: UpdateField<T>, show: T -> string): (r: Result<string>)
    ensures r.Err? <==> GetValue(f).None?
    ensures r.Ok? ==> r.value == show(GetValue(f).value)
  {
    match GetValue(f)
    case None => Err("NullPointerException")
    case Some(v) => Ok(show(v))
  }

  lemma UndefinedToStringFails<T>(show: T -> string)
    ensures ToString(Undefined<T>(), show).Err?
    ensures ToString(WithValue<T>(None), show).Err?
  {
  }
}
