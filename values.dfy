/** JavaScript values as far as check construction observes them: the values a
    properties object can hold, JavaScript's notion of "nullish" and "falsy",
    and the nullish-coalescing operator `??`. */
module JsValues {

  /** A value that is `undefined`, `null` or a real `T`; the typed view of an
      optional TypeScript property such as `activated?: boolean`, which at run
      time may also hold `null`. */
  datatype Nullable<+T> = Undefined | Null | Present(value: T) {

    predicate IsNullish() {
      !Present?
    }

    /** `this ?? fallback` where the fallback is a definite value. */
    function GetOr(fallback: T): (r: T)
      ensures Present? ==> r == value
      ensures IsNullish() ==> r == fallback
    {
      match this
      case Present(v) => v
      case _ => fallback
    }
  }

  datatype EnvironmentVariable = EnvironmentVariable(key: string, value: string)

  /** A reference to another construct by its logical id, resolved when the
      project is deployed rather than when the reference is made. */
  datatype Ref = Ref(ref: string)

  /** The part of an alert channel construct that a check uses: its logical id. */
  datatype AlertChannel = AlertChannel(logicalId: string)

  /** A value stored under a key of a properties object. The shapes of
      `CheckProps` each have a constructor; `Obj` stands for any other nested
      object (a defaults object may carry such keys). */
  datatype Value =
    | Undef
    | Nil
    | Bool(b: bool)
    | Num(n: real)
    | Str(s: string)
    | StrList(items: seq<string>)
    | EnvList(vars: seq<EnvironmentVariable>)
    | GroupRef(group: Ref)
    | ChannelList(channels: seq<AlertChannel>)
    | Obj(fields: map<string, Value>)
  {
    predicate IsNullish() {
      Undef? || Nil?
    }

    /** JavaScript falsiness of the values above: `undefined`, `null`,
        `false`, `0` and `''`; arrays and objects are truthy even when empty. */
    predicate IsFalsy() {
      IsNullish() || this == Bool(false) || this == Num(0.0) || this == Str("")
    }
  }

  /** JavaScript's `a ?? b`: `a` unless it is `undefined` or `null`. */
  function Coalesce(a: Value, b: Value): (r: Value)
    ensures !a.IsNullish() ==> r == a
    ensures a.IsNullish() ==> r == b
    ensures r.IsNullish() <==> a.IsNullish() && b.IsNullish()
  {
    if a.IsNullish() then b else a
  }

  /** JavaScript's `a || b`, the truthiness-based alternative to `??`. */
  function Or(a: Value, b: Value): (r: Value)
    ensures !a.IsFalsy() ==> r == a
    ensures a.IsFalsy() ==> r == b
  {
    if a.IsFalsy() then b else a
  }

  /** `??` and `||` differ exactly on values that are falsy but present. */
  lemma CoalesceDiffersFromOr(a: Value, b: Value)
    ensures Coalesce(a, b) != Or(a, b) <==> a.IsFalsy() && !a.IsNullish() && a != b
  {
  }
}
