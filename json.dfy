/**
 * Members of a decoded JSON object, as seen through Python's `dict.get`.
 */
module Json {
  import opened Wrappers

  /** A key of a JSON object: absent, present with `null`, or present with a value. */
  datatype Member<T> = Missing | Null | Present(value: T) {

    /** `d.get(key)`: `None` both for an absent key and for `null`. */
    function Get(): (r: Option<T>)
      ensures r.Some? <==> Present?
      ensures r.Some? ==> r.value == value
    {
      if Present? then Some(value) else None
    }

    /** `d.get(key, default)`: the default only for an absent key; `null` still gives `None`. */
    function GetOr(default: T): (r: Option<T>)
      ensures Missing? ==> r == Some(default)
      ensures Null? ==> r.None?
      ensures Present? ==> r == Some(value)
    {
      match this
      case Missing => Some(default)
      case Null => None
      case Present(v) => Some(v)
    }
  }

  /**
   * `d.get(k, default)` and `d.get(k)` differ only on an absent key: a default does
   * not shield a `null` value, so `record.get('nome', '')` can still be `None`.
   */
  lemma GetOrAgreesWithGet<T>(m: Member<T>, default: T)
    ensures m.GetOr(default) != m.Get() <==> m.Missing?
    ensures m.GetOr(default).None? <==> m.Null?
  {
  }
}
