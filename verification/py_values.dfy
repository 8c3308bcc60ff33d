/** The slice of Python semantics the scorers depend on: the values found in a
    `yfinance` fundamentals dictionary, their truthiness, `dict.get` with a
    default, and the `max(0, min(10, x))` clamp every score passes through. */
module PyValues {

  datatype Option<+T> = None | Some(value: T)

  /** A value stored under a key of a fundamentals dictionary: Python's `None`
      or a number. */
  datatype PyValue = PyNone | PyNum(x: real)

  /** A fundamentals dictionary (`Ticker.info`), keyed by field name. */
  type Info = map<string, PyValue>

  /** Python truthiness of a value: `None` and `0` are false, every other
      number is true. */
  predicate Truthy(v: PyValue) {
    v.PyNum? && v.x != 0.0
  }

  /** `v and v > t` as a branch condition. */
  predicate TruthyAbove(v: PyValue, t: real) {
    Truthy(v) && v.x > t
  }

  /** `v and v < t` as a branch condition. */
  predicate TruthyBelow(v: PyValue, t: real) {
    Truthy(v) && v.x < t
  }

  /** Python truthiness of an optional dictionary: `None` and `{}` are false. */
  predicate NonEmpty(info: Option<Info>) {
    info.Some? && |info.value| > 0
  }

  /** `info.get(key, default)`. */
  function Get(info: Info, key: string, default: PyValue): PyValue {
    if key in info then info[key] else default
  }

  /** `max(0, min(10, x))`: the final step of every score. */
  function Clamp(x: int): (r: int)
    ensures 0 <= r <= 10
    ensures 0 <= x <= 10 ==> r == x
    ensures x < 0 ==> r == 0
    ensures x > 10 ==> r == 10
  {
    var capped := if x < 10 then x else 10;
    if capped > 0 then capped else 0
  }
}
