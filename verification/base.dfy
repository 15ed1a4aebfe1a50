/** Small value types shared by every module of the relay model. */
module Base {

  /** Python's `None` versus a present value. */
  datatype Option<+T> = None | Some(value: T)

  /** A computation that either returns a value or raises an error. */
  datatype Result<+T, +E> = Ok(value: T) | Err(error: E)

  /** One octet of a `bytes` object. */
  newtype byte = x: int | 0 <= x < 256

  /** Python truthiness of an optional string: `None` and `""` are falsy. */
  predicate Present(s: Option<string>) {
    s.Some? && s.value != ""
  }

  /** `s or default` for an optional string. */
  function OrElse(s: Option<string>, default: string): (r: string)
    ensures Present(s) ==> r == s.value
    ensures !Present(s) ==> r == default
  {
    if Present(s) then s.value else default
  }

  /** 2 to the power `n`. */
  function Pow2(n: nat): (r: nat)
    ensures r >= 1
  {
    if n == 0 then 1 else 2 * Pow2(n - 1)
  }

  /** `x` to the power `n` on reals. */
  function PowReal(x: real, n: nat): real {
    if n == 0 then 1.0 else PowReal(x, n - 1) * x
  }

  /** A prefix of a sequence stays a prefix when more is appended. */
  lemma PrefixOfAppend<T>(p: seq<T>, s: seq<T>, t: seq<T>)
    requires p <= s
    ensures p <= s + t
  {
    assert (s + t)[..|s|] == s;
  }

  /** Being a prefix is transitive. */
  lemma PrefixTransitive<T>(p: seq<T>, s: seq<T>, t: seq<T>)
    requires p <= s && s <= t
    ensures p <= t
  {
    assert t[..|s|][..|p|] == t[..|p|];
  }
}
