/** Python's optional floats (`Float = Optional[float]`), the truthiness test the
    components apply to them, dictionary lookups with a default, and the physical
    constants of rocket_system.py. Python floats are modelled as mathematical reals. */
module Values {

  datatype Option<+T> = None | Some(value: T)

  /** Standard gravity, m/s^2. */
  const G0: real := 9.80665

  /** Universal gas constant, J/(kmol K). */
  const UniversalGasConstant: real := 8314.5

  /** Python's `if x:` on an `Optional[float]`: both `None` and `0.0` are false. */
  predicate Truthy(x: Option<real>) {
    x.Some? && x.value != 0.0
  }

  /** Python's `x or 0` on an `Optional[float]`. */
  function OrZero(x: Option<real>): real {
    if Truthy(x) then x.value else 0.0
  }

  /** Python's `d.get(key, default)`. */
  function Get(m: map<string, real>, key: string, default: real): real {
    if key in m then m[key] else default
  }

  /** Presence and value of a key in one term: `Some(m[key])` or `None`. */
  function Lookup(m: map<string, real>, key: string): Option<real> {
    if key in m then Some(m[key]) else None
  }

  /** `x or 0` never hides a truthy value and turns every falsy one into zero. */
  lemma OrZeroIsTruthyValue(x: Option<real>)
    ensures OrZero(x) != 0.0 <==> Truthy(x)
    ensures Truthy(x) ==> OrZero(x) == x.value
  {
  }

  /** Two maps that agree on the presence and value of every key are equal. */
  lemma LookupExtensionality(m1: map<string, real>, m2: map<string, real>)
    requires forall k :: Lookup(m1, k) == Lookup(m2, k)
    ensures m1 == m2
  {
    assert m1.Keys == m2.Keys by {
      forall k ensures k in m1 <==> k in m2 {
        assert Lookup(m1, k) == Lookup(m2, k);
      }
    }
    forall k | k in m1 ensures m1[k] == m2[k] {
      assert Lookup(m1, k) == Lookup(m2, k);
    }
  }

  /** Python's `sub in s` on strings: `sub` occurs in `s` as a contiguous block. */
  predicate Contains(s: string, sub: string)
    decreases |s|
  {
    sub <= s || (s != [] && Contains(s[1..], sub))
  }

  /** `Contains` holds exactly when `sub` starts at some position of `s`. */
  lemma {:induction false} ContainsAt(s: string, sub: string)
    ensures Contains(s, sub) <==> exists i :: 0 <= i <= |s| && IsPrefixAt(sub, s, i)
    decreases |s|
  {
    if sub <= s {
      assert IsPrefixAt(sub, s, 0);
    } else if s == [] {
    } else {
      ContainsAt(s[1..], sub);
      if Contains(s[1..], sub) {
        var i :| 0 <= i <= |s[1..]| && IsPrefixAt(sub, s[1..], i);
        assert s[1..][i..] == s[i + 1..];
        assert IsPrefixAt(sub, s, i + 1);
      }
      if exists i :: 0 <= i <= |s| && IsPrefixAt(sub, s, i) {
        var i :| 0 <= i <= |s| && IsPrefixAt(sub, s, i);
        assert i != 0;
        assert s[1..][i - 1..] == s[i..];
        assert IsPrefixAt(sub, s[1..], i - 1);
      }
    }
  }

  /** `sub` is a prefix of `s[i..]`. */
  predicate IsPrefixAt(sub: string, s: string, i: nat)
    requires i <= |s|
  {
    sub <= s[i..]
  }
}
