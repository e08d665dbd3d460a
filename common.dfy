/**
 * Small shared vocabulary: an Option type, the unsigned 32-bit range the
 * engine's `u32` values live in, and the C conversions into it.
 */
module Common {

  datatype Option<T> = None | Some(value: T)

  const U32_MODULUS: int := 0x1_0000_0000
  /** `UINT32_MAX`, used by the engine both as a sentinel extent width and as an error return. */
  const UINT32_MAX: int := 0xFFFF_FFFF

  type u32 = x: int | 0 <= x < 0x1_0000_0000

  /** The C conversion of an integer to `u32`: reduction modulo 2^32. */
  function ToU32(x: int): (r: u32)
    ensures 0 <= x < U32_MODULUS ==> r == x
    ensures -U32_MODULUS <= x < 0 ==> r == x + U32_MODULUS
    ensures U32_MODULUS <= x < 2 * U32_MODULUS ==> r == x - U32_MODULUS
  {
    x % U32_MODULUS
  }

  /**
   * `i` is the result of a "first match in order" search for `p` over `s`:
   * -1 when nothing matches, otherwise the least matching position.
   */
  ghost predicate IsFirst<T>(s: seq<T>, p: T -> bool, i: int)
  {
    if i == -1 then forall j :: 0 <= j < |s| ==> !p(s[j])
    else 0 <= i < |s| && p(s[i]) && forall j :: 0 <= j < i ==> !p(s[j])
  }

  /** One more step of a first-match search: the first match in `s[..k + 1]`
      is the one in `s[..k]`, or `k` itself when there was none before. */
  lemma IsFirstStep<T>(s: seq<T>, p: T -> bool, i: int, k: nat)
    requires k < |s| && IsFirst(s[..k], p, i)
    ensures IsFirst(s[..k + 1], p, if i == -1 && p(s[k]) then k else i)
  {
    assert forall j :: 0 <= j < k ==> s[..k + 1][j] == s[..k][j];
  }

  /** The elements of `s` that satisfy `p`, in their original order. */
  function Filter<T>(s: seq<T>, p: T -> bool): seq<T>
  {
    if s == [] then [] else Filter(s[..|s| - 1], p) + (if p(s[|s| - 1]) then [s[|s| - 1]] else [])
  }

  lemma {:induction false} FilterMembership<T>(s: seq<T>, p: T -> bool, x: T)
    ensures x in Filter(s, p) <==> x in s && p(x)
  {
    if s != [] {
      var init := s[..|s| - 1];
      FilterMembership(init, p, x);
      assert s == init + [s[|s| - 1]];
    }
  }

  /** Filtering a concatenation filters each part. */
  lemma {:induction false} FilterAppend<T>(a: seq<T>, b: seq<T>, p: T -> bool)
    ensures Filter(a + b, p) == Filter(a, p) + Filter(b, p)
    decreases |b|
  {
    if b != [] {
      var init := b[..|b| - 1];
      assert (a + b)[..|a + b| - 1] == a + init;
      FilterAppend(a, init, p);
    } else {
      assert a + b == a;
    }
  }

  /** Filtering one more element keeps it exactly when it satisfies `p`. */
  lemma FilterSnoc<T>(s: seq<T>, x: T, p: T -> bool)
    ensures Filter(s + [x], p) == Filter(s, p) + (if p(x) then [x] else [])
  {
    assert (s + [x])[..|s + [x]| - 1] == s;
  }
}
