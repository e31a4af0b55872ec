/** Values shared by every controller and service of the course-management API:
    optional request fields, JavaScript truthiness, HTTP replies and decimal rendering. */
module Common {

  datatype Option<+T> = None | Some(value: T)

  /** Primary keys are UUID strings. */
  type Id = string

  /** A request field that may be absent (`undefined`/`null`) or present. */
  type Field = Option<string>

  /** JavaScript truthiness of an optional string: absent and "" are falsy. */
  predicate Truthy(v: Field) {
    v.Some? && v.value != ""
  }

  /** The `supplied || current` idiom of the controllers: keep the current value
      unless a truthy one is supplied. */
  function OrElse(supplied: Field, current: string): string {
    if Truthy(supplied) then supplied.value else current
  }

  /** `req.user` as `protect` sets it: the authenticated user's id and role claim. */
  datatype Principal = Principal(id: Id, role: string)

  /** What a middleware does with a request: call `next()` with the request's
      user, or respond with a status and message and stop the chain. */
  datatype Outcome = Next(user: Principal) | Respond(status: int, message: string)

  /** An HTTP reply: a status with a payload, or a status with an error message. */
  datatype Reply<+T> = Ok(status: int, data: T) | Fail(status: int, message: string)

  function Digit(d: nat): char
    requires d < 10
  {
    (48 + d) as char
  }

  /** Decimal rendering of a natural number, as `${n}` does. */
  function ShowNat(n: nat): (s: string)
    ensures |s| >= 1
    ensures forall i :: 0 <= i < |s| ==> '0' <= s[i] <= '9'
    decreases n
  {
    if n < 10 then [Digit(n)] else ShowNat(n / 10) + [Digit(n % 10)]
  }

  /** Different numbers render differently: the last digit is `n % 10` and the
      rest renders `n / 10`, and a single digit is shorter than any other rendering. */
  lemma {:induction false} ShowNatInjective(n: nat, m: nat)
    requires ShowNat(n) == ShowNat(m)
    ensures n == m
    decreases n
  {
    var s := ShowNat(n);
    if n >= 10 && m >= 10 {
      assert s[|s| - 1] == Digit(n % 10) && s[|s| - 1] == Digit(m % 10);
      assert s[..|s| - 1] == ShowNat(n / 10) && s[..|s| - 1] == ShowNat(m / 10);
      ShowNatInjective(n / 10, m / 10);
    }
  }

  /** Decimal rendering of an integer, with a leading '-' when negative. */
  function ShowInt(n: int): (s: string)
    ensures |s| >= 1
    ensures (s[0] == '-') <==> n < 0
  {
    if n < 0 then "-" + ShowNat(-n) else ShowNat(n)
  }

  /** A message that cites `ShowInt(n)` names `n` and no other number. */
  lemma ShowIntInjective(n: int, m: int)
    requires ShowInt(n) == ShowInt(m)
    ensures n == m
  {
    if n < 0 && m < 0 {
      assert ShowInt(n)[1..] == ShowNat(-n) && ShowInt(m)[1..] == ShowNat(-m);
      ShowNatInjective(-n, -m);
    } else if n >= 0 && m >= 0 {
      ShowNatInjective(n, m);
    }
  }

  /** `s` occurs in `text` starting at position `i`. */
  predicate OccursAt(text: string, s: string, i: nat) {
    i + |s| <= |text| && text[i..i + |s|] == s
  }

  /** `s` occurs in `text` as a contiguous piece. */
  ghost predicate Contains(text: string, s: string) {
    exists i: nat :: OccursAt(text, s, i)
  }

  /** Number of elements of `s` that satisfy `p`. */
  function CountWhere<T>(s: seq<T>, p: T -> bool): (n: nat)
    ensures n <= |s|
  {
    if s == [] then 0 else (if p(s[0]) then 1 else 0) + CountWhere(s[1..], p)
  }

  lemma {:induction false} CountWhereAppend<T>(a: seq<T>, b: seq<T>, p: T -> bool)
    ensures CountWhere(a + b, p) == CountWhere(a, p) + CountWhere(b, p)
  {
    if a == [] {
      assert a + b == b;
    } else {
      assert (a + b)[1..] == a[1..] + b;
      CountWhereAppend(a[1..], b, p);
    }
  }

  lemma ContainsItself(s: string)
    ensures Contains(s, s)
  {
    assert OccursAt(s, s, 0);
  }

  /** A piece of `b` is a piece of `a + b`. */
  lemma ContainsAfter(a: string, b: string, s: string)
    requires Contains(b, s)
    ensures Contains(a + b, s)
  {
    var i: nat :| OccursAt(b, s, i);
    assert (a + b)[|a| + i..|a| + i + |s|] == b[i..i + |s|];
    assert OccursAt(a + b, s, |a| + i);
  }

  /** A piece of `a` is a piece of `a + b`. */
  lemma ContainsBefore(a: string, b: string, s: string)
    requires Contains(a, s)
    ensures Contains(a + b, s)
  {
    var i: nat :| OccursAt(a, s, i);
    assert (a + b)[i..i + |s|] == a[i..i + |s|];
    assert OccursAt(a + b, s, i);
  }
}
