/** Shared vocabulary of the domain model: optional values, the kinds of
    exception the entity methods throw, call outcomes, users, timestamps,
    and the `Sum` over a projection that the entities use for their totals. */
module Common {

  /** A point in time; only its identity matters to the model. */
  type Time = int

  datatype Option<T> = None | Some(value: T)

  /** The exception kinds thrown by the entity methods, named after the
      exception classes of the source. `InvalidOperation` is also what
      `Last()` raises on an empty collection. */
  datatype DomainError =
    | InvalidDomainOperation
    | InvalidOperation
    | InvalidArgument
    | EntityNotFound

  /** What a `void` method that may throw returns. */
  datatype Outcome = Pass | Fail(error: DomainError)

  /** What a value-returning method that may throw returns. */
  datatype Result<T> = Ok(value: T) | Err(error: DomainError)

  /** A user is known to the domain model by its identifier only. */
  datatype User = User(id: string)

  /** The sum of `f` over the elements of `s`, in order. */
  function Sum<T>(s: seq<T>, f: T -> real): real
    decreases |s|
  {
    if s == [] then 0.0 else f(s[0]) + Sum(s[1..], f)
  }

  /** Appending one element adds exactly its projection to the sum. */
  lemma {:induction false} SumAppend<T>(s: seq<T>, x: T, f: T -> real)
    ensures Sum(s + [x], f) == Sum(s, f) + f(x)
    decreases |s|
  {
    if s == [] {
      assert [] + [x] == [x];
    } else {
      assert (s + [x])[1..] == s[1..] + [x];
      SumAppend(s[1..], x, f);
    }
  }

  /** The sum over a concatenation is the sum of the two sums. */
  lemma {:induction false} SumConcat<T>(a: seq<T>, b: seq<T>, f: T -> real)
    ensures Sum(a + b, f) == Sum(a, f) + Sum(b, f)
    decreases |a|
  {
    if a == [] {
      assert [] + b == b;
    } else {
      assert (a + b)[1..] == a[1..] + b;
      SumConcat(a[1..], b, f);
    }
  }

  /** A sum of non-negative terms is non-negative. */
  lemma {:induction false} SumNonNegative<T>(s: seq<T>, f: T -> real)
    requires forall k :: 0 <= k < |s| ==> f(s[k]) >= 0.0
    ensures Sum(s, f) >= 0.0
    decreases |s|
  {
    if s != [] {
      assert forall k :: 0 <= k < |s[1..]| ==> f(s[1..][k]) == f(s[k + 1]);
      SumNonNegative(s[1..], f);
    }
  }
}
