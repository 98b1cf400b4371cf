/** Small vocabulary shared by every part of the model. */
module Common {
  datatype Option<+T> = None | Some(value: T)

  datatype Result<+T, +E> = Ok(value: T) | Err(error: E)

  /** Identifiers are modelled by their rank in string order, so `<` on ids is the
      program's string comparison. */
  type Id = nat

  /** Timestamps: the program stores UTC ISO strings and only ever compares them. */
  type Time = int

  /** The first n elements with one more taken from s are the first n + 1 elements. */
  lemma TakeNext<T>(s: seq<T>, n: nat)
    requires n < |s|
    ensures s[..n + 1] == s[..n] + [s[n]]
    ensures s[..n + 1][..n] == s[..n]
  {
  }

  function Min(a: int, b: int): int {
    if a <= b then a else b
  }

  function Max(a: int, b: int): int {
    if a >= b then a else b
  }

  function Members(ids: seq<Id>): set<Id> {
    set id | id in ids
  }

  predicate IdLe(a: Id, b: Id) {
    a <= b
  }
}
