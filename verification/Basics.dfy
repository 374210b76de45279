/** Small value types and arithmetic shared by the whole model. */
module Basics {

  type Id = string

  datatype Option<+T> = None | Some(value: T)

  /** The outcome of a fallible call; `:-` propagates the error as `?` does. */
  datatype Result<+T> = Ok(value: T) | Err(error: string)
  {
    predicate IsFailure() { Err? }
    function PropagateFailure<U>(): (r: Result<U>)
      requires Err?
    {
      Err(error)
    }
    function Extract(): (r: T)
      requires Ok?
    {
      value
    }
  }

  function Pow2(e: nat): (r: nat)
    ensures r >= 1
  {
    if e == 0 then 1 else 2 * Pow2(e - 1)
  }

  /** `x >> j` on unsigned integers. */
  function Shr(x: nat, j: nat): (r: nat)
    ensures r <= x
    decreases j
  {
    if j == 0 then x else Shr(x / 2, j - 1)
  }

  lemma {:induction false} ShrLast(x: nat, j: nat)
    requires j > 0
    ensures Shr(x, j) == Shr(x, j - 1) / 2
    decreases j
  {
    if j > 1 {
      ShrLast(x / 2, j - 1);
    }
  }

  lemma {:induction false} ShrMono(x: nat, y: nat, j: nat)
    requires x <= y
    ensures Shr(x, j) <= Shr(y, j)
    decreases j
  {
    if j > 0 {
      ShrMono(x / 2, y / 2, j - 1);
    }
  }

  /** Adding a power of two that the shift does not reach adds its shifted value. */
  lemma {:induction false} ShrAddPow2(x: nat, l: nat, j: nat)
    requires j <= l
    ensures Shr(x + Pow2(l), j) == Shr(x, j) + Pow2(l - j)
    decreases j
  {
    if j > 0 {
      assert (x + Pow2(l)) / 2 == x / 2 + Pow2(l - 1);
      ShrAddPow2(x / 2, l - 1, j - 1);
    }
  }

  lemma {:induction false} ShrSmall(x: nat, l: nat)
    requires x < Pow2(l)
    ensures Shr(x, l) == 0
    decreases l
  {
    if l > 0 {
      ShrSmall(x / 2, l - 1);
    }
  }

  lemma {:induction false} ShrPow2Ones(l: nat, j: nat)
    requires j <= l
    ensures Shr(Pow2(l) - 1, j) == Pow2(l - j) - 1
    decreases j
  {
    if j > 0 {
      assert (Pow2(l) - 1) / 2 == Pow2(l - 1) - 1;
      ShrPow2Ones(l - 1, j - 1);
    }
  }

  lemma {:induction false} Pow2Mono(a: nat, b: nat)
    requires a <= b
    ensures Pow2(a) <= Pow2(b)
    decreases b
  {
    if a < b {
      Pow2Mono(a, b - 1);
    }
  }

  /** `x << j`. */
  function Shl(x: nat, j: nat): (r: nat)
    decreases j
  {
    if j == 0 then x else Shl(2 * x, j - 1)
  }

  lemma {:induction false} ShlSucc(x: nat, j: nat)
    ensures Shl(x + 1, j) == Shl(x, j) + Pow2(j)
    decreases j
  {
    if j > 0 {
      ShlSucc(2 * x, j - 1);
      ShlSucc(2 * x + 1, j - 1);
    }
  }

  lemma {:induction false} ShlMono(x: nat, y: nat, j: nat)
    requires x < y
    ensures Shl(x, j) < Shl(y, j)
    decreases j
  {
    if j > 0 {
      ShlMono(2 * x, 2 * y, j - 1);
    }
  }

  lemma ShlInjective(x: nat, y: nat, j: nat)
    requires Shl(x, j) == Shl(y, j)
    ensures x == y
  {
    if x < y {
      ShlMono(x, y, j);
    } else if y < x {
      ShlMono(y, x, j);
    }
  }

  lemma {:induction false} ShlShl(x: nat, a: nat, b: nat)
    ensures Shl(x, a + b) == Shl(Shl(x, a), b)
    decreases a
  {
    if a > 0 {
      ShlShl(2 * x, a - 1, b);
    }
  }

  lemma {:induction false} ShrShl(x: nat, j: nat)
    ensures Shr(Shl(x, j), j) == x
    decreases j
  {
    if j > 0 {
      ShrShl(2 * x, j - 1);
      ShrLast(Shl(x, j), j);
    }
  }

  lemma ShlZero(j: nat)
    ensures Shl(0, j) == 0
  {
  }
}
