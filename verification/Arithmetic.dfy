/**
 The arithmetic the kernels are built from, taken as a parameter.

 No law relates the operations: addition need not be associative or commutative, and lt need not
 be an order. A theorem proved for every Ops therefore holds for the runtime's 32-bit floats, with
 rounding and NaN, as long as each operation is a function of its operands.
 */
module Arithmetic {

  datatype Ops<!F> = Ops(
    zero: F,
    one: F,
    half: F,
    epsilon: F,       // 1.0e-5 of layer_norm
    cubic: F,         // 0.044715 of gelu_in_place
    twoOverPi: F,     // 2 / pi of gelu_in_place
    lowest: F,        // numeric_limits<float>::lowest()
    add: (F, F) -> F,
    sub: (F, F) -> F,
    mul: (F, F) -> F,
    div: (F, F) -> F,
    sqrt: F -> F,
    exp: F -> F,
    tanh: F -> F,
    ofNat: nat -> F,
    lt: (F, F) -> bool,
    isZero: F -> bool)
  {
    function Add(x: F, y: F): F { add(x, y) }

    function Sub(x: F, y: F): F { sub(x, y) }

    function Mul(x: F, y: F): F { mul(x, y) }

    function Div(x: F, y: F): F { div(x, y) }

    function Sqrt(x: F): F { sqrt(x) }

    function Exp(x: F): F { exp(x) }

    function Tanh(x: F): F { tanh(x) }

    function OfNat(n: nat): F { ofNat(n) }

    predicate Lt(x: F, y: F) { lt(x, y) }

    predicate IsZero(x: F) { isZero(x) }

    /** std::max(x, y), which keeps x unless x < y. */
    function Max(x: F, y: F): F { if Lt(x, y) then y else x }
  }
}
