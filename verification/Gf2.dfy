/** Polynomials over two elements modulo x^16 + x^12 + x^5 + 1, as 16-bit words. */
module Gf2 {

  function Add(x: bv16, y: bv16): bv16
  {
    x ^ y
  }

  /** Multiplication by x: the coefficient shifted out at the top takes away x^16 + x^12 + x^5 + 1. */
  function Shift(x: bv16): bv16
  {
    (x << 1) ^ ((x >> 15) * 0x1021)
  }

  function Unshift(x: bv16): bv16
  {
    ((x ^ ((x & 1) * 0x1021)) >> 1) | (x << 15)
  }

  function Shift8(x: bv16): bv16
  {
    Shift(Shift(Shift(Shift(Shift(Shift(Shift(Shift(x))))))))
  }

  /** A byte as the eight highest coefficients, and as the eight lowest. */
  function High(b: bv8): bv16
  {
    (b as bv16) << 8
  }

  function Low(b: bv8): bv16
  {
    b as bv16
  }

  lemma AddAssociative(x: bv16, y: bv16, z: bv16)
    ensures Add(Add(x, y), z) == Add(x, Add(y, z))
  {
  }

  lemma AddCommutative(x: bv16, y: bv16)
    ensures Add(x, y) == Add(y, x)
  {
  }

  lemma XorZero(x: bv16, y: bv16)
    ensures 0 ^ x == x && (x ^ y == 0 <==> x == y)
  {
  }

  lemma AddZero(x: bv16, y: bv16)
    ensures Add(0, x) == x && (Add(x, y) == 0 <==> x == y)
  {
    XorZero(x, y);
  }

  lemma HighLinear(a: bv8, b: bv8)
    ensures High(a ^ b) == Add(High(a), High(b))
  {
  }

  lemma HighZero()
    ensures High(0) == 0
  {
  }

  lemma HighLowZero(a: bv8, b: bv8)
    ensures Add(High(a), Low(b)) == 0 <==> a == 0 && b == 0
  {
  }

  lemma AddSwap(x: bv16, y: bv16, a: bv16, b: bv16)
    ensures Add(Add(x, y), Add(a, b)) == Add(Add(x, a), Add(y, b))
  {
    hide Add;
    AddAssociative(x, y, Add(a, b));
    AddAssociative(y, a, b);
    AddCommutative(y, a);
    AddAssociative(a, y, b);
    AddAssociative(x, a, Add(y, b));
  }

  lemma ShiftXor(x: bv16, y: bv16)
    ensures Shift(x ^ y) == Shift(x) ^ Shift(y)
  {
  }

  lemma ShiftLinear(x: bv16, y: bv16)
    ensures Shift(Add(x, y)) == Add(Shift(x), Shift(y))
  {
    hide Shift;
    ShiftXor(x, y);
  }

  lemma ShiftKernel(x: bv16)
    ensures Shift(x) == 0 <==> x == 0
  {
  }

  lemma ShiftOnto(x: bv16)
    ensures Shift(Unshift(x)) == x
  {
  }

  lemma ShiftLow(b: bv8)
    ensures Shift8(Low(b)) == High(b)
  {
  }

  lemma Shift8Linear(x: bv16, y: bv16)
    ensures Shift8(Add(x, y)) == Add(Shift8(x), Shift8(y))
  {
    hide Shift, Add;
    var a1, b1 := Shift(x), Shift(y);
    var a2, b2 := Shift(a1), Shift(b1);
    var a3, b3 := Shift(a2), Shift(b2);
    var a4, b4 := Shift(a3), Shift(b3);
    var a5, b5 := Shift(a4), Shift(b4);
    var a6, b6 := Shift(a5), Shift(b5);
    ShiftLinear(x, y);
    ShiftLinear(a1, b1);
    ShiftLinear(a2, b2);
    ShiftLinear(a3, b3);
    ShiftLinear(a4, b4);
    ShiftLinear(a5, b5);
    ShiftLinear(a6, b6);
    ShiftLinear(Shift(a6), Shift(b6));
  }

  lemma Shift8Kernel(x: bv16)
    ensures Shift8(x) == 0 <==> x == 0
  {
    hide Shift;
    var a1 := Shift(x);
    var a2 := Shift(a1);
    var a3 := Shift(a2);
    var a4 := Shift(a3);
    var a5 := Shift(a4);
    var a6 := Shift(a5);
    ShiftKernel(x);
    ShiftKernel(a1);
    ShiftKernel(a2);
    ShiftKernel(a3);
    ShiftKernel(a4);
    ShiftKernel(a5);
    ShiftKernel(a6);
    ShiftKernel(Shift(a6));
  }

  /** Multiplication by x^8 is one to one. */
  lemma Shift8Injective(x: bv16, y: bv16)
    requires Shift8(x) == Shift8(y)
    ensures x == y
  {
    hide Shift8, Add;
    Shift8Linear(x, y);
    AddZero(Shift8(x), Shift8(y));
    Shift8Kernel(Add(x, y));
    AddZero(x, y);
  }

  /** Every polynomial is a multiple of x^8. */
  lemma Shift8Onto(y: bv16) returns (x: bv16)
    ensures Shift8(x) == y
  {
    hide Shift, Unshift;
    var a1 := Unshift(y);
    var a2 := Unshift(a1);
    var a3 := Unshift(a2);
    var a4 := Unshift(a3);
    var a5 := Unshift(a4);
    var a6 := Unshift(a5);
    var a7 := Unshift(a6);
    x := Unshift(a7);
    ShiftOnto(y);
    ShiftOnto(a1);
    ShiftOnto(a2);
    ShiftOnto(a3);
    ShiftOnto(a4);
    ShiftOnto(a5);
    ShiftOnto(a6);
    ShiftOnto(a7);
  }
}
