// Python's integer view of `bool` and its bitwise operators, as far as the
// DISARMING guard of motion_planning.py uses them. Python integers are
// unbounded two's-complement values, so `~` and `&` are defined on `int`.
module PythonInt {

  /** `int(b)`: a Python bool is the integer 1 or 0. */
  function BoolToInt(b: bool): (r: int)
    ensures 0 <= r <= 1 && (r == 1 <==> b)
  {
    if b then 1 else 0
  }

  /** Python's truth test on an int: everything but 0 is true. */
  predicate Truthy(x: int) {
    x != 0
  }

  function Abs(x: int): nat {
    if x < 0 then -x else x
  }

  /** Python's `~x`, the bitwise complement of an unbounded two's-complement integer. */
  function Invert(x: int): (r: int)
    ensures r < 0 <==> x >= 0
  {
    -x - 1
  }

  /** Python's `x & y` on unbounded two's-complement integers, one bit at a time
      from the least significant end (`/` and `%` by 2 are floor division here,
      as in Python). 0 and -1 (all bits clear, all bits set) end the recursion. */
  function BitAnd(x: int, y: int): (r: int)
    ensures r < 0 <==> x < 0 && y < 0
    ensures x >= 0 ==> 0 <= r <= x
    ensures y >= 0 ==> 0 <= r <= y
    decreases Abs(x) + Abs(y)
  {
    if x == 0 || y == 0 then 0
    else if x == -1 then y
    else if y == -1 then x
    else 2 * BitAnd(x / 2, y / 2) + (x % 2) * (y % 2)
  }
}
