/** The layout hash both application shells use to place an entity: a 32-bit
    signed rolling hash of the id's UTF-16 code units, turned into percentage
    coordinates. JavaScript numbers are doubles, but every intermediate value
    here stays far below 2^53, so exact integers model it; the int32
    conversions of `<<` and `|0` are written out as Wrap32. */
module LayoutHash {

  /** One UTF-16 code unit, as returned by String.prototype.charCodeAt. */
  type CodeUnit = c: int | 0 <= c < 0x1_0000

  const TwoTo31: int := 0x8000_0000
  const TwoTo32: int := 0x1_0000_0000

  predicate IsInt32(h: int)
  {
    -TwoTo31 <= h < TwoTo31
  }

  /** ECMAScript ToInt32: the int32 congruent to `v` modulo 2^32. */
  function Wrap32(v: int): (r: int)
    ensures IsInt32(r)
    ensures (v - r) % TwoTo32 == 0
  {
    (v + TwoTo31) % TwoTo32 - TwoTo31
  }

  /** Wrapping an intermediate result and wrapping only at the end agree. */
  lemma {:induction false} Wrap32Absorbs(a: int, b: int)
    ensures Wrap32(Wrap32(a) + b) == Wrap32(a + b)
  {
    var k := (a + TwoTo31) / TwoTo32;
    assert Wrap32(a) == a - k * TwoTo32;
    assert Wrap32(a) + b + TwoTo31 == (a + b + TwoTo31) + (-k) * TwoTo32;
    ModShift(a + b + TwoTo31, -k);
  }

  lemma {:induction false} ModShift(x: int, k: int)
    ensures (x + k * TwoTo32) % TwoTo32 == x % TwoTo32
  {
    var q := x / TwoTo32;
    var r := x % TwoTo32;
    assert x + k * TwoTo32 == (q + k) * TwoTo32 + r;
    assert 0 <= r < TwoTo32;
  }

  /** One step of the source loop, `hash = (hash << 5) - hash + c; hash |= 0`:
      the shift wraps 32*hash to int32, the rest is exact, and the result is
      the int32 wrap of 31*hash + c. */
  function HashStep(hash: int, c: CodeUnit): (r: int)
    requires IsInt32(hash)
    ensures IsInt32(r)
    ensures r == Wrap32(31 * hash + c)
  {
    var shifted := Wrap32(hash * 32);
    Wrap32Absorbs(hash * 32, -hash + c);
    Wrap32(shifted - hash + c)
  }

  /** The rolling hash of an id, left to right from 0. */
  function RollingHash(id: seq<CodeUnit>): (h: int)
    ensures IsInt32(h)
  {
    if id == [] then 0
    else HashStep(RollingHash(id[..|id| - 1]), id[|id| - 1])
  }

  function AbsInt(n: int): (r: nat)
    ensures r == n || r == -n
  {
    if n < 0 then -n else n
  }

  /** `hash >> 16`: an arithmetic shift, i.e. division rounding down. */
  function ShiftRight16(h: int): (r: int)
    requires IsInt32(h)
    ensures -32768 <= r <= 32767
    ensures r * 65536 <= h < r * 65536 + 65536
  {
    h / 65536
  }

  /** The entity's position in percent of the canvas; `yOffset` is the only
      constant in which the shells differ. */
  function Position(yOffset: int, id: seq<CodeUnit>): (p: (int, int))
    ensures 15 <= p.0 <= 84
    ensures yOffset <= p.1 <= yOffset + 59
    ensures id == [] ==> p == (15, yOffset)
  {
    var hash := RollingHash(id);
    (15 + AbsInt(hash) % 70, yOffset + AbsInt(ShiftRight16(hash)) % 60)
  }

  /** The half-word of the hash that feeds `y` is at most 2^15 in magnitude. */
  lemma HighHalfBound(id: seq<CodeUnit>)
    ensures AbsInt(ShiftRight16(RollingHash(id))) <= 32768
  {
  }

  /** getPosition as the shells run it: one loop over the code units,
      updating `hash` in place. */
  method GetPosition(yOffset: int, id: seq<CodeUnit>) returns (x: int, y: int)
    ensures (x, y) == Position(yOffset, id)
    ensures 15 <= x <= 84 && yOffset <= y <= yOffset + 59
  {
    var hash := 0;
    for i := 0 to |id|
      invariant IsInt32(hash)
      invariant hash == RollingHash(id[..i])
    {
      assert id[..i + 1][..i] == id[..i];
      hash := Wrap32(Wrap32(hash * 32) - hash + id[i]);
    }
    assert id[..|id|] == id;
    x := 15 + AbsInt(hash) % 70;
    y := yOffset + AbsInt(hash / 65536) % 60;
  }
}
