/** `ProgressBar` (`service/progressBar.ts`): a value clamped into [0, total] and its
    rendering as `length - 1` cells of block characters. Each cell stands for 7 steps:
    the cells below the value are full blocks, the cell the value ends in shows a partial
    block, and the rest are spaces. JavaScript numbers are modelled as reals. */
module ProgressBar {

  /** `SYMBOLS`: the full block, then ever thinner ones. */
  const Symbols: seq<char> := ['█', '▇', '▆', '▅', '▄', '▃', '▂']

  /** `Math.trunc` */
  function Trunc(x: real): (r: int)
    ensures x >= 0.0 ==> r == x.Floor
    ensures x < 0.0 ==> r == -((-x).Floor)
  {
    if x >= 0.0 then x.Floor else -((-x).Floor)
  }

  /** `Math.max(Math.min(value, total), 0)` */
  function Clamp(value: real, total: real): (r: real)
    requires total >= 0.0
    ensures 0.0 <= r <= total
    ensures 0.0 <= value <= total ==> r == value
    ensures value < 0.0 ==> r == 0.0
    ensures value > total ==> r == total
  {
    if value > total then total else if value < 0.0 then 0.0 else value
  }

  /** `Math.abs` */
  function Abs(x: real): (r: real)
    ensures r >= 0.0 && (r == x || r == -x)
  {
    if x < 0.0 then -x else x
  }

  /** The number of steps `render` fills: the value's share of the `(length - 1) * 7`
      steps, truncated. */
  function Absolute(current: real, total: real, length: int): int
    requires total > 0.0
  {
    Trunc(current / total * ((length - 1) * 7) as real)
  }

  /** A value within [0, total] fills between none and all of the steps. */
  lemma AbsoluteRange(current: real, total: real, length: int)
    requires total > 0.0 && 0.0 <= current <= total && length >= 1
    ensures 0 <= Absolute(current, total, length) <= (length - 1) * 7
  {
    var share, steps := current / total, ((length - 1) * 7) as real;
    assert 0.0 <= share <= 1.0 by {
      assert share * total == current;
    }
    assert 0.0 <= share * steps <= steps;
  }

  /** When a cell is neither full nor empty, its symbol index `7 - absolute % 7` is
      between 1 and 6: never the full block, never past the last symbol. */
  lemma PartialIndex(i: int, absolute: int)
    requires i * 7 - 7 < absolute < i * 7
    ensures 1 <= 7 - absolute % 7 <= 6
  {
  }

  /** The symbol of cell `i` (counting from 1) for `absolute` filled steps. */
  function Cell(i: int, absolute: int): (c: char)
    ensures c == ' ' || c in Symbols
  {
    if i * 7 > absolute then
      if i * 7 - 7 < absolute then
        PartialIndex(i, absolute);
        Symbols[7 - absolute % 7]
      else ' '
    else Symbols[0]
  }

  /** What `render` returns for `absolute` filled steps: cells 1 to `length - 1`. */
  function Rendered(absolute: int, length: int): string {
    seq(if length > 1 then length - 1 else 0, k => Cell(k + 1, absolute))
  }

  /** The rendering is full blocks, at most one partial block right after them, and
      spaces, in that order: cell `k` (from 0) is full below `absolute / 7`, partial at
      `absolute / 7` when `absolute` is not a multiple of 7, and blank after. */
  lemma RenderedShape(absolute: int, length: int, k: int)
    requires 0 <= absolute && 0 <= k < |Rendered(absolute, length)|
    ensures k < absolute / 7 ==> Rendered(absolute, length)[k] == Symbols[0]
    ensures k == absolute / 7 && absolute % 7 != 0 ==> Rendered(absolute, length)[k] == Symbols[7 - absolute % 7]
    ensures k > absolute / 7 || (k == absolute / 7 && absolute % 7 == 0) ==> Rendered(absolute, length)[k] == ' '
  {
    var q, r := absolute / 7, absolute % 7;
    assert absolute == 7 * q + r;
    if k < q {
      assert (k + 1) * 7 <= 7 * q;
    } else if k == q {
      assert (k + 1) * 7 == 7 * q + 7;
    } else {
      assert k * 7 >= 7 * q + 7;
    }
  }

  /** A bar at 0 renders only spaces, and a full bar only full blocks. */
  lemma RenderedEnds(total: real, length: int)
    requires total > 0.0
    ensures forall k :: 0 <= k < |Rendered(Absolute(0.0, total, length), length)| ==> Rendered(Absolute(0.0, total, length), length)[k] == ' '
    ensures forall k :: 0 <= k < |Rendered(Absolute(total, total, length), length)| ==> Rendered(Absolute(total, total, length), length)[k] == Symbols[0]
  {
    assert total / total == 1.0;
    var steps := (length - 1) * 7;
    assert Absolute(total, total, length) == steps by {
      assert total / total * steps as real == steps as real;
    }
    forall k | 0 <= k < |Rendered(steps, length)|
      ensures Rendered(steps, length)[k] == Symbols[0]
    {
      assert (k + 1) * 7 <= steps;
    }
  }

  class ProgressBar {
    /** `_current` */
    var current: real
    /** `_total` */
    const total: real
    /** `_length` */
    const length: int

    ghost predicate Valid()
      reads this
    {
      total > 0.0 && 0.0 <= current <= total
    }

    /** A new bar starts at 0. */
    constructor (total: real, length: int)
      requires total > 0.0
      ensures Valid() && this.total == total && this.length == length && current == 0.0
    {
      this.total := total;
      this.length := length;
      current := 0.0;
    }

    /** `set` */
    method Set(value: real)
      requires Valid()
      modifies this
      ensures Valid() && current == Clamp(value, total)
    {
      current := if value > total then total else if value < 0.0 then 0.0 else value;
    }

    /** `add`: the value moves up by the size of `delta`, so it never decreases. */
    method Add(delta: real)
      requires Valid()
      modifies this
      ensures Valid() && current == Clamp(old(current) + Abs(delta), total) && current >= old(current)
    {
      Set(current + Abs(delta));
    }

    /** `subtract`: the value moves down by the size of `delta`, so it never
        increases. */
    method Subtract(delta: real)
      requires Valid()
      modifies this
      ensures Valid() && current == Clamp(old(current) - Abs(delta), total) && current <= old(current)
    {
      Set(current - Abs(delta));
    }

    /** The `current` getter */
    method Current() returns (c: real)
      requires Valid()
      ensures 0.0 <= c <= total && c == current
    {
      c := current;
    }

    /** `render`: one symbol per cell 1 to `length - 1`. */
    method Render() returns (r: string)
      requires Valid()
      ensures r == Rendered(Absolute(current, total, length), length)
      ensures |r| == if length > 1 then length - 1 else 0
    {
      var absolute := Trunc(current / total * ((length - 1) * 7) as real);
      var result: seq<char> := [];
      var i := 1;
      while i < length
        invariant 1 <= i <= if length > 1 then length else 1
        invariant result == Rendered(absolute, i)
      {
        var progress := i * 7;
        var symbol;
        if progress > absolute {
          if progress - 7 < absolute {
            PartialIndex(i, absolute);
            symbol := Symbols[7 - absolute % 7];
          } else {
            symbol := ' ';
          }
        } else {
          symbol := Symbols[0];
        }
        RenderedSnoc(absolute, i);
        result := result + [symbol];
        i := i + 1;
      }
      assert absolute == Absolute(current, total, length);
      r := result;
    }
  }

  lemma RenderedSnoc(absolute: int, i: int)
    requires i >= 1
    ensures Rendered(absolute, i + 1) == Rendered(absolute, i) + [Cell(i, absolute)]
  {
  }
}
