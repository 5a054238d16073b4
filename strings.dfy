/** String helpers for the operator: Python's `sep.join(parts)`. */
module Strings {

  /** `sep.join(parts)`: the parts in order, with `sep` between neighbours. */
  function Join(sep: string, parts: seq<string>): string
    decreases |parts|
  {
    if |parts| == 0 then ""
    else if |parts| == 1 then parts[0]
    else parts[0] + sep + Join(sep, parts[1..])
  }

  /** Joining a concatenation puts exactly one separator between the two joined halves. */
  lemma {:induction false} JoinAppend(sep: string, xs: seq<string>, ys: seq<string>)
    requires |xs| > 0 && |ys| > 0
    ensures Join(sep, xs + ys) == Join(sep, xs) + sep + Join(sep, ys)
    decreases |xs|
  {
    if |xs| == 1 {
      assert (xs + ys)[0] == xs[0];
      assert (xs + ys)[1..] == ys;
    } else {
      assert (xs + ys)[0] == xs[0];
      assert (xs + ys)[1..] == xs[1..] + ys;
      JoinAppend(sep, xs[1..], ys);
    }
  }

  /** Joining a list with one more element appends the separator and that element. */
  lemma JoinSnoc(sep: string, xs: seq<string>, y: string)
    requires |xs| > 0
    ensures Join(sep, xs + [y]) == Join(sep, xs) + sep + y
  {
    JoinAppend(sep, xs, [y]);
  }

  /** A five-part join written out: the parts with one separator between each neighbouring pair. */
  lemma JoinFive(sep: string, a: string, b: string, c: string, d: string, e: string)
    ensures Join(sep, [a, b, c, d, e]) == a + sep + b + sep + c + sep + d + sep + e
  {
    var jc := Join(sep, [c, d, e]);
    assert jc == c + sep + d + sep + e by { JoinThree(sep, c, d, e); }
    assert Join(sep, [a, b, c, d, e]) == a + sep + b + sep + jc by {
      assert [a, b, c, d, e] == [a, b] + [c, d, e];
      JoinAppend(sep, [a, b], [c, d, e]);
      assert Join(sep, [a, b]) == a + sep + b by { JoinTwo(sep, a, b); }
    }
    Assoc(a + sep + b + sep, c + sep + d + sep, e);
    Assoc(a + sep + b + sep, c + sep, d);
    Assoc(a + sep + b + sep + c + sep, d + sep, e);
  }

  lemma JoinTwo(sep: string, a: string, b: string)
    ensures Join(sep, [a, b]) == a + sep + b
  {
    assert [a, b][1..] == [b];
  }

  lemma JoinThree(sep: string, a: string, b: string, c: string)
    ensures Join(sep, [a, b, c]) == a + sep + b + sep + c
  {
    assert [a, b, c][1..] == [b, c];
    JoinTwo(sep, b, c);
    Assoc(a + sep, b + sep, c);
  }

  lemma Assoc(x: string, y: string, z: string)
    ensures x + (y + z) == x + y + z
  {
  }
}
