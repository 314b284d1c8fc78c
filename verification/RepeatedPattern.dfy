/**
 The test that rejects a secret made of one block written several times: a
 nonempty text repeats a shorter block exactly when it occurs in its own
 doubling before the halfway point.
 */
module RepeatedPattern {
  predicate OccursAt(text: string, pattern: string, i: nat) {
    i + |pattern| <= |text| && text[i..i + |pattern|] == pattern
  }

  /** `text.find(pattern, start)`: the first occurrence from `start` on, or -1. */
  function Find(text: string, pattern: string, start: nat): (index: int)
    ensures index == -1 || (index >= start && OccursAt(text, pattern, index))
    ensures forall i: nat :: i >= start && OccursAt(text, pattern, i) ==> 0 <= index <= i
    decreases |text| - start
  {
    if start + |pattern| > |text| then -1
    else if OccursAt(text, pattern, start) then start
    else Find(text, pattern, start + 1)
  }

  predicate IsRepeatedPattern(value: string) {
    if value == [] then false else Find(value + value, value, 1) != |value|
  }

  function Repeat(block: string, times: nat): (text: string)
    ensures |text| == times * |block|
  {
    if times == 0 then [] else block + Repeat(block, times - 1)
  }

  ghost predicate RepeatsSomeBlock(value: string) {
    exists block, times: nat :: block != [] && times >= 2 && value == Repeat(block, times)
  }

  lemma {:induction false} RepeatAdds(block: string, m: nat, n: nat)
    ensures Repeat(block, m + n) == Repeat(block, m) + Repeat(block, n)
  {
    if m > 0 {
      RepeatAdds(block, m - 1, n);
      Associates(block, Repeat(block, m - 1), Repeat(block, n));
    } else {
      Associates([], [], Repeat(block, n));
    }
  }

  lemma Associates(a: string, b: string, c: string)
    ensures a + (b + c) == a + b + c && [] + c == c
  {
  }

  lemma RepeatOnce(block: string)
    ensures Repeat(block, 1) == block
  {
    assert block + [] == block;
  }

  /** Two nonempty texts that commute are powers of one common block. */
  lemma {:induction false} CommutingTextsSharePower(x: string, y: string) returns (block: string, m: nat, n: nat)
    requires x != [] && y != [] && x + y == y + x
    ensures block != [] && m >= 1 && n >= 1 && x == Repeat(block, m) && y == Repeat(block, n)
    decreases |x| + |y|
  {
    if |x| == |y| {
      assert x == (x + y)[..|x|] == y;
      block, m, n := x, 1, 1;
      RepeatOnce(x);
    } else if |x| < |y| {
      var rest := y[|x|..];
      CommonPrefix(x, y);
      block, m, n := CommutingTextsSharePower(x, rest);
      RepeatAdds(block, m, n);
      n := m + n;
    } else {
      var rest := x[|y|..];
      CommonPrefix(y, x);
      block, m, n := CommutingTextsSharePower(rest, y);
      RepeatAdds(block, n, m);
      m := n + m;
    }
  }

  /** The shorter of two commuting texts is a prefix of the longer, and commutes with what remains of it. */
  lemma CommonPrefix(x: string, y: string)
    requires |x| < |y| && x + y == y + x
    ensures y == x + y[|x|..] && x + y[|x|..] == y[|x|..] + x
  {
    var rest := y[|x|..];
    assert x == (x + y)[..|x|] == y[..|x|];
    assert y == x + rest;
    assert x + y == x + (x + rest) && y + x == x + (rest + x);
    assert (x + (x + rest))[|x|..] == x + rest;
    assert (x + (rest + x))[|x|..] == rest + x;
  }

  /** A proper rotation that gives the text back splits it into two commuting parts. */
  lemma OccurrenceCommutes(value: string, i: nat)
    requires 0 < i < |value| && OccursAt(value + value, value, i)
    ensures value[..i] + value[i..] == value[i..] + value[..i]
  {
    var rotated := (value + value)[i..i + |value|];
    assert rotated == value[i..] + value[..i];
    assert value == value[..i] + value[i..];
  }

  lemma RepetitionOccurs(block: string, times: nat)
    requires block != [] && times >= 2
    ensures var value := Repeat(block, times);
            0 < |block| < |value| && OccursAt(value + value, value, |block|)
  {
    var value := Repeat(block, times);
    RepeatAdds(block, 1, times - 1);
    RepeatAdds(block, times - 1, 1);
    RepeatOnce(block);
    var tail := Repeat(block, times - 1);
    assert tail == block + Repeat(block, times - 2);
    hide Repeat;
    CommutingPartsOccur(block, tail);
  }

  lemma CommutingPartsOccur(block: string, tail: string)
    requires block + tail == tail + block && tail != []
    ensures var value := block + tail; |block| < |value| && OccursAt(value + value, value, |block|)
  {
    var value := block + tail;
    assert value + value == block + (tail + block) + tail;
    assert (value + value)[|block|..|block| + |value|] == tail + block;
  }

  /** The test is exact. */
  lemma RepeatedPatternExact(value: string)
    ensures IsRepeatedPattern(value) <==> RepeatsSomeBlock(value)
  {
    if IsRepeatedPattern(value) {
      var i := Find(value + value, value, 1);
      assert OccursAt(value + value, value, |value|);
      OccurrenceCommutes(value, i);
      var block, m, n := CommutingTextsSharePower(value[..i], value[i..]);
      RepeatAdds(block, m, n);
      assert value == value[..i] + value[i..] == Repeat(block, m + n);
    }
    if RepeatsSomeBlock(value) {
      var block, times: nat :| block != [] && times >= 2 && value == Repeat(block, times);
      RepetitionOccurs(block, times);
    }
  }
}
