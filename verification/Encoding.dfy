/** The length of a text's UTF-8 encoding. */
module Encoding {
  function CharLength(c: char): nat {
    if c as int < 0x80 then 1 else if c as int < 0x800 then 2 else if c as int < 0x10000 then 3 else 4
  }

  function ByteLength(text: string): (n: nat)
    ensures |text| <= n
  {
    if text == [] then 0 else ByteLength(text[..|text| - 1]) + CharLength(text[|text| - 1])
  }

  lemma {:induction false} LengthOfConcat(a: string, b: string)
    ensures ByteLength(a + b) == ByteLength(a) + ByteLength(b)
    decreases |b|
  {
    if b == [] {
      assert a + b == a;
    } else {
      assert (a + b)[..|a + b| - 1] == a + b[..|b| - 1];
      LengthOfConcat(a, b[..|b| - 1]);
    }
  }

  lemma {:induction false} LengthOfAscii(text: string)
    requires forall i :: 0 <= i < |text| ==> text[i] as int < 0x80
    ensures ByteLength(text) == |text|
    decreases |text|
  {
    if text != [] {
      LengthOfAscii(text[..|text| - 1]);
    }
  }
}
