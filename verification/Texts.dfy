/** Byte strings and their concatenation. */
module Texts {
  import opened Utf8

  type Text = seq<byte>

  function Concat(texts: seq<Text>): Text {
    if texts == [] then [] else texts[0] + Concat(texts[1..])
  }

  lemma {:induction false} ConcatSnoc(texts: seq<Text>, t: Text)
    ensures Concat(texts + [t]) == Concat(texts) + t
  {
    if texts == [] {
      assert [t][1..] == [];
    } else {
      assert (texts + [t])[1..] == texts[1..] + [t];
      ConcatSnoc(texts[1..], t);
    }
  }

  lemma {:induction false} ConcatTwo(a: seq<Text>, b: seq<Text>)
    ensures Concat(a + b) == Concat(a) + Concat(b)
  {
    if a == [] {
      assert a + b == b;
    } else {
      assert (a + b)[1..] == a[1..] + b;
      ConcatTwo(a[1..], b);
    }
  }
}
