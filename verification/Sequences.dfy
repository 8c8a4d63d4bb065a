/** Facts and functions about sequences that several components use. */
module Sequences {
  lemma SeqAssoc<T>(a: seq<T>, b: seq<T>, c: seq<T>)
    ensures (a + b) + c == a + (b + c)
  {
  }

  /** The sequence without the first occurrence of an element. */
  function EraseFirst<T(==)>(s: seq<T>, x: T): seq<T> {
    if s == [] then []
    else if s[0] == x then s[1..]
    else [s[0]] + EraseFirst(s[1..], x)
  }

  lemma {:induction false} EraseFirstIn<T>(s: seq<T>, x: T)
    ensures forall k :: 0 <= k < |EraseFirst(s, x)| ==> EraseFirst(s, x)[k] in s
  {
    if s != [] {
      EraseFirstIn(s[1..], x);
    }
  }
}
