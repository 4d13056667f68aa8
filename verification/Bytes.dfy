/** Byte strings and their concatenation. */
module Bytes {

  type byte = b: int | 0 <= b < 256

  /** `b"".join(parts)`. */
  function Join(parts: seq<seq<byte>>): (r: seq<byte>) {
    if parts == [] then [] else parts[0] + Join(parts[1..])
  }

  lemma JoinCons(x: seq<byte>, rest: seq<seq<byte>>)
    ensures Join([x] + rest) == x + Join(rest)
  {
    assert ([x] + rest)[1..] == rest;
  }

  lemma {:induction false} JoinAppend(a: seq<seq<byte>>, b: seq<seq<byte>>)
    ensures Join(a + b) == Join(a) + Join(b)
  {
    if a == [] {
      assert a + b == b;
    } else {
      JoinAppend(a[1..], b);
      JoinCons(a[0], a[1..]);
      JoinCons(a[0], a[1..] + b);
      assert a == [a[0]] + a[1..] && a + b == [a[0]] + (a[1..] + b);
    }
  }

  lemma JoinSnoc(a: seq<seq<byte>>, x: seq<byte>)
    ensures Join(a + [x]) == Join(a) + x
  {
    JoinAppend(a, [x]);
    assert Join([x]) == x + Join([]);
  }

  lemma Associate<T>(a: seq<T>, b: seq<T>, c: seq<T>, d: seq<T>)
    ensures a + b + c + d == a + (b + c + d)
  {
  }

  lemma Glue<T>(a: seq<T>, tail: seq<T>, b: seq<T>, rest: seq<T>)
    requires tail != [] && b + rest == tail[1..]
    ensures a + [tail[0]] + b + rest == a + tail
  {
    assert tail == [tail[0]] + tail[1..];
  }
}
