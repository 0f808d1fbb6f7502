/** Go strings and byte slices as sequences of bytes, and the one piece of
    the `strings` package the client uses: `strings.Split(s, ":")`. */
module Bytes {

  newtype byte = x: int | 0 <= x < 256

  type Bytes = seq<byte>

  /** The byte of ':'. */
  const Colon: byte := 58

  predicate NoColon(s: Bytes) {
    forall i :: 0 <= i < |s| ==> s[i] != Colon
  }

  /** Index of the first `b` in `s`, or `|s|` when there is none. */
  function IndexOf(s: Bytes, b: byte): (i: nat)
    ensures i <= |s|
    ensures forall j :: 0 <= j < i ==> s[j] != b
    ensures i < |s| ==> s[i] == b
    decreases |s|
  {
    if |s| == 0 then 0
    else if s[0] == b then 0
    else 1 + IndexOf(s[1..], b)
  }

  /** `strings.Split(s, ":")`: the fields of `s` between its colons; a string
      without a colon is one field, the empty string included. */
  function Split(s: Bytes): (fields: seq<Bytes>)
    ensures |fields| >= 1
    ensures |fields| >= 2 <==> exists i :: 0 <= i < |s| && s[i] == Colon
    decreases |s|
  {
    var i := IndexOf(s, Colon);
    if i == |s| then [s] else [s[..i]] + Split(s[i + 1..])
  }

  /** A colon-free string is its own index of ':' . */
  lemma {:induction false} IndexOfAbsent(s: Bytes)
    requires NoColon(s)
    ensures IndexOf(s, Colon) == |s|
    decreases |s|
  {
    if |s| > 0 {
      IndexOfAbsent(s[1..]);
    }
  }

  /** Joining two colon-free strings with ':' and splitting again gives them back. */
  lemma {:induction false} SplitJoin(a: Bytes, b: Bytes)
    requires NoColon(a) && NoColon(b)
    ensures Split(a + [Colon] + b) == [a, b]
  {
    var s := a + [Colon] + b;
    IndexOfAbsent(a);
    IndexOfAt(a, b);
    assert s[..|a|] == a;
    assert s[|a| + 1..] == b;
    IndexOfAbsent(b);
  }

  lemma {:induction false} IndexOfAt(a: Bytes, b: Bytes)
    requires NoColon(a)
    ensures IndexOf(a + [Colon] + b, Colon) == |a|
    decreases |a|
  {
    if |a| > 0 {
      assert (a + [Colon] + b)[1..] == a[1..] + [Colon] + b;
      IndexOfAt(a[1..], b);
    }
  }

  /** Splitting after a colon-free first field: the field, then the fields
      of the rest. */
  lemma SplitPrefix(a: Bytes, t: Bytes)
    requires NoColon(a)
    ensures Split(a + [Colon] + t) == [a] + Split(t)
  {
    var s := a + [Colon] + t;
    IndexOfAt(a, t);
    assert s[..|a|] == a;
    assert s[|a| + 1..] == t;
  }
}
