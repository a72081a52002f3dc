/** Byte strings, the chunks they travel in, and the partially sent buffers of a write queue. */
module Wire {

  type Bytes = seq<char>

  function Min(a: int, b: int): int {
    if a < b then a else b
  }

  lemma SplitAt(data: Bytes, i: nat, j: nat)
    requires i <= j <= |data|
    ensures data[i..] == data[i..j] + data[j..]
  {
  }

  /** The bytes of a list of chunks, in order. */
  function Flatten(chunks: seq<Bytes>): Bytes {
    if chunks == [] then [] else chunks[0] + Flatten(chunks[1..])
  }

  lemma {:induction false} FlattenConcat(a: seq<Bytes>, b: seq<Bytes>)
    ensures Flatten(a + b) == Flatten(a) + Flatten(b)
  {
    if a == [] {
      assert a + b == b;
    } else {
      assert (a + b)[1..] == a[1..] + b;
      FlattenConcat(a[1..], b);
    }
  }

  datatype EntryBase = Entry(data: Bytes, offset: nat)

  /** A buffer of a write queue of which `offset` bytes have been accepted already. */
  type Entry = e: EntryBase | e.offset <= |e.data| witness Entry([], 0)

  /** The bytes of a write queue that the stream has not accepted yet. */
  function Unsent(queue: seq<Entry>): Bytes {
    if queue == [] then [] else queue[0].data[queue[0].offset..] + Unsent(queue[1..])
  }

  lemma {:induction false} UnsentConcat(a: seq<Entry>, b: seq<Entry>)
    ensures Unsent(a + b) == Unsent(a) + Unsent(b)
  {
    if a == [] {
      assert a + b == b;
    } else {
      assert (a + b)[1..] == a[1..] + b;
      UnsentConcat(a[1..], b);
    }
  }

  lemma UnsentEnqueue(queue: seq<Entry>, data: Bytes)
    ensures Unsent(queue + [Entry(data, 0)]) == Unsent(queue) + data
  {
    UnsentConcat(queue, [Entry(data, 0)]);
    assert Unsent([Entry(data, 0)]) == data[0..] + Unsent([]);
  }

  lemma PrefixNext<T>(s: seq<T>, i: nat)
    requires i < |s|
    ensures s[..i] + [s[i]] == s[..i + 1]
  {
  }

  predicate Ascending(s: seq<int>) {
    forall i, j :: 0 <= i < j < |s| ==> s[i] < s[j]
  }

  lemma AscendingTail(s: seq<int>)
    requires Ascending(s) && s != []
    ensures s[0] in s && Ascending(s[1..])
    ensures forall x :: x in s <==> x == s[0] || x in s[1..]
    ensures forall x :: x in s[1..] ==> s[0] < x
  {
  }

  predicate IsLeast(x: int, s: set<int>) {
    x in s && forall y :: y in s ==> x <= y
  }

  lemma Member<T>(s: set<T>) returns (a: T)
    requires s != {}
    ensures a in s
  {
    a :| a in s;
  }

  lemma {:induction false} HasLeast(s: set<int>)
    requires s != {}
    ensures exists x :: IsLeast(x, s)
  {
    var a := Member(s);
    var rest := s - {a};
    assert forall y :: y in s ==> y == a || y in rest;
    if rest == {} {
      assert IsLeast(a, s);
    } else {
      HasLeast(rest);
      var b :| IsLeast(b, rest);
      assert IsLeast(Min(a, b), s);
    }
  }

  /** The keys of an ordered map or set, in the order of iteration. */
  function Sorted(s: set<int>): (r: seq<int>)
    ensures Ascending(r)
    ensures forall x :: x in r <==> x in s
    ensures forall i :: 0 <= i < |r| ==> r[i] in s
  {
    if s == {} then []
    else
      HasLeast(s);
      var x :| IsLeast(x, s);
      [x] + Sorted(s - {x})
  }

  /** There is only one such order. */
  lemma {:induction false} AscendingUnique(a: seq<int>, b: seq<int>)
    requires Ascending(a) && Ascending(b)
    requires forall x :: x in a <==> x in b
    ensures a == b
  {
    assert a != [] ==> a[0] in a;
    assert b != [] ==> b[0] in b;
    if a != [] && b != [] {
      AscendingTail(a);
      AscendingTail(b);
      assert a[0] == b[0];
      AscendingUnique(a[1..], b[1..]);
      assert a == [a[0]] + a[1..] && b == [b[0]] + b[1..];
    }
  }
}
