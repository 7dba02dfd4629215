/** Circular buffers: the window of an array that starts at an index and wraps round its end. */
module Circular {
  function Wrap(x: nat, cap: nat): nat {
    if x < cap then x else x - cap
  }

  lemma WrapIsMod(x: nat, cap: nat)
    requires 0 < cap && x < 2 * cap
    ensures x % cap == Wrap(x, cap)
  {
    var q, r := x / cap, x % cap;
    assert x == cap * q + r;
    assert q >= 2 ==> cap * q >= cap * 2;
    assert q == 0 || q == 1;
  }

  /** The index behind i. */
  method Next(i: nat, cap: nat) returns (j: nat)
    requires i < cap
    ensures j == Wrap(i + 1, cap) < cap
  {
    WrapIsMod(i + 1, cap);
    j := (i + 1) % cap;
  }

  lemma WrapNext(head: nat, len: nat, cap: nat)
    requires head < cap && len < cap
    ensures Wrap(Wrap(head + len, cap) + 1, cap) == Wrap(head + (len + 1), cap)
    ensures Wrap(Wrap(head + 1, cap) + len, cap) == Wrap(head + (len + 1), cap)
  {
  }

  /** The `len` elements that start at `head`. */
  ghost function Window<T>(a: seq<T>, head: nat, len: nat): (w: seq<T>)
    requires head < |a| && len <= |a|
    ensures |w| == len
  {
    if head + len <= |a| then a[head..head + len] else a[head..] + a[..head + len - |a|]
  }

  lemma WindowAt<T>(a: seq<T>, head: nat, len: nat, i: nat)
    requires head < |a| && i < len <= |a|
    ensures Window(a, head, len)[i] == a[Wrap(head + i, |a|)]
  {
  }

  lemma WindowPush<T>(a: seq<T>, head: nat, len: nat, x: T)
    requires head < |a| && len < |a|
    ensures Window(a[Wrap(head + len, |a|) := x], head, len + 1) == Window(a, head, len) + [x]
  {
  }

  lemma WindowPop<T>(a: seq<T>, head: nat, len: nat)
    requires head < |a| && 0 < len <= |a|
    ensures Window(a, head, len)[0] == a[head]
    ensures Window(a, Wrap(head + 1, |a|), len - 1) == Window(a, head, len)[1..]
  {
  }

  datatype Option<T> = None | Some(value: T)

  /** A circular buffer: `count` elements from `head`, the next one goes to `tail`. */
  class Buffer<T> {
    var buf: array<T>
    var count: nat
    var head: nat
    var tail: nat
    ghost var contents: seq<T>

    ghost predicate Valid()
      reads this, buf
    {
      && head < buf.Length && count <= buf.Length && tail == Wrap(head + count, buf.Length)
      && Window(buf[..], head, count) == contents
    }

    constructor (cap: nat, blank: T)
      requires cap > 0
      ensures Valid() && fresh(buf) && buf.Length == cap && contents == []
    {
      buf := new T[cap](i => blank);
      count, head, tail := 0, 0, 0;
      contents := [];
    }

    /** Take the oldest element, if there is one. */
    method Dequeue() returns (r: Option<T>)
      requires Valid()
      modifies this`head, this`count, this`contents
      ensures Valid()
      ensures if old(contents) == [] then r == None && contents == []
              else r == Some(old(contents)[0]) && contents == old(contents)[1..]
    {
      if count == 0 {
        return None;
      }
      ghost var a := buf[..];
      WrapNext(head, count - 1, buf.Length);
      WindowPop(a, head, count);
      r := Some(buf[head]);
      head := Next(head, buf.Length);
      count := count - 1;
      contents := contents[1..];
      assert buf[..] == a;
    }

    /** Store an element in the free cell at the tail. */
    method Enqueue(x: T)
      requires Valid() && count < buf.Length
      modifies this`tail, this`count, this`contents, buf
      ensures Valid() && contents == old(contents) + [x]
    {
      WrapNext(head, count, buf.Length);
      WindowPush(buf[..], head, count, x);
      ghost var was := buf[..];
      buf[tail] := x;
      assert buf[..] == was[tail := x];
      tail := Next(tail, buf.Length);
      count := count + 1;
      contents := contents + [x];
    }

    /** Copy the elements to the front of a larger array. */
    method Grow(newCap: nat, blank: T)
      requires Valid() && newCap > buf.Length
      modifies this`buf, this`head, this`tail
      ensures Valid() && fresh(buf) && buf.Length == newCap
    {
      var nb := new T[newCap](i => blank);
      var i := 0;
      while i < count
        invariant i <= count && nb[..i] == contents[..i]
        modifies nb
      {
        WrapIsMod(head + i, buf.Length);
        WindowAt(buf[..], head, count, i);
        nb[i] := buf[(head + i) % buf.Length];
        i := i + 1;
      }
      buf := nb;
      head := 0;
      tail := count;
      assert Window(buf[..], 0, count) == nb[..count];
    }
  }
}
