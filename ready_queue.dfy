/**
 * The per-priority ready queue: a fixed-capacity circular buffer `data` of
 * `N` slots, with `head`, `tail` and `count`.  Its logical contents are the
 * `count` slots read from `head` onwards, wrapping around at `N`.
 */
module ReadyQueues {
  import opened Wrappers

  /** The physical slot `m` places after slot `start` in a ring of `n` slots. */
  function Slot(start: nat, m: nat, n: nat): (s: nat)
    requires start < n && m < n
    ensures s < n
  {
    if start + m < n then start + m else start + m - n
  }

  /** The slot after `i` in a ring of `n` slots. */
  function Succ(i: nat, n: nat): (s: nat)
    requires i < n
    ensures s < n
  {
    if i + 1 < n then i + 1 else 0
  }

  /** The source's `(i + 1) % N` is `Succ`. */
  lemma ModSucc(i: nat, n: nat)
    requires i < n
    ensures (i + 1) % n == Succ(i, n)
  {
  }

  /** The `count` elements of ring `a` that start at slot `head`. */
  ghost function Window<T>(a: seq<T>, head: nat, count: nat): (w: seq<T>)
    requires head < |a| && count <= |a|
    ensures |w| == count
  {
    seq(count, k requires 0 <= k < count => a[Slot(head, k, |a|)])
  }

  /** The position of the first occurrence of `v` in `s`. */
  function FirstIndex<T(==)>(s: seq<T>, v: T): (k: nat)
    requires v in s
    ensures k < |s| && s[k] == v && v !in s[..k]
  {
    if s[0] == v then 0
    else
      assert s == [s[0]] + s[1..];
      1 + FirstIndex(s[1..], v)
  }

  /** `s` without the first occurrence of `v`; `s` itself when `v` is absent. */
  function RemoveFirst<T(==)>(s: seq<T>, v: T): (r: seq<T>)
    ensures v !in s ==> r == s
    ensures v in s ==> |r| == |s| - 1
    ensures v in s ==> forall j :: 0 <= j < FirstIndex(s, v) ==> r[j] == s[j]
    ensures v in s ==> forall j :: FirstIndex(s, v) <= j < |r| ==> r[j] == s[j + 1]
  {
    if v in s then s[..FirstIndex(s, v)] + s[FirstIndex(s, v) + 1..] else s
  }

  /**
   * The copy chain of `remove`: `steps` successive copies, the t-th writing the
   * slot `t` places after `from` with the value then held by its successor.
   */
  ghost function ShiftChain<T>(a: seq<T>, from: nat, steps: nat): (b: seq<T>)
    requires from < |a| && steps < |a|
    ensures |b| == |a|
  {
    if steps == 0 then a
    else
      var b := ShiftChain(a, from, steps - 1);
      b[Slot(from, steps - 1, |a|) := b[Slot(from, steps, |a|)]]
  }

  /**
   * While the chain does not come round to its own start, a written slot holds
   * its successor's original value and an unwritten one keeps its own.
   */
  lemma {:induction false} ShiftChainAt<T>(a: seq<T>, from: nat, steps: nat, t: nat)
    requires from < |a| && steps < |a| && t < |a|
    ensures t < steps && t + 1 < |a| ==>
      ShiftChain(a, from, steps)[Slot(from, t, |a|)] == a[Slot(from, t + 1, |a|)]
    ensures t >= steps ==> ShiftChain(a, from, steps)[Slot(from, t, |a|)] == a[Slot(from, t, |a|)]
  {
    if steps > 0 {
      ShiftChainAt(a, from, steps - 1, t);
      if t == steps - 1 && t + 1 < |a| {
        ShiftChainAt(a, from, steps - 1, t + 1);
      }
    }
  }

  /**
   * Removing the element at logical position k by a chain of `steps` copies from
   * its slot leaves the other elements in order, provided the chain closes the
   * gap (steps >= count-1-k) and stops before it wraps onto slot `head`
   * (k + steps <= N).
   */
  lemma ShiftChainRemoves<T>(a: seq<T>, head: nat, count: nat, k: nat, steps: nat)
    requires head < |a| && count <= |a| && k < count && steps < |a|
    requires count - 1 - k <= steps && k + steps <= |a|
    ensures Window(ShiftChain(a, Slot(head, k, |a|), steps), head, count - 1)
         == Window(a, head, count)[..k] + Window(a, head, count)[k + 1..]
  {
    var n := |a|;
    var from := Slot(head, k, n);
    var b := ShiftChain(a, from, steps);
    var w := Window(a, head, count);
    var wb := Window(b, head, count - 1);
    var r := w[..k] + w[k + 1..];
    forall m | 0 <= m < count - 1
      ensures wb[m] == r[m]
    {
      if m < k {
        assert Slot(head, m, n) == Slot(from, n - k + m, n);
        ShiftChainAt(a, from, steps, n - k + m);
      } else {
        assert Slot(head, m, n) == Slot(from, m - k, n);
        assert Slot(head, m + 1, n) == Slot(from, m - k + 1, n);
        ShiftChainAt(a, from, steps, m - k);
      }
    }
    assert wb == r;
  }

  /** Advancing the head by one slot drops the first element of the window. */
  lemma WindowAdvance<T>(a: seq<T>, head: nat, count: nat)
    requires head < |a| && 0 < count <= |a|
    ensures Window(a, Succ(head, |a|), count - 1) == Window(a, head, count)[1..]
  {
    var n := |a|;
    var w := Window(a, head, count);
    var v := Window(a, Succ(head, n), count - 1);
    forall m | 0 <= m < count - 1
      ensures v[m] == w[1..][m]
    {
      assert Slot(Succ(head, n), m, n) == Slot(head, m + 1, n);
    }
    assert v == w[1..];
  }

  /** Writing slot `head + count` and growing the window by one appends the value. */
  lemma WindowAppend<T>(a: seq<T>, head: nat, count: nat, x: T)
    requires head < |a| && count < |a|
    ensures Window(a[Slot(head, count, |a|) := x], head, count + 1) == Window(a, head, count) + [x]
  {
    var n := |a|;
    var v := Window(a[Slot(head, count, n) := x], head, count + 1);
    var w := Window(a, head, count) + [x];
    forall m | 0 <= m < count + 1
      ensures v[m] == w[m]
    {
      if m < count {
        assert Slot(head, m, n) != Slot(head, count, n);
      }
    }
    assert v == w;
  }

  /**
   * The contents after `remove` found position k, ran the copy chain and dropped
   * the last slot (`head2` is the head afterwards: the old one, or 0 once empty).
   */
  lemma WindowAfterRemoval<T>(a: seq<T>, b: seq<T>, h: nat, c: nat, v: T, k: nat, steps: nat, head2: nat)
    requires h < |a| && c <= |a| && steps < |a|
    requires v in Window(a, h, c) && k == FirstIndex(Window(a, h, c), v)
    requires b == ShiftChain(a, Slot(h, k, |a|), steps)
    requires head2 == (if c - 1 == 0 then 0 else h)
    requires c - 1 - k <= steps && k + steps <= |a|
    ensures Window(b, head2, c - 1) == RemoveFirst(Window(a, h, c), v)
  {
    ShiftChainRemoves(a, h, c, k, steps);
  }

  /** What the as-written `toVector` collects: slot `head`, then slot 0 over and over. */
  ghost function StuckSnapshot<T>(a: seq<T>, head: nat, count: nat): seq<T>
    requires head < |a|
  {
    seq(count, k => if k == 0 then a[head] else a[0])
  }

  class ReadyQueue<T(==,0)> {
    const N: nat
    const data: array<T>
    var head: nat
    var tail: nat
    var count: nat

    /** The representation invariant every operation keeps. */
    ghost predicate Valid()
      reads this
    {
      && data.Length == N && 0 < N
      && head < N && tail < N && count <= N
      && tail == (if head + count < N then head + count else head + count - N)
    }

    /** The logical FIFO sequence, head first. */
    ghost function Contents(): seq<T>
      reads this, data
      requires Valid()
    {
      Window(data[..], head, count)
    }

    constructor (n: nat)
      requires 0 < n
      ensures Valid() && N == n && fresh(data)
      ensures Contents() == [] && head == 0 && tail == 0
    {
      N := n;
      data := new T[n];
      head, tail, count := 0, 0, 0;
    }

    function Empty(): (b: bool)
      reads this
      requires Valid()
      ensures b <==> Contents() == []
    {
      count == 0
    }

    function Full(): (b: bool)
      reads this
      requires Valid()
      ensures b <==> |Contents()| == N
    {
      count == N
    }

    method Pop() returns (r: Result<T>)
      requires Valid()
      modifies this
      ensures Valid()
      ensures old(Contents()) == [] ==> r == Err("Queue empty") && unchanged(this)
      ensures old(Contents()) != [] ==> r == Ok(old(Contents())[0]) && Contents() == old(Contents())[1..]
    {
      if Empty() {
        return Err("Queue empty");
      }
      var value := data[head];
      assert value == Contents()[0];
      var next := (head + 1) % N;
      assert next == Succ(head, N) by { ModSucc(head, N); }
      WindowAdvance(data[..], head, count);
      head := next;
      count := count - 1;
      return Ok(value);
    }

    method Push(element: T) returns (r: Outcome)
      requires Valid()
      modifies this, data
      ensures Valid()
      ensures r == (if |old(Contents())| == N then Fail("Queue is full") else Pass)
      ensures r.Fail? ==> unchanged(this, data)
      ensures r.Pass? ==> Contents() == old(Contents()) + [element]
    {
      if Full() {
        return Fail("Queue is full");
      }
      WindowAppend(data[..], head, count, element);
      data[tail] := element;
      var next := (tail + 1) % N;
      assert next == Succ(tail, N) by { ModSucc(tail, N); }
      tail := next;
      count := count + 1;
      return Pass;
    }

    method Clear()
      requires Valid()
      modifies this
      ensures Valid() && Contents() == [] && head == 0 && tail == 0
    {
      head, tail, count := 0, 0, 0;
    }

    method Contains(value: T) returns (b: bool)
      requires Valid()
      ensures b <==> value in Contents()
    {
      var i := head;
      var itr := 0;
      while itr < count
        invariant itr <= count && i == Slot(head, if itr < N then itr else 0, N)
        invariant value !in Contents()[..itr]
      {
        if data[i] == value {
          assert Contents()[itr] == value;
          return true;
        }
        assert Contents()[..itr + 1] == Contents()[..itr] + [data[i]];
        var next := (i + 1) % N;
        assert next == Succ(i, N) by { ModSucc(i, N); }
        i := next;
        itr := itr + 1;
      }
      assert Contents()[..itr] == Contents();
      return false;
    }

    /** The element at `head`; on an empty queue that is a stale slot, not an error. */
    function Front(): (x: T)
      reads this, data
      requires Valid()
      ensures Contents() != [] ==> x == Contents()[0]
      ensures x == data[head]
    {
      data[head]
    }

    /**
     * The scan of `remove`: the slot holding the first occurrence of `value`, or N
     * when the queue is empty or `value` is absent.
     */
    method Scan(value: T) returns (foundAt: nat, scan: nat)
      requires Valid()
      ensures value !in Contents() ==> foundAt == N
      ensures value in Contents() ==>
        scan == FirstIndex(Contents(), value) && foundAt == Slot(head, scan, N)
    {
      var i := head;
      foundAt := N;
      scan := 0;
      while scan < count
        invariant scan <= count && i == Slot(head, if scan < N then scan else 0, N)
        invariant value !in Contents()[..scan]
      {
        if data[i] == value {
          assert Contents()[scan] == value;
          return i, scan;
        }
        assert Contents()[..scan + 1] == Contents()[..scan] + [data[i]];
        var next := (i + 1) % N;
        assert next == Succ(i, N) by { ModSucc(i, N); }
        i := next;
        scan := scan + 1;
      }
      assert Contents()[..scan] == Contents();
    }

    /** The copy loop of `remove`: `steps` copies, each slot taking its successor's value. */
    method ShiftFrom(from: nat, steps: nat)
      requires Valid() && from < N && steps < N
      modifies data
      ensures data[..] == ShiftChain(old(data[..]), from, steps)
    {
      var j := from;
      var shift := 0;
      while shift < steps
        invariant shift <= steps && j == Slot(from, shift, N)
        invariant data[..] == ShiftChain(old(data[..]), from, shift)
      {
        var next := (j + 1) % N;
        assert next == Succ(j, N) by { ModSucc(j, N); }
        data[j] := data[next];
        j := next;
        shift := shift + 1;
      }
    }

    /** The end of `remove`: one slot fewer, and head = tail = 0 once empty. */
    method DropLast()
      requires Valid() && count > 0
      modifies this
      ensures Valid() && head == (if count == 0 then 0 else old(head)) && count == old(count) - 1
    {
      if tail == 0 {
        tail := N - 1;
      } else {
        tail := tail - 1;
      }
      count := count - 1;
      if count == 0 {
        head, tail := 0, 0;
      }
    }

    /**
     * `remove` as written: the copy loop runs count-1 times from the found slot,
     * whatever position the element had.  The remaining elements keep their order
     * only while those copies do not come round onto slot `head`.
     */
    method RemoveAsWritten(value: T) returns (found: bool)
      requires Valid()
      modifies this, data
      ensures Valid()
      ensures found <==> value in old(Contents())
      ensures !found ==> unchanged(this, data)
      ensures found ==>
        && count == old(count) - 1
        && head == (if count == 0 then 0 else old(head))
        && data[..] == ShiftChain(old(data[..]), Slot(old(head), FirstIndex(old(Contents()), value), N), old(count) - 1)
      ensures found && FirstIndex(old(Contents()), value) + old(count) <= N + 1 ==>
        Contents() == RemoveFirst(old(Contents()), value)
    {
      hide RemoveFirst, FirstIndex, ShiftChain, Window;
      if Empty() {
        return false;
      }
      var foundAt, k := Scan(value);
      if foundAt == N {
        return false;
      }
      ghost var a, h, c := data[..], head, count;
      ShiftFrom(foundAt, count - 1);
      ghost var b := data[..];
      DropLast();
      if k + c <= N + 1 {
        WindowAfterRemoval(a, b, h, c, value, k, c - 1, head);
      }
      return true;
    }

    /**
     * `remove` with the copy loop bounded as intended: only the count-1-k
     * elements behind the found one move up.
     */
    method Remove(value: T) returns (found: bool)
      requires Valid()
      modifies this, data
      ensures Valid()
      ensures found <==> value in old(Contents())
      ensures Contents() == RemoveFirst(old(Contents()), value)
      ensures !found ==> unchanged(this, data)
      ensures found && Contents() == [] ==> head == 0 && tail == 0
    {
      hide RemoveFirst, FirstIndex, ShiftChain, Window;
      if Empty() {
        return false;
      }
      var foundAt, k := Scan(value);
      if foundAt == N {
        return false;
      }
      ghost var a, h, c := data[..], head, count;
      ShiftFrom(foundAt, count - 1 - k);
      ghost var b := data[..];
      DropLast();
      WindowAfterRemoval(a, b, h, c, value, k, c - 1 - k, head);
      return true;
    }

    /** `toVector` as written: the cursor is reset to slot 0 instead of advancing. */
    method ToVectorAsWritten() returns (vec: seq<T>)
      requires Valid()
      ensures vec == StuckSnapshot(data[..], head, count)
    {
      vec := [];
      var i := head;
      var c := 0;
      while c < count
        invariant c <= count && i == (if c == 0 then head else 0)
        invariant vec == StuckSnapshot(data[..], head, c)
      {
        vec := vec + [data[i]];
        var next := (i % 1) % N;
        assert next == 0;
        i := next;
        c := c + 1;
      }
    }

    /** `toVector` with the cursor advancing: the contents, head to tail. */
    method ToVector() returns (vec: seq<T>)
      requires Valid()
      ensures vec == Contents()
    {
      vec := [];
      var i := head;
      var c := 0;
      while c < count
        invariant c <= count && i == Slot(head, if c < N then c else 0, N)
        invariant vec == Contents()[..c]
      {
        vec := vec + [data[i]];
        var next := (i + 1) % N;
        assert next == Succ(i, N) by { ModSucc(i, N); }
        i := next;
        c := c + 1;
      }
    }
  }

  /**
   * Counterexample to the as-written `remove`: capacity 3 holding [1, 2, 3],
   * removing 3 leaves [2, 2] instead of [1, 2].
   */
  lemma RemoveAsWrittenCorrupts()
    ensures Window(ShiftChain([1, 2, 3], Slot(0, 2, 3), 2), 0, 2) == [2, 2]
    ensures RemoveFirst([1, 2, 3], 3) == [1, 2]
  {
    var a := [1, 2, 3];
    var b1 := ShiftChain(a, 2, 1);
    assert b1 == ShiftChain(a, 2, 0)[2 := a[0]];
    assert b1 == [1, 2, 1];
    var b2 := ShiftChain(a, 2, 2);
    assert b2 == b1[0 := b1[1]];
    assert b2 == [2, 2, 1];
    assert Window(b2, 0, 2) == [2, 2];
    assert FirstIndex(a, 3) == 2;
  }

  /**
   * Counterexample to the as-written `toVector`: a queue holding [1, 2] from slot 0
   * yields [1, 1].
   */
  lemma ToVectorAsWrittenDiffers()
    ensures StuckSnapshot([1, 2], 0, 2) == [1, 1]
    ensures Window([1, 2], 0, 2) == [1, 2]
  {
    assert StuckSnapshot([1, 2], 0, 2)[1] == 1;
    assert Window([1, 2], 0, 2)[1] == 2;
  }
}
