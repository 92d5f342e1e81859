/** The discard-oldest worker pool: its slice-backed buffer as an object, and the pool with its
    condition variable as a transition system. */
module WorkerPool {
  /** Submit on the buffer: a full buffer loses its head to make room at the tail. */
  function DiscardOldest<T>(buf: seq<T>, t: T, cap: nat): seq<T> {
    (if |buf| >= cap && buf != [] then buf[1..] else buf) + [t]
  }

  /** The Go slice `buf`: the window lo..hi of a backing array. */
  class SliceQueue<T(0)> {
    var data: array<T>
    var lo: nat
    var hi: nat
    const cap: nat

    ghost predicate Valid()
      reads this
    {
      lo <= hi <= data.Length && 1 <= cap && hi - lo <= cap
    }

    function Contents(): seq<T>
      reads this, data
      requires Valid()
    {
      data[lo..hi]
    }

    constructor (queue: int)
      ensures Valid() && Contents() == [] && cap == (if queue < 1 then 1 else queue) && fresh(data)
    {
      cap := if queue < 1 then 1 else queue;
      data := new T[0];
      lo, hi := 0, 0;
    }

    /** `copy(buf, buf[1:])` followed by dropping the last slot. */
    method ShiftOut()
      requires Valid() && lo < hi
      modifies this, data
      ensures Valid() && data == old(data) && lo == old(lo) && hi == old(hi) - 1 && Contents() == old(Contents())[1..]
    {
      var i := lo;
      while i + 1 < hi
        invariant lo <= i < hi <= data.Length && lo == old(lo) && hi == old(hi) && data == old(data)
        invariant forall j :: lo <= j < i ==> data[j] == old(data[j + 1])
        invariant forall j :: i <= j < hi ==> data[j] == old(data[j])
        modifies data
      {
        data[i] := data[i + 1];
        i := i + 1;
      }
      hi := hi - 1;
    }

    /** `append`: in place when the array has room behind the window, else into a larger one. */
    method Append(t: T)
      requires Valid() && hi - lo < cap
      modifies this, data
      ensures Valid() && (data == old(data) || fresh(data)) && Contents() == old(Contents()) + [t]
    {
      if hi < data.Length {
        data[hi] := t;
        assert data[lo..hi + 1] == old(Contents()) + [t];
      } else {
        var bigger := new T[2 * (hi - lo) + 1];
        var n := hi - lo;
        forall i | 0 <= i < n { bigger[i] := data[lo + i]; }
        bigger[n] := t;
        assert bigger[..n] == data[lo..hi];
        assert bigger[0..n + 1] == old(Contents()) + [t];
        data, lo, hi := bigger, 0, n;
      }
      hi := hi + 1;
    }

    method Submit(t: T)
      requires Valid()
      modifies this, data
      ensures Valid() && (data == old(data) || fresh(data))
      ensures Contents() == DiscardOldest(old(Contents()), t, cap)
    {
      if hi - lo >= cap { ShiftOut(); }
      Append(t);
    }

    method Take() returns (t: T)
      requires Valid() && Contents() != []
      modifies this
      ensures Valid() && data == old(data)
      ensures t == old(Contents())[0] && Contents() == old(Contents())[1..]
    {
      t := data[lo];
      lo := lo + 1;
    }
  }
}
