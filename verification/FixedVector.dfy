/**
 The fixed-capacity vector of the older OpenCL binding header, with exceptions off: operations that do not fit
 change nothing.  Elements are plain values.
 */
module FixedVector {

  // ---------------------------------------------------------------------------------------------
  // The bounded sequence it stands for
  // ---------------------------------------------------------------------------------------------

  datatype Op<T> = Push(x: T) | Pop | Clear | Resize(n: nat, fill: T)

  function Copies<T>(n: nat, x: T): (r: seq<T>)
    ensures |r| == n && forall i | 0 <= i < n :: r[i] == x
  {
    seq(n, i => x)
  }

  function Apply<T>(s: seq<T>, capacity: nat, op: Op<T>): (r: seq<T>)
    requires |s| <= capacity
    ensures |r| <= capacity
  {
    match op
    case Push(x) => if |s| < capacity then s + [x] else s
    case Pop => if s == [] then s else s[..|s| - 1]
    case Clear => []
    case Resize(n, fill) => if n > capacity then s else if n <= |s| then s[..n] else s + Copies(n - |s|, fill)
  }

  function ApplyAll<T>(s: seq<T>, capacity: nat, ops: seq<Op<T>>): (r: seq<T>)
    requires |s| <= capacity
    ensures |r| <= capacity
  {
    if ops == [] then s else Apply(ApplyAll(s, capacity, ops[..|ops| - 1]), capacity, ops[|ops| - 1])
  }

  /** As much of a sequence as fits. */
  function Fitting<T>(s: seq<T>, capacity: nat): (r: seq<T>)
    ensures r <= s && |r| <= capacity && (|s| <= capacity ==> r == s) && (|s| > capacity ==> |r| == capacity)
  {
    if |s| <= capacity then s else s[..capacity]
  }

  // ---------------------------------------------------------------------------------------------
  // The class
  // ---------------------------------------------------------------------------------------------

  /** A position in a vector; an empty vector has only the position -1. */
  datatype Iterator<!T(0)> = Iterator(vec: Vector<T>, index: int)

  /** Stepping from the one position leads to the other within the elements of one vector. */
  ghost predicate Delimits<T(0)>(start: Iterator<T>, end: Iterator<T>)
    reads start.vec
  {
    && start.vec == end.vec && start.vec.Valid()
    && (start.index == end.index || 0 <= start.index <= end.index <= start.vec.size)
  }

  /** The elements met on the way. */
  ghost function Delimited<T(0)>(start: Iterator<T>, end: Iterator<T>): (s: seq<T>)
    requires Delimits(start, end)
    reads start.vec, start.vec.data
  {
    if start.index == end.index then [] else start.vec.data[start.index..end.index]
  }

  class Vector<T(0)> {
    const data: array<T>
    var size: nat

    ghost predicate Valid()
      reads this
    {
      size <= data.Length
    }

    ghost function Contents(): (s: seq<T>)
      requires Valid()
      reads this, data
      ensures |s| == size
    {
      data[..size]
    }

    constructor (capacity: nat)
      ensures Valid() && fresh(data) && data.Length == capacity && Contents() == []
    {
      data := new T[capacity];
      size := 0;
    }

    method PushBack(x: T)
      requires Valid()
      modifies this, data
      ensures Valid() && Contents() == Apply(old(Contents()), data.Length, Push(x))
      ensures Contents() == if old(size) < data.Length then old(Contents()) + [x] else old(Contents())
      ensures forall i | 0 <= i < data.Length && i != old(size) :: data[i] == old(data[i])
      ensures old(size) < data.Length ==> size == old(size) + 1 && data[old(size)] == x
    {
      if size < data.Length {
        data[size] := x;
        size := size + 1;
      }
    }

    method PopBack()
      requires Valid()
      modifies this
      ensures Valid() && Contents() == Apply(old(Contents()), data.Length, Pop)
      ensures size == (if old(size) == 0 then 0 else old(size) - 1) && Contents() <= old(Contents())
    {
      if size != 0 {
        size := size - 1;
      }
    }

    method ClearAll()
      requires Valid()
      modifies this
      ensures Valid() && size == 0
    {
      while size != 0
        invariant Valid()
        decreases size
      {
        PopBack();
      }
    }

    method ResizeTo(n: nat, fill: T)
      requires Valid()
      modifies this, data
      ensures Valid() && Contents() == Apply(old(Contents()), data.Length, Resize(n, fill))
      ensures n > data.Length ==> Contents() == old(Contents())
      ensures n <= data.Length ==> size == n
      ensures n <= data.Length ==> forall i | 0 <= i < n :: Contents()[i] == if i < old(size) then old(Contents())[i] else fill
    {
      if n <= data.Length {
        ghost var was := Contents();
        while size < n
          invariant |was| <= size <= data.Length && (size <= n || size == |was|)
          invariant forall i | 0 <= i < size :: data[i] == if i < |was| then was[i] else fill
        {
          data[size] := fill;
          size := size + 1;
        }
        while size > n
          invariant n <= size <= data.Length
          invariant size == n || size <= |was|
          invariant forall i | 0 <= i < size :: data[i] == if i < |was| then was[i] else fill
        {
          size := size - 1;
        }
      }
    }

    /** So many copies of one element, as far as they fit. */
    constructor Filled(capacity: nat, n: nat, x: T)
      ensures Valid() && fresh(data) && data.Length == capacity && Contents() == Fitting(Copies(n, x), capacity)
      ensures size == (if n <= capacity then n else capacity) && forall i | 0 <= i < size :: Contents()[i] == x
    {
      data := new T[capacity];
      size := 0;
      new;
      var i := 0;
      while i < n
        invariant 0 <= i <= n && Valid() && size == (if i <= capacity then i else capacity)
        invariant Contents() == Copies(size, x)
      {
        PushBack(x);
        i := i + 1;
      }
    }

    /** The first position, or the only one an empty vector has. */
    method Begin() returns (it: Iterator<T>)
      ensures it == Iterator(this, if size == 0 then -1 else 0)
    {
      it := Iterator(this, if size == 0 then -1 else 0);
    }

    /** The position behind the last element, or the only one an empty vector has. */
    method End() returns (it: Iterator<T>)
      ensures it == Iterator(this, if size == 0 then -1 else size)
    {
      it := Iterator(this, if size == 0 then -1 else size);
    }

    /** Stepping from the first position to the end meets the contents, and none exactly if there are none. */
    method Range() returns (start: Iterator<T>, end: Iterator<T>)
      requires Valid()
      ensures Delimits(start, end) && start.vec == end.vec == this
      ensures Delimited(start, end) == Contents() && (start == end <==> Contents() == [])
    {
      start := Begin();
      end := End();
    }

    /** Replaces the contents by a range of another vector, as far as it fits. */
    method AssignForeign(start: Iterator<T>, end: Iterator<T>)
      requires Valid() && Delimits(start, end) && start.vec != this && start.vec.data != data
      modifies this, data
      ensures Valid() && Contents() == Fitting(Delimited(start, end), data.Length)
    {
      ClearAll();
      var source := start.vec.data;
      var at := start.index;
      while at != end.index
        invariant start.index <= at <= end.index && Valid()
        invariant Contents() == if at == start.index then [] else Fitting(source[start.index..at], data.Length)
        decreases end.index - at
      {
        FitsOneMore(source[..], start.index, at, data.Length);
        PushBack(source[at]);
        at := at + 1;
      }
    }

    /** Replaces the contents by a range of themselves: every element is read before its slot is written. */
    method AssignOwn(start: Iterator<T>, end: Iterator<T>)
      requires Valid() && Delimits(start, end) && start.vec == this
      modifies this, data
      ensures Valid() && Contents() == old(Delimited(start, end))
    {
      ghost var was := data[..];
      ClearAll();
      var at := start.index;
      while at != end.index
        invariant start.index <= at <= end.index && size == at - start.index <= data.Length
        invariant forall i | 0 <= i < size :: data[i] == was[start.index + i]
        invariant forall i | size <= i < data.Length :: data[i] == was[i]
        decreases end.index - at
      {
        PushBack(data[at]);
        at := at + 1;
      }
    }

    /** Replaces the contents by a range of any vector, as far as it fits. */
    method AssignRange(start: Iterator<T>, end: Iterator<T>)
      requires Valid() && Delimits(start, end) && (start.vec != this ==> start.vec.data != data)
      modifies this, data
      ensures Valid() && Contents() == Fitting(old(Delimited(start, end)), data.Length)
      ensures Contents() <= old(Delimited(start, end)) && (size == data.Length || size == |old(Delimited(start, end))|)
    {
      if start.vec == this {
        AssignOwn(start, end);
      } else {
        AssignForeign(start, end);
      }
    }

    /** Replaces the contents by those of another vector of the same capacity. */
    method Assign(rhs: Vector<T>)
      requires Valid() && rhs.Valid() && rhs.data.Length == data.Length && (rhs != this ==> rhs.data != data)
      modifies this, data
      ensures Valid() && rhs.Valid() && Contents() == old(rhs.Contents()) && rhs.Contents() == old(rhs.Contents())
    {
      if this == rhs {
        return;
      }
      if rhs.size != 0 {
        var start, end := rhs.Range();
        AssignRange(start, end);
      } else {
        ClearAll();
      }
    }

    /** A copy; the size is set before there are elements, and the assignment clears it again. */
    constructor Copy(rhs: Vector<T>)
      requires rhs.Valid()
      ensures Valid() && fresh(data) && data.Length == rhs.data.Length && Contents() == rhs.Contents()
    {
      data := new T[rhs.data.Length];
      size := rhs.size;
      new;
      if size != 0 {
        var start, end := rhs.Range();
        AssignRange(start, end);
      }
    }

    /**
     The reference for writing is to the slot behind the last element: never to an element, and inside the buffer
     exactly if the vector is not full.
     */
    method BackForWriting() returns (slot: nat)
      requires Valid()
      ensures slot >= |Contents()|
      ensures slot < data.Length <==> |Contents()| < data.Length
    {
      slot := size;
    }

    /** Writing through it, where it is inside the buffer, changes no element. */
    method WriteBack(x: T)
      requires Valid() && size < data.Length
      modifies data
      ensures Contents() == old(Contents())
    {
      var slot := BackForWriting();
      data[slot] := x;
    }

    /** The reference for reading is to the last element. */
    method BackForReading() returns (x: T)
      requires Valid() && size > 0
      ensures x == Contents()[size - 1]
    {
      x := data[size - 1];
    }

    method Perform(op: Op<T>)
      requires Valid()
      modifies this, data
      ensures Valid() && Contents() == Apply(old(Contents()), data.Length, op)
    {
      match op {
        case Push(x) => PushBack(x);
        case Pop => PopBack();
        case Clear => ClearAll();
        case Resize(n, fill) => ResizeTo(n, fill);
      }
    }

    /** Any run of operations does what it does to a bounded sequence. */
    method Run(ops: seq<Op<T>>)
      requires Valid()
      modifies this, data
      ensures Valid() && Contents() == ApplyAll(old(Contents()), data.Length, ops)
    {
      for i := 0 to |ops|
        invariant Valid() && Contents() == ApplyAll(old(Contents()), data.Length, ops[..i])
      {
        assert ops[..i + 1][..i] == ops[..i];
        Perform(ops[i]);
      }
      assert ops[..|ops|] == ops;
    }
  }

  // ---------------------------------------------------------------------------------------------
  // Several vectors
  // ---------------------------------------------------------------------------------------------

  /** An operation on one of a program's vectors, or an assignment between two of them. */
  datatype Step<T> = On(target: nat, op: Op<T>) | AssignTo(target: nat, source: nat)

  function Applied<T>(ss: seq<seq<T>>, capacity: nat, step: Step<T>): (r: seq<seq<T>>)
    requires forall i | 0 <= i < |ss| :: |ss[i]| <= capacity
    ensures |r| == |ss| && forall i | 0 <= i < |r| :: |r[i]| <= capacity
  {
    match step
    case On(i, op) => if i < |ss| then ss[i := Apply(ss[i], capacity, op)] else ss
    case AssignTo(i, j) => if i < |ss| && j < |ss| then ss[i := ss[j]] else ss
  }

  function AppliedAll<T>(ss: seq<seq<T>>, capacity: nat, steps: seq<Step<T>>): (r: seq<seq<T>>)
    requires forall i | 0 <= i < |ss| :: |ss[i]| <= capacity
    ensures |r| == |ss| && forall i | 0 <= i < |r| :: |r[i]| <= capacity
  {
    if steps == [] then ss else Applied(AppliedAll(ss, capacity, steps[..|steps| - 1]), capacity, steps[|steps| - 1])
  }

  /** The vectors are different ones of one capacity, and their contents are the given sequences. */
  ghost predicate Stands<T(0)>(vs: seq<Vector<T>>, capacity: nat, ss: seq<seq<T>>)
    reads set i | 0 <= i < |vs| :: vs[i], set i | 0 <= i < |vs| :: vs[i].data
  {
    && |vs| == |ss|
    && (forall i, j | 0 <= i < j < |vs| :: vs[i] != vs[j] && vs[i].data != vs[j].data)
    && (forall i | 0 <= i < |vs| :: vs[i].Valid() && vs[i].data.Length == capacity && vs[i].Contents() == ss[i])
  }

  /** One step does to the vectors what it does to bounded sequences. */
  method PerformStep<T(0)>(vs: seq<Vector<T>>, capacity: nat, step: Step<T>, ghost ss: seq<seq<T>>)
    requires Stands(vs, capacity, ss)
    modifies set i | 0 <= i < |vs| :: vs[i], set i | 0 <= i < |vs| :: vs[i].data
    ensures (forall i | 0 <= i < |ss| :: |ss[i]| <= capacity) && Stands(vs, capacity, Applied(ss, capacity, step))
  {
    assert forall i | 0 <= i < |vs| :: |ss[i]| == vs[i].size;
    match step {
      case On(i, op) =>
        if i < |vs| {
          vs[i].Perform(op);
        }
      case AssignTo(i, j) =>
        if i < |vs| && j < |vs| {
          vs[i].Assign(vs[j]);
        }
    }
  }

  /** So does any run of steps, assignments through the iterators included. */
  method RunSteps<T(0)>(vs: seq<Vector<T>>, capacity: nat, steps: seq<Step<T>>, ghost ss: seq<seq<T>>)
    requires Stands(vs, capacity, ss)
    modifies set i | 0 <= i < |vs| :: vs[i], set i | 0 <= i < |vs| :: vs[i].data
    ensures (forall i | 0 <= i < |ss| :: |ss[i]| <= capacity) && Stands(vs, capacity, AppliedAll(ss, capacity, steps))
  {
    assert forall i | 0 <= i < |vs| :: |ss[i]| == vs[i].size;
    for k := 0 to |steps|
      invariant Stands(vs, capacity, AppliedAll(ss, capacity, steps[..k]))
    {
      assert steps[..k + 1][..k] == steps[..k];
      PerformStep(vs, capacity, steps[k], AppliedAll(ss, capacity, steps[..k]));
    }
    assert steps[..|steps|] == steps;
  }

  /** Two vectors are equal exactly if their contents are. */
  method Equal<T(0,==)>(a: Vector<T>, b: Vector<T>) returns (same: bool)
    requires a.Valid() && b.Valid()
    ensures same <==> a.Contents() == b.Contents()
  {
    if a.size != b.size {
      return false;
    }
    var i := 0;
    while i < a.size
      invariant 0 <= i <= a.size && forall j | 0 <= j < i :: a.data[j] == b.data[j]
    {
      if a.data[i] != b.data[i] {
        assert a.Contents()[i] != b.Contents()[i];
        return false;
      }
      i := i + 1;
    }
    return true;
  }

  lemma FitsOneMore<T>(s: seq<T>, from: nat, at: nat, capacity: nat)
    requires from <= at < |s|
    ensures Fitting(s[from..at + 1], capacity) == Apply(Fitting(s[from..at], capacity), capacity, Push(s[at]))
  {
    assert s[from..at + 1] == s[from..at] + [s[at]];
  }
}
