/**
 The string class of the older OpenCL binding header: a size and a buffer of its own.

 A pointer handed in from outside is the sequence of bytes it can be read for; NULL is `None`.
 */
module HeapString {

  type Byte = x: int | 0 <= x < 256

  const NUL: Byte := 0

  datatype Pointer = None | To(bytes: seq<Byte>)

  /** The bytes in front of the first NUL, or all of them. */
  function CString(bytes: seq<Byte>): (s: seq<Byte>)
    ensures |s| <= |bytes| && s == bytes[..|s|] && NUL !in s
    ensures |s| < |bytes| ==> bytes[|s|] == NUL
  {
    if bytes == [] || bytes[0] == NUL then []
    else
      var rest := CString(bytes[1..]);
      assert bytes == [bytes[0]] + bytes[1..];
      [bytes[0]] + rest
  }

  lemma CStringIsFirst(bytes: seq<Byte>, n: nat)
    requires n < |bytes| && bytes[n] == NUL && NUL !in bytes[..n]
    ensures CString(bytes) == bytes[..n]
  {
    var s := CString(bytes);
    forall i | 0 <= i < n ensures bytes[i] != NUL {
      assert bytes[..n][i] == bytes[i];
    }
  }

  function Zeros(n: nat): (z: seq<Byte>)
    ensures |z| == n && forall i | 0 <= i < n :: z[i] == NUL
  {
    seq(n, i => NUL)
  }

  /** A string cut or padded with NULs to a length. */
  function Resized(s: seq<Byte>, n: nat): (r: seq<Byte>)
    ensures |r| == n
    ensures forall i | 0 <= i < n :: r[i] == if i < |s| then s[i] else NUL
  {
    if n <= |s| then s[..n] else s + Zeros(n - |s|)
  }

  /** Counts the bytes in front of the first NUL. */
  method StrLen(bytes: seq<Byte>) returns (n: nat)
    requires NUL in bytes
    ensures n < |bytes| && bytes[..n] == CString(bytes)
  {
    n := 0;
    while bytes[n] != NUL
      invariant n < |bytes| && NUL !in bytes[..n]
      decreases |bytes| - n
    {
      assert bytes[..n + 1] == bytes[..n] + [bytes[n]];
      n := n + 1;
    }
    CStringIsFirst(bytes, n);
  }

  method CopyBytes(target: array<Byte>, source: seq<Byte>, count: nat)
    requires count <= |source| && count <= target.Length
    modifies target
    ensures target[..] == source[..count] + old(target[..])[count..]
  {
    var i := 0;
    while i < count
      invariant 0 <= i <= count
      invariant forall j | 0 <= j < i :: target[j] == source[j]
      invariant forall j | i <= j < target.Length :: target[j] == old(target[j])
    {
      target[i] := source[i];
      i := i + 1;
    }
  }

  method ZeroBytes(target: array<Byte>, from: nat, count: nat)
    requires from + count <= target.Length
    modifies target
    ensures target[..] == old(target[..])[..from] + Zeros(count) + old(target[..])[from + count..]
  {
    var i := 0;
    while i < count
      invariant 0 <= i <= count
      invariant forall j | from <= j < from + i :: target[j] == NUL
      invariant forall j | 0 <= j < target.Length && !(from <= j < from + i) :: target[j] == old(target[j])
    {
      target[from + i] := NUL;
      i := i + 1;
    }
  }

  /** Copying so many bytes from there stays inside readable memory. */
  predicate Readable(source: Pointer, n: nat) {
    n == 0 || (source.To? && n <= |source.bytes|)
  }

  /** The promise that NULL leaves the string empty is kept exactly for size 0: otherwise NULL is read from. */
  lemma NullIsReadableIff(n: nat)
    ensures Readable(None, n) <==> n == 0
  {
  }

  class String {
    var size: nat
    var str: array?<Byte>

    /** No buffer for an empty string; otherwise one byte more than the size, and that byte is NUL. */
    ghost predicate Valid()
      reads this, str
    {
      && (str == null <==> size == 0)
      && (str != null ==> str.Length == size + 1 && str[size] == NUL)
    }

    ghost function Contents(): (s: seq<Byte>)
      requires Valid()
      reads this, str
      ensures |s| == size
    {
      if str == null then [] else str[..size]
    }

    constructor Empty()
      ensures Valid() && Contents() == [] && str == null
    {
      size, str := 0, null;
    }

    /** From so many bytes of memory; NULs among them are nothing special. */
    constructor FromBytes(source: Pointer, n: nat)
      requires Readable(source, n)
      ensures Valid() && (str != null ==> fresh(str))
      ensures Contents() == if n == 0 then [] else source.bytes[..n]
    {
      size, str := n, null;
      new;
      if n > 0 {
        var buffer := new Byte[n + 1];
        CopyBytes(buffer, source.bytes, n);
        buffer[n] := NUL;
        str := buffer;
      }
    }

    /** From a NUL-terminated text. */
    constructor FromText(source: Pointer)
      requires source.To? ==> NUL in source.bytes
      ensures Valid() && (str != null ==> fresh(str))
      ensures Contents() == if source == None then [] else CString(source.bytes)
    {
      size, str := 0, null;
      new;
      if source.To? {
        size := StrLen(source.bytes);
      }
      if size > 0 {
        var buffer := new Byte[size + 1];
        CopyBytes(buffer, source.bytes, size + 1);
        str := buffer;
      }
    }

    /** Keeps the common prefix and pads with NULs. */
    method Resize(n: nat)
      requires Valid()
      modifies this
      ensures Valid() && size == n && Contents() == Resized(old(Contents()), n)
      ensures forall i | 0 <= i < n && i < old(size) :: Contents()[i] == old(Contents())[i]
      ensures forall i | old(size) <= i < n :: Contents()[i] == NUL
      ensures str == old(str) || str == null || fresh(str)
    {
      ghost var was := Contents();
      if size == n {
        return;
      }
      if n == 0 {
        str := null;
        size := 0;
      } else {
        var buffer := new Byte[n + 1];
        var copySize := n;
        if size < n {
          copySize := size;
        }
        size := n;
        if str != null {
          CopyBytes(buffer, str[..], copySize + 1);
        }
        ghost var copied := buffer[..];
        if copySize < size {
          ZeroBytes(buffer, copySize, size - copySize);
        }
        buffer[size] := NUL;
        assert copied[..copySize] == was[..copySize];
        assert buffer[..size] == Resized(was, n);
        str := buffer;
      }
    }

    /** Takes over a copy of another string. */
    method Assign(rhs: String)
      requires Valid() && rhs.Valid()
      modifies this
      ensures Valid() && rhs.Valid() && Contents() == old(rhs.Contents())
      ensures this != rhs ==> str == null || fresh(str)
    {
      if this == rhs {
        return;
      }
      if str != null {
        str := null;
        size := 0;
      }
      if rhs.size == 0 || rhs.str == null {
        str := null;
        size := 0;
      } else {
        var buffer := new Byte[rhs.size + 1];
        CopyBytes(buffer, rhs.str[..], rhs.size + 1);
        str := buffer;
        size := rhs.size;
      }
    }

    constructor Copy(rhs: String)
      requires rhs.Valid()
      ensures Valid() && Contents() == rhs.Contents() && (str != null ==> fresh(str))
    {
      size, str := 0, null;
      new;
      Assign(rhs);
    }

    /** The text another reader sees: the buffer, or an empty text where there is none. */
    method CStr() returns (text: seq<Byte>)
      requires Valid()
      ensures text == Contents() + [NUL]
    {
      text := if str != null then str[..] else [NUL];
    }

    /** Rebuilding from that text gives the string back exactly if it has no NUL inside. */
    method Rebuilt() returns (copy: String)
      requires Valid()
      ensures fresh(copy) && copy.Valid() && (copy.Contents() == Contents() <==> NUL !in Contents())
      ensures copy.Contents() == CString(Contents())
    {
      var text := CStr();
      copy := new String.FromText(To(text));
      CutAtEnd(Contents());
    }
  }

  lemma CutAtEnd(s: seq<Byte>)
    ensures CString(s + [NUL]) == CString(s) && (CString(s) == s <==> NUL !in s)
  {
    var t := s + [NUL];
    var n := |CString(s)|;
    assert t[..n] == CString(s);
    assert t[n] == NUL;
    CStringIsFirst(t, n);
  }
}
