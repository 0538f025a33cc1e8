/**
 Go slices as the server uses them: a window into a backing array that several slices can share.
 append writes in place while there is capacity, and the in-place deletion shifts the tail left.
 */
module Slices {

  datatype Slice<T> = Slice(data: array<T>, off: nat, len: nat)

  ghost predicate Valid<T>(s: Slice<T>) {
    s.off + s.len <= s.data.Length
  }

  function Contents<T>(s: Slice<T>): (r: seq<T>)
    requires s.off + s.len <= s.data.Length
    reads s.data
    ensures |r| == s.len
  {
    s.data[s.off..s.off + s.len]
  }

  /** make([]T, n) followed by copy(r, s). */
  method Clone<T(0)>(s: Slice<T>, spare: nat) returns (r: Slice<T>)
    requires Valid(s)
    ensures Valid(r) && fresh(r.data) && r.off == 0 && r.data.Length == s.len + spare
    ensures Contents(r) == Contents(s)
  {
    var data := new T[s.len + spare];
    for i := 0 to s.len
      invariant data[..i] == s.data[s.off..s.off + i]
    {
      data[i] := s.data[s.off + i];
    }
    r := Slice(data, 0, s.len);
  }

  /** append(s, x): in place when there is capacity, into a larger copy otherwise. */
  method Append<T(0)>(s: Slice<T>, x: T) returns (r: Slice<T>)
    requires Valid(s)
    modifies s.data
    ensures Valid(r) && Contents(r) == old(Contents(s)) + [x]
    ensures fresh(r.data) || (r.data == s.data && r.off == s.off)
    ensures forall k | 0 <= k < s.data.Length && k != s.off + s.len :: s.data[k] == old(s.data[k])
  {
    if s.off + s.len < s.data.Length {
      s.data[s.off + s.len] := x;
      r := Slice(s.data, s.off, s.len + 1);
    } else {
      var bigger := Clone(s, s.len + 1);
      bigger.data[s.len] := x;
      r := Slice(bigger.data, 0, s.len + 1);
    }
  }

  /** copy(data[at:], t), where data is not the backing array of t. */
  method CopyInto<T>(data: array<T>, at: nat, t: Slice<T>)
    requires Valid(t) && at + t.len <= data.Length && data != t.data
    modifies data
    ensures data[..at] == old(data[..at]) && data[at..at + t.len] == Contents(t)
  {
    for i := 0 to t.len
      invariant data[..at] == old(data[..at])
      invariant forall k | at <= k < at + i :: data[k] == t.data[t.off + (k - at)]
    {
      data[at + i] := t.data[t.off + i];
    }
  }

  /** append(s, t...), where t does not share the backing array of s. */
  method AppendAll<T(0)>(s: Slice<T>, t: Slice<T>) returns (r: Slice<T>)
    requires Valid(s) && Valid(t) && s.data != t.data
    modifies s.data
    ensures Valid(r) && Contents(r) == old(Contents(s)) + Contents(t)
    ensures fresh(r.data) || (r.data == s.data && r.off == s.off)
  {
    r := s;
    if s.off + s.len + t.len > s.data.Length {
      r := Clone(s, t.len);
    }
    var end := r.off + s.len;
    CopyInto(r.data, end, t);
    r := Slice(r.data, r.off, s.len + t.len);
    assert Contents(r) == r.data[r.off..end] + r.data[end..end + t.len];
  }

  /** append(s[:i], s[i+1:]...): shifts the tail left inside the same backing array. */
  method DeleteAt<T>(s: Slice<T>, i: nat) returns (r: Slice<T>)
    requires Valid(s) && i < s.len
    modifies s.data
    ensures r == Slice(s.data, s.off, s.len - 1)
    ensures Contents(r) == old(Contents(s)[..i] + Contents(s)[i + 1..])
    ensures forall k | 0 <= k < s.data.Length && !(s.off + i <= k < s.off + s.len - 1) ::
              s.data[k] == old(s.data[k])
  {
    ghost var before := s.data[..];
    for j := i to s.len - 1
      invariant forall k | s.off + i <= k < s.off + j :: s.data[k] == before[k + 1]
      invariant forall k | 0 <= k < s.data.Length && !(s.off + i <= k < s.off + j) :: s.data[k] == before[k]
    {
      s.data[s.off + j] := s.data[s.off + j + 1];
    }
    r := Slice(s.data, s.off, s.len - 1);
    ghost var kept := before[s.off..s.off + i] + before[s.off + i + 1..s.off + s.len];
    assert forall k | 0 <= k < s.len - 1 :: s.data[s.off + k] == kept[k];
    assert Contents(r) == kept;
  }
}
