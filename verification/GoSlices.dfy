// Go slices that begin at the start of their array: a length, a capacity, and an append that
// writes into spare capacity when there is enough of it.
module GoSlices {

  datatype Slice<T> = Slice(arr: array<T>, len: nat, cap: nat)
  {
    ghost predicate Fits()
    {
      len <= cap <= arr.Length
    }

    ghost function View(): seq<T>
      requires Fits()
      reads arr
    {
      arr[..len]
    }

    /** s[:len(s):len(s)] */
    function Clip(): Slice<T>
    {
      Slice(arr, len, len)
    }
  }

  /** append(s, xs...); `room` is the spare capacity the runtime adds when it has to grow. */
  method Append<T(0)>(s: Slice<T>, xs: seq<T>, room: nat) returns (r: Slice<T>)
    requires s.Fits()
    modifies s.arr
    ensures r.Fits() && r.View() == old(s.View()) + xs && r.len == s.len + |xs|
    ensures s.len + |xs| <= s.cap ==>
      && r.arr == s.arr && r.cap == s.cap
      && (forall i :: 0 <= i < s.arr.Length && !(s.len <= i < s.len + |xs|) ==> s.arr[i] == old(s.arr[i]))
    ensures s.len + |xs| > s.cap ==> fresh(r.arr) && s.arr[..] == old(s.arr[..])
  {
    var n := s.len + |xs|;
    if n <= s.cap {
      for i := 0 to |xs|
        invariant s.arr[..s.len] == old(s.View()) && s.arr[s.len..s.len + i] == xs[..i]
        invariant forall k :: 0 <= k < s.arr.Length && !(s.len <= k < s.len + i) ==> s.arr[k] == old(s.arr[k])
      {
        s.arr[s.len + i] := xs[i];
      }
      r := Slice(s.arr, n, s.cap);
      assert s.arr[..n] == s.arr[..s.len] + s.arr[s.len..n];
    } else {
      var grown := new T[n + room];
      for i := 0 to n
        invariant s.arr[..] == old(s.arr[..])
        invariant forall k :: 0 <= k < i ==> grown[k] == (s.arr[..s.len] + xs)[k]
      {
        grown[i] := if i < s.len then s.arr[i] else xs[i - s.len];
      }
      r := Slice(grown, n, n + room);
      assert grown[..n] == s.arr[..s.len] + xs;
    }
  }
}
