/** Python's `sep.join(parts)` on strings, and where each part lands in
    the joined string. */
module Joining {

  /** `sep.join(parts)`. */
  function Join(parts: seq<string>, sep: string): string
  {
    if |parts| == 0 then ""
    else if |parts| == 1 then parts[0]
    else parts[0] + sep + Join(parts[1..], sep)
  }

  /** Where part `i` starts in `Join(parts, sep)`: the lengths of the parts
      before it, each followed by one separator. */
  function Offset(parts: seq<string>, sep: string, i: nat): nat
    requires i <= |parts|
  {
    if i == 0 then 0 else |parts[0]| + |sep| + Offset(parts[1..], sep, i - 1)
  }

  /** Each offset is the previous one, past that part and one separator. */
  lemma {:induction false} OffsetNext(parts: seq<string>, sep: string, i: nat)
    requires i < |parts|
    ensures Offset(parts, sep, i + 1) == Offset(parts, sep, i) + |parts[i]| + |sep|
  {
    if i > 0 {
      OffsetNext(parts[1..], sep, i - 1);
    }
  }

  /** Part `i` lies in the join at its offset. */
  lemma {:induction false} PartAt(parts: seq<string>, sep: string, i: nat)
    requires i < |parts|
    ensures Offset(parts, sep, i) + |parts[i]| <= |Join(parts, sep)|
    ensures Join(parts, sep)[Offset(parts, sep, i)..Offset(parts, sep, i) + |parts[i]|] == parts[i]
  {
    if |parts| == 1 {
      assert Join(parts, sep) == parts[0];
    } else {
      var head := parts[0] + sep;
      var tail := parts[1..];
      var rest := Join(tail, sep);
      assert Join(parts, sep) == head + rest;
      if i == 0 {
        assert (head + rest)[..|parts[0]|] == parts[0];
      } else {
        PartAt(tail, sep, i - 1);
        var o := Offset(tail, sep, i - 1);
        assert tail[i - 1] == parts[i];
        assert Offset(parts, sep, i) == |head| + o;
        SliceAfterPrefix(head, rest, o, |parts[i]|);
      }
    }
  }

  /** Every part but the last is followed by one separator. */
  lemma {:induction false} SeparatorAfter(parts: seq<string>, sep: string, i: nat)
    requires i + 1 < |parts|
    ensures Offset(parts, sep, i) + |parts[i]| + |sep| <= |Join(parts, sep)|
    ensures Join(parts, sep)[Offset(parts, sep, i) + |parts[i]|..Offset(parts, sep, i) + |parts[i]| + |sep|] == sep
  {
    var head := parts[0] + sep;
    var tail := parts[1..];
    var rest := Join(tail, sep);
    assert Join(parts, sep) == head + rest;
    if i == 0 {
      assert (head + rest)[|parts[0]|..|head|] == sep;
    } else {
      SeparatorAfter(tail, sep, i - 1);
      var o := Offset(tail, sep, i - 1);
      assert tail[i - 1] == parts[i];
      assert Offset(parts, sep, i) == |head| + o;
      SliceAfterPrefix(head, rest, o + |parts[i]|, |sep|);
    }
  }

  /** The last part ends the join. Together with `PartAt` and
      `SeparatorAfter`: the join is exactly part 0, separator, part 1, ...,
      separator, part n-1. */
  lemma {:induction false} LastPartEnds(parts: seq<string>, sep: string)
    requires |parts| > 0
    ensures Offset(parts, sep, |parts| - 1) + |parts[|parts| - 1]| == |Join(parts, sep)|
  {
    if |parts| == 1 {
      assert Join(parts, sep) == parts[0];
    } else {
      var tail := parts[1..];
      LastPartEnds(tail, sep);
      assert tail[|tail| - 1] == parts[|parts| - 1];
      assert Offset(parts, sep, |parts| - 1) == |parts[0]| + |sep| + Offset(tail, sep, |tail| - 1);
      assert Join(parts, sep) == parts[0] + sep + Join(tail, sep);
    }
  }

  /** Slicing past a prefix is slicing the rest. */
  lemma SliceAfterPrefix(h: string, rest: string, o: nat, n: nat)
    requires o + n <= |rest|
    ensures |h| + o + n <= |h + rest|
    ensures (h + rest)[|h| + o..|h| + o + n] == rest[o..o + n]
  {
  }
}
