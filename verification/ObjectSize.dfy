/** How the NVM byte map records the sizes of objects, in cache lines. */
module ObjectSize {
  const CACHE_LINE_SIZE: nat := 64

  /** The bytes that say `n` lines: full ones, and one for the rest. */
  function Encode(n: nat): seq<nat> {
    if n == 0 then []
    else if n >= CACHE_LINE_SIZE then [CACHE_LINE_SIZE] + Encode(n - CACHE_LINE_SIZE)
    else [n]
  }

  function Sum(s: seq<nat>): nat {
    if s == [] then 0 else s[0] + Sum(s[1..])
  }

  /** The bytes add up to the size, none is zero or above 64, and there are no more of them than the object has lines. */
  lemma {:induction false} EncodeShape(n: nat)
    ensures Sum(Encode(n)) == n
    ensures forall b | b in Encode(n) :: 1 <= b <= 64
    ensures |Encode(n)| == (n + 63) / 64 <= n
  {
    if n >= CACHE_LINE_SIZE {
      EncodeShape(n - CACHE_LINE_SIZE);
      assert Encode(n)[1..] == Encode(n - CACHE_LINE_SIZE);
    } else if n > 0 {
      assert Encode(n)[1..] == [];
    }
  }

  function Put(bytes: seq<nat>, index: nat, part: seq<nat>): (r: seq<nat>)
    requires index + |part| <= |bytes|
    ensures |r| == |bytes|
    ensures forall i | 0 <= i < |bytes| :: r[i] == if index <= i < index + |part| then part[i - index] else bytes[i]
  {
    bytes[..index] + part + bytes[index + |part|..]
  }

  /** Full bytes are added up until the first that is not full. */
  function Decode(bytes: seq<nat>, index: nat): nat
    decreases |bytes| - index
  {
    if index >= |bytes| then 0
    else if bytes[index] == CACHE_LINE_SIZE then CACHE_LINE_SIZE + Decode(bytes, index + 1)
    else bytes[index]
  }

  /** Bytes that begin with an encoding, followed by a byte that is not part of another object, decode to its size. */
  lemma {:induction false} DecodeEncoded(bytes: seq<nat>, index: nat, n: nat)
    requires index + |Encode(n)| <= |bytes|
    requires bytes[index..index + |Encode(n)|] == Encode(n)
    requires n % CACHE_LINE_SIZE == 0 ==> index + |Encode(n)| < |bytes| ==> bytes[index + |Encode(n)|] == 0
    ensures Decode(bytes, index) == n
    decreases n
  {
    var part := bytes[index..index + |Encode(n)|];
    if n >= CACHE_LINE_SIZE {
      assert part[0] == bytes[index] == CACHE_LINE_SIZE;
      assert part[1..] == bytes[index + 1..index + |Encode(n)|];
      DecodeEncoded(bytes, index + 1, n - CACHE_LINE_SIZE);
    } else if n > 0 {
      assert part[0] == bytes[index] == n;
    }
  }

  datatype Object = Object(index: nat, lines: nat)

  ghost predicate Apart(a: Object, b: Object) {
    a.index + a.lines <= b.index || b.index + b.lines <= a.index
  }

  ghost predicate AllApart(objects: seq<Object>) {
    forall i, j | 0 <= i < j < |objects| :: Apart(objects[i], objects[j])
  }

  ghost predicate InMap(objects: seq<Object>, size: nat) {
    forall i | 0 <= i < |objects| :: 0 < objects[i].lines && objects[i].index + objects[i].lines <= size
  }

  /** The map after recording some objects, one after the other. */
  function PutAll(bytes: seq<nat>, objects: seq<Object>): (r: seq<nat>)
    requires InMap(objects, |bytes|)
    ensures |r| == |bytes|
  {
    if objects == [] then bytes
    else
      var last := objects[|objects| - 1];
      EncodeShape(last.lines);
      Put(PutAll(bytes, objects[..|objects| - 1]), last.index, Encode(last.lines))
  }

  /** The lines of an object hold its encoding, and zeros after it. */
  ghost predicate Holds(bytes: seq<nat>, x: Object) {
    var k := |Encode(x.lines)|;
    && x.index + x.lines <= |bytes| && k <= x.lines
    && bytes[x.index..x.index + k] == Encode(x.lines)
    && forall i | x.index + k <= i < x.index + x.lines :: bytes[i] == 0
  }

  lemma HoldsDecodes(bytes: seq<nat>, x: Object)
    requires Holds(bytes, x) && 0 < x.lines
    ensures Decode(bytes, x.index) == x.lines
  {
    EncodeShape(x.lines);
    DecodeEncoded(bytes, x.index, x.lines);
  }

  /** Recording one object leaves others that do not overlap it as they are. */
  lemma PutKeeps(bytes: seq<nat>, x: Object, other: Object)
    requires Apart(x, other) && x.index + x.lines <= |bytes| && |Encode(x.lines)| <= x.lines
    requires Holds(bytes, other)
    ensures Holds(Put(bytes, x.index, Encode(x.lines)), other)
  {
    var next := Put(bytes, x.index, Encode(x.lines));
    var k := |Encode(other.lines)|;
    assert next[other.index..other.index + k] == bytes[other.index..other.index + k];
  }

  lemma {:induction false} PutAllElsewhere(bytes: seq<nat>, objects: seq<Object>, i: nat)
    requires InMap(objects, |bytes|) && i < |bytes|
    requires forall k | 0 <= k < |objects| :: !(objects[k].index <= i < objects[k].index + objects[k].lines)
    ensures PutAll(bytes, objects)[i] == bytes[i]
  {
    if objects != [] {
      var n := |objects| - 1;
      PutAllElsewhere(bytes, objects[..n], i);
      EncodeShape(objects[n].lines);
      assert !(objects[n].index <= i < objects[n].index + objects[n].lines);
    }
  }

  /** On a zero map, objects that do not overlap are recorded in any order, and each of their sizes can be read back. */
  lemma {:induction false} AllSizesReadBack(bytes: seq<nat>, objects: seq<Object>, k: nat)
    requires InMap(objects, |bytes|) && AllApart(objects) && k < |objects|
    requires forall i | 0 <= i < |bytes| :: bytes[i] == 0
    ensures Holds(PutAll(bytes, objects), objects[k])
    ensures Decode(PutAll(bytes, objects), objects[k].index) == objects[k].lines
  {
    var n := |objects| - 1;
    var x := objects[n];
    var before := PutAll(bytes, objects[..n]);
    var next := PutAll(bytes, objects);
    EncodeShape(x.lines);
    if k < n {
      AllSizesReadBack(bytes, objects[..n], k);
      assert Apart(objects[k], x);
      PutKeeps(before, x, objects[k]);
    } else {
      forall i | x.index <= i < x.index + x.lines
        ensures before[i] == 0
      {
        assert forall j | 0 <= j < n :: Apart(objects[j], objects[n]);
        PutAllElsewhere(bytes, objects[..n], i);
      }
      assert next[x.index..x.index + |Encode(x.lines)|] == Encode(x.lines);
    }
    HoldsDecodes(next, objects[k]);
  }

  lemma PutStep(bytes: seq<nat>, index: nat, part: seq<nat>, k: nat)
    requires index + |part| <= |bytes| && k < |part|
    ensures Put(bytes, index, part[..k])[index + k := part[k]] == Put(bytes, index, part[..k + 1])
  {
    var next := Put(bytes, index, part[..k])[index + k := part[k]];
    assert |next| == |bytes|;
    assert forall i | 0 <= i < |bytes| :: next[i] == Put(bytes, index, part[..k + 1])[i];
  }

  /** With `rest` lines still to be recorded, the next byte is known. */
  lemma EncodeStep(n: nat, rest: nat, k: nat)
    requires k <= |Encode(n)| && Encode(rest) == Encode(n)[k..] && 0 < rest
    ensures k < |Encode(n)|
    ensures
      var b := if rest >= CACHE_LINE_SIZE then CACHE_LINE_SIZE else rest;
      Encode(n)[k] == b && Encode(n)[k + 1..] == Encode(rest - b)
  {
    var part := Encode(n)[k..];
    assert part[0] == Encode(n)[k] && part[1..] == Encode(n)[k + 1..];
  }

  method SetObjSize(byteMap: array<nat>, index: nat, objSize: nat)
    requires index + (objSize / 64 + 63) / 64 <= byteMap.Length
    modifies byteMap
    ensures |Encode(objSize / 64)| + index <= byteMap.Length
    ensures byteMap[..] == Put(old(byteMap[..]), index, Encode(objSize / 64))
  {
    var objBytesSum: nat := objSize / CACHE_LINE_SIZE;
    ghost var start, code, k := byteMap[..], Encode(objBytesSum), 0;
    EncodeShape(objBytesSum);
    var i := index;
    while objBytesSum > 0
      invariant i == index + k && k <= |code|
      invariant Encode(objBytesSum) == code[k..]
      invariant byteMap[..] == Put(start, index, code[..k])
      decreases objBytesSum
    {
      hide Put, Encode;
      EncodeStep(objSize / CACHE_LINE_SIZE, objBytesSum, k);
      PutStep(start, index, code, k);
      if objBytesSum >= CACHE_LINE_SIZE {
        byteMap[i] := CACHE_LINE_SIZE;
        objBytesSum := objBytesSum - CACHE_LINE_SIZE;
      } else {
        byteMap[i] := objBytesSum;
        objBytesSum := 0;
      }
      i := i + 1;
      k := k + 1;
    }
    assert |code[k..]| == 0;
    assert code[..k] == code;
  }
}
