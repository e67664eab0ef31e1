/**
 The length of an advertising payload (src/blem/src/ble_adv_data.c).

 A payload is a row of AD structures, each a length octet that counts the octets after
 it and is not zero, optionally followed by padding that starts with a zero octet
 (Bluetooth Core Specification, Vol 3, Part C, Section 11).
 */
module AdLength {

  type Byte = b: int | 0 <= b <= 255

  /** The octets of one AD structure after its length octet. */
  predicate IsBody(b: seq<Byte>) {
    1 <= |b| <= 255
  }

  predicate AreBodies(bs: seq<seq<Byte>>) {
    forall i | 0 <= i < |bs| :: IsBody(bs[i])
  }

  function Encode(bs: seq<seq<Byte>>): seq<Byte>
    requires AreBodies(bs)
  {
    if bs == [] then [] else [|bs[0]|] + bs[0] + Encode(bs[1..])
  }

  predicate Ends(rest: seq<Byte>) {
    rest == [] || rest[0] == 0
  }

  /** What a payload looks like when it is right: structures, then padding or the end. */
  predicate IsPayload(data: seq<Byte>, bs: seq<seq<Byte>>) {
    AreBodies(bs) && Encode(bs) <= data && Ends(data[|Encode(bs)|..])
  }

  /** The end of the structures that start at `p`, or -1 when one passes the end. */
  function EndFrom(data: seq<Byte>, p: nat): (e: int)
    requires p <= |data|
    ensures e == -1 || p <= e <= |data|
    decreases |data| - p
  {
    if p == |data| || data[p] == 0 then p
    else if p + 1 + data[p] > |data| then -1
    else EndFrom(data, p + 1 + data[p])
  }

  function Length(data: seq<Byte>): (n: nat)
    ensures n <= 255 && n <= |data|
  {
    var e := EndFrom(data, 0);
    if e < 0 || e > 255 then 0 else e
  }

  method GetLength(data: seq<Byte>) returns (n: Byte)
    ensures n == Length(data)
  {
    var p := 0;
    while p < |data|
      invariant 0 <= p <= |data| && p <= 255
      invariant EndFrom(data, 0) == EndFrom(data, p)
      decreases |data| - p
    {
      var adeLen := data[p];
      if adeLen < 1 { break; }
      p := p + 1;
      if p + adeLen > |data| { return 0; }
      p := p + adeLen;
      if p > 255 { return 0; }
    }
    return p;
  }

  /** The structures from `p` on, when they are all complete. */
  function Bodies(data: seq<Byte>, p: nat): (bs: seq<seq<Byte>>)
    requires p <= |data| && EndFrom(data, p) >= 0
    ensures AreBodies(bs)
    decreases |data| - p
  {
    if p == |data| || data[p] == 0 then []
    else [data[p + 1..p + 1 + data[p]]] + Bodies(data, p + 1 + data[p])
  }

  lemma {:induction false} SplitIsExact(data: seq<Byte>, p: nat)
    requires p <= |data| && EndFrom(data, p) >= 0
    ensures data[p..EndFrom(data, p)] == Encode(Bodies(data, p))
    ensures Ends(data[EndFrom(data, p)..])
    decreases |data| - p
  {
    if p == |data| || data[p] == 0 {
    } else {
      var q, e := p + 1 + data[p], EndFrom(data, p);
      SplitIsExact(data, q);
      var bs := Bodies(data, p);
      assert bs[1..] == Bodies(data, q);
      assert data[p..e] == [data[p]] + data[p + 1..q] + data[q..e];
    }
  }

  lemma {:induction false} EncodingEnds(data: seq<Byte>, p: nat, bs: seq<seq<Byte>>)
    requires p <= |data| && AreBodies(bs)
    requires Encode(bs) <= data[p..] && Ends(data[p + |Encode(bs)|..])
    ensures EndFrom(data, p) == p + |Encode(bs)|
    decreases |bs|
  {
    if bs == [] {
    } else {
      var q := p + 1 + |bs[0]|;
      assert Encode(bs)[0] == |bs[0]| && data[p] == data[p..][0];
      assert Encode(bs)[1 + |bs[0]|..] == Encode(bs[1..]);
      assert data[q..] == data[p..][1 + |bs[0]|..];
      assert Encode(bs[1..]) <= data[q..] by {
        assert Encode(bs) == data[p..][..|Encode(bs)|];
      }
      EncodingEnds(data, q, bs[1..]);
    }
  }

  /** Main result: the length is that of the structures whenever the payload is right and
      fits an octet, for any padding. */
  lemma LengthOfPayload(data: seq<Byte>, bs: seq<seq<Byte>>)
    requires IsPayload(data, bs)
    ensures Length(data) == if |Encode(bs)| <= 255 then |Encode(bs)| else 0
  {
    assert data[0..] == data;
    EncodingEnds(data, 0, bs);
  }

  /** Main result: a length is only given to a payload that is right; zero means that
      there is no structure, that one is cut off, or that they do not fit an octet. */
  lemma LengthMeans(data: seq<Byte>)
    ensures Length(data) > 0 <==>
            exists bs :: bs != [] && IsPayload(data, bs) && |Encode(bs)| <= 255
    ensures Length(data) > 0 ==> data[..Length(data)] == Encode(Bodies(data, 0)) && Ends(data[Length(data)..])
  {
    if EndFrom(data, 0) >= 0 {
      SplitIsExact(data, 0);
      var e := EndFrom(data, 0);
      assert data[0..e] == data[..e];
      assert IsPayload(data, Bodies(data, 0));
    }
    forall bs | bs != [] && IsPayload(data, bs) && |Encode(bs)| <= 255 ensures Length(data) > 0 {
      LengthOfPayload(data, bs);
    }
  }
}
