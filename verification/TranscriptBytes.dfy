/** What the pairing transcript hashes (rust/yakr-core/src/pairing.rs): fields joined by a bar.
    The fields may contain the bar, yet the joined bytes determine every field. */
module TranscriptBytes {
  import opened Bytes
  import opened Crypto

  const BAR: Byte := '|' as int

  // The protocol strings are "yakr-v0.4" and "yakr-v0.6".
  datatype Protocol = V4 | V6

  const YAKR: ByteString := ['y' as int, 'a' as int, 'k' as int, 'r' as int, '-' as int, 'v' as int, '0' as int,
                             '.' as int]

  function Encode(p: Protocol): ByteString {
    YAKR + [if p == V4 then '4' as int else '6' as int]
  }

  // Keys, the invite secret and the two ratchet keys are 32 bytes each, in the order hashed;
  // the KEM ciphertext is there, and not empty, exactly when the invite is hybrid.
  datatype Inputs = Inputs(protocol: Protocol, fields: seq<ByteString>, kem: Option<ByteString>)

  predicate WellFormed(t: Inputs) {
    && |t.fields| == 9 && (forall i | 0 <= i < 9 :: |t.fields[i]| == 32)
    && (t.kem.Some? ==> t.kem.value != [])
  }

  function Parts(t: Inputs): seq<ByteString>
    requires WellFormed(t)
  {
    [Encode(t.protocol)] + t.fields + match t.kem case None => [] case Some(ct) => [ct]
  }

  function Join(parts: seq<ByteString>): ByteString {
    if parts == [] then [] else if |parts| == 1 then parts[0] else parts[0] + [BAR] + Join(parts[1..])
  }

  // The hasher is fed part by part, with a bar before all but the first.
  method Feed(parts: seq<ByteString>) returns (fed: ByteString)
    ensures fed == Join(parts)
  {
    fed := [];
    for i := 0 to |parts|
      invariant fed == Join(parts[..i])
    {
      JoinSnoc(parts[..i], parts[i]);
      assert parts[..i] + [parts[i]] == parts[..i + 1];
      if i > 0 {
        fed := fed + [BAR];
      }
      fed := fed + parts[i];
    }
    assert parts[..|parts|] == parts;
  }

  lemma {:induction false} JoinSnoc(parts: seq<ByteString>, p: ByteString)
    ensures Join(parts + [p]) == if parts == [] then p else Join(parts) + [BAR] + p
    decreases |parts|
  {
    if parts == [] {
      assert parts + [p] == [p];
    } else {
      assert (parts + [p])[1..] == parts[1..] + [p];
      JoinSnoc(parts[1..], p);
      if |parts| == 1 {
        assert parts[1..] == [];
      } else {
        assert parts[0] + [BAR] + (Join(parts[1..]) + [BAR] + p) == (parts[0] + [BAR] + Join(parts[1..])) + [BAR] + p;
      }
    }
  }

  // ---------- fields of known length can be read back ----------

  ghost predicate SameShape(a: seq<ByteString>, b: seq<ByteString>) {
    |a| == |b| && forall i | 0 <= i < |a| - 1 :: |a[i]| == |b[i]|
  }

  lemma {:induction false} JoinDetermines(a: seq<ByteString>, b: seq<ByteString>)
    requires SameShape(a, b) && Join(a) == Join(b)
    ensures a == b
    decreases |a|
  {
    if |a| >= 2 {
      var n := |a[0]|;
      assert Join(a)[..n] == a[0] && Join(b)[..n] == b[0];
      assert Join(a)[n + 1..] == Join(a[1..]) && Join(b)[n + 1..] == Join(b[1..]);
      forall i | 0 <= i < |a| - 2 ensures |a[1..][i]| == |b[1..][i]| {
        assert |a[i + 1]| == |b[i + 1]|;
      }
      JoinDetermines(a[1..], b[1..]);
      assert a == [a[0]] + a[1..] && b == [b[0]] + b[1..];
    } else if |a| == 1 {
      assert a == [a[0]] && b == [b[0]];
    }
  }

  // ---------- lengths tell whether there is a KEM ciphertext ----------

  function Total(parts: seq<ByteString>): nat {
    if parts == [] then 0 else |parts[0]| + Total(parts[1..])
  }

  lemma {:induction false} JoinLength(parts: seq<ByteString>)
    requires parts != []
    ensures |Join(parts)| == Total(parts) + |parts| - 1
    decreases |parts|
  {
    if |parts| > 1 {
      JoinLength(parts[1..]);
    } else {
      assert parts[1..] == [];
    }
  }

  lemma {:induction false} TotalOfEqual(parts: seq<ByteString>, n: nat)
    requires forall i | 0 <= i < |parts| :: |parts[i]| == n
    ensures Total(parts) == |parts| * n
    decreases |parts|
  {
    if parts != [] {
      TotalOfEqual(parts[1..], n);
    }
  }

  lemma {:induction false} TotalJoin(a: seq<ByteString>, b: seq<ByteString>)
    ensures Total(a + b) == Total(a) + Total(b)
    decreases |a|
  {
    if a == [] {
      assert a + b == b;
    } else {
      assert (a + b)[1..] == a[1..] + b;
      TotalJoin(a[1..], b);
    }
  }

  lemma Length(t: Inputs)
    requires WellFormed(t)
    ensures |Join(Parts(t))| == 306 + match t.kem case None => 0 case Some(ct) => |ct| + 1
  {
    var kem := match t.kem case None => [] case Some(ct) => [ct];
    JoinLength(Parts(t));
    TotalOfEqual(t.fields, 32);
    TotalJoin([Encode(t.protocol)] + t.fields, kem);
    TotalJoin([Encode(t.protocol)], t.fields);
    assert Total([Encode(t.protocol)]) == 9 + Total([Encode(t.protocol)][1..]);
    assert t.kem.Some? ==> kem[1..] == [] && Total(kem) == |kem[0]| + Total([]);
  }

  // Equal transcripts force every field to be equal, the KEM ciphertext's presence and its
  // bytes included.
  lemma TranscriptInjective(s: Inputs, t: Inputs)
    requires WellFormed(s) && WellFormed(t) && Join(Parts(s)) == Join(Parts(t))
    ensures s == t
  {
    Length(s);
    Length(t);
    var a, b := Parts(s), Parts(t);
    assert |Encode(s.protocol)| == |Encode(t.protocol)| == 9;
    forall i | 0 <= i < |a| - 1 ensures |a[i]| == |b[i]| {
      assert i > 0 ==> a[i] == s.fields[i - 1] && b[i] == t.fields[i - 1];
    }
    JoinDetermines(a, b);
    assert s.fields == a[1..10] && t.fields == b[1..10];
    assert Encode(s.protocol)[8] == Encode(t.protocol)[8];
    assert s.kem.Some? ==> s.kem.value == a[10] && t.kem.value == b[10];
  }

  // Without the lengths it would not: the bar inside a field moves the border.
  lemma BarsAreAmbiguous()
    ensures exists a: seq<ByteString>, b: seq<ByteString> :: a != b && |a| == |b| && Join(a) == Join(b)
  {
    var a: seq<ByteString>, b: seq<ByteString> := [[BAR], []], [[], [BAR]];
    assert a[1..] == [[]] && b[1..] == [[BAR]];
    assert Join(a) == [BAR] + [BAR] + [] && Join(b) == [] + [BAR] + [BAR];
    assert |a[0]| != |b[0]|;
  }

  // ---------- the bytes in their places ----------

  lemma {:induction false} JoinAt(parts: seq<ByteString>, k: nat)
    requires k < |parts|
    ensures var at := Total(parts[..k]) + k;
            && at + |parts[k]| <= |Join(parts)| && Join(parts)[at..at + |parts[k]|] == parts[k]
            && (k + 1 < |parts| ==> at + |parts[k]| < |Join(parts)| && Join(parts)[at + |parts[k]|] == BAR)
    decreases |parts|
  {
    if k == 0 {
      assert parts[..0] == [];
    } else {
      JoinAt(parts[1..], k - 1);
      assert parts[..k][1..] == parts[1..][..k - 1] && parts[..k][0] == parts[0] && parts[1..][k - 1] == parts[k];
      Shifted(parts[0] + [BAR], Join(parts[1..]), Total(parts[1..][..k - 1]) + k - 1, |parts[k]|);
    }
  }

  lemma Shifted(head: ByteString, tail: ByteString, at: nat, n: nat)
    requires at + n <= |tail|
    ensures (head + tail)[|head| + at..|head| + at + n] == tail[at..at + n]
    ensures at + n < |tail| ==> (head + tail)[|head| + at + n] == tail[at + n]
  {
  }

  lemma Starts(t: Inputs, k: nat)
    requires WellFormed(t) && 1 <= k <= 10
    ensures Total(([Encode(t.protocol)] + t.fields)[..k]) == 9 + 32 * (k - 1)
  {
    var front := ([Encode(t.protocol)] + t.fields)[..k];
    assert front == [Encode(t.protocol)] + t.fields[..k - 1];
    TotalJoin([Encode(t.protocol)], t.fields[..k - 1]);
    TotalOfEqual(t.fields[..k - 1], 32);
    assert Total([Encode(t.protocol)]) == 9 + Total([Encode(t.protocol)][1..]);
  }

  // Nine bytes of protocol, then nine fields of 32 bytes, a bar before each, and the ciphertext last.
  lemma LayoutInNumbers(t: Inputs, k: nat)
    requires WellFormed(t) && k < 9
    ensures var bytes := Join(Parts(t));
            && |bytes| >= 306 && bytes[..9] == Encode(t.protocol) && bytes[9 + 33 * k] == '|' as int
            && bytes[10 + 33 * k..42 + 33 * k] == t.fields[k]
            && (t.kem.None? ==> |bytes| == 306)
            && (t.kem.Some? ==> bytes[306..] == ['|' as int] + t.kem.value)
  {
    var parts := Parts(t);
    Length(t);
    var front := [Encode(t.protocol)] + t.fields;
    assert parts[..1] == front[..1] && parts[..k + 1] == front[..k + 1];
    Starts(t, k + 1);
    JoinAt(parts, 0);
    assert parts[..0] == [];
    JoinAt(parts, k + 1);
    BarBefore(t, k);
    if t.kem.Some? {
      KemIsLast(t);
    }
  }

  lemma BarBefore(t: Inputs, k: nat)
    requires WellFormed(t) && k < 9
    ensures 9 + 33 * k < |Join(Parts(t))| && Join(Parts(t))[9 + 33 * k] == BAR
  {
    var parts := Parts(t);
    JoinAt(parts, k);
    if k > 0 {
      assert parts[..k] == ([Encode(t.protocol)] + t.fields)[..k];
      Starts(t, k);
    } else {
      assert parts[..0] == [];
    }
  }

  lemma KemIsLast(t: Inputs)
    requires WellFormed(t) && t.kem.Some?
    ensures |Join(Parts(t))| == 307 + |t.kem.value| && Join(Parts(t))[306..] == [BAR] + t.kem.value
  {
    var parts := Parts(t);
    Length(t);
    var front := [Encode(t.protocol)] + t.fields;
    assert parts[..10] == front[..10] && parts[..9] == front[..9];
    Starts(t, 10);
    Starts(t, 9);
    JoinAt(parts, 10);
    JoinAt(parts, 9);
    assert Join(parts)[307..] == t.kem.value && Join(parts)[306] == BAR;
  }

  lemma ProtocolBytes()
    ensures Encode(V4) == [121, 97, 107, 114, 45, 118, 48, 46, 52]
    ensures Encode(V6) == [121, 97, 107, 114, 45, 118, 48, 46, 54]
  {
  }
}
