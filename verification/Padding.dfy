/** Padding to size classes (yakr_core/privacy.py). */
module Padding {
  import opened Bytes
  import opened Crypto

  datatype Mode = Fast | Balanced | High

  const SIZE_4K: nat := 4096
  const SIZE_32K: nat := 32768
  const PREFIX: nat := 4

  datatype Error = ExceedsSizeClass | TooShort | BadLengthPrefix

  // Ascending, so the first that fits is the smallest.
  function SizeClasses(mode: Mode): seq<nat> {
    match mode
    case High => [SIZE_4K, SIZE_32K]
    case Balanced => [SIZE_4K]
    case Fast => []
  }

  function FirstFitting(classes: seq<nat>, needed: nat): Option<nat> {
    if classes == [] then None
    else if needed <= classes[0] then Some(classes[0])
    else FirstFitting(classes[1..], needed)
  }

  function Largest(classes: seq<nat>): nat
    requires classes != []
  {
    if |classes| == 1 then classes[0] else
    var rest := Largest(classes[1..]);
    if classes[0] > rest then classes[0] else rest
  }

  // None in fast mode; else the first class that fits, or the largest if none does.
  function SelectSizeClass(length: nat, mode: Mode): Option<nat> {
    if mode == Fast then None else
    match FirstFitting(SizeClasses(mode), length + PREFIX)
    case Some(size) => Some(size)
    case None => Some(Largest(SizeClasses(mode)))
  }

  function BigEndian(n: nat, width: nat): (s: ByteString)
    ensures |s| == width
  {
    if width == 0 then [] else BigEndian(n / 0x100, width - 1) + [n % 0x100]
  }

  function FromBigEndian(s: ByteString): nat {
    if s == [] then 0 else FromBigEndian(s[..|s| - 1]) * 0x100 + s[|s| - 1]
  }

  function Bound(width: nat): nat {
    if width == 0 then 1 else 0x100 * Bound(width - 1)
  }

  lemma {:induction false} BigEndianRoundTrip(n: nat, width: nat)
    requires n < Bound(width)
    ensures FromBigEndian(BigEndian(n, width)) == n
  {
    if width > 0 {
      BigEndianRoundTrip(n / 0x100, width - 1);
      assert BigEndian(n, width)[..width - 1] == BigEndian(n / 0x100, width - 1);
    }
  }

  function Zeros(n: nat): ByteString {
    seq(n, _ => 0)
  }

  // A plaintext too long for its length prefix fails as one too long for its class.
  function Pad(plaintext: ByteString, mode: Mode): Result<(ByteString, nat), Error> {
    match SelectSizeClass(|plaintext|, mode)
    case None => Success((plaintext, 0))
    case Some(size) =>
      if |plaintext| >= Bound(PREFIX) || PREFIX + |plaintext| > size then Failure(ExceedsSizeClass)
      else Success((BigEndian(|plaintext|, PREFIX) + plaintext + Zeros(size - PREFIX - |plaintext|),
                    size - |plaintext|))
  }

  function Unpad(padded: ByteString): Result<ByteString, Error> {
    if |padded| < PREFIX then Failure(TooShort) else
    var length := FromBigEndian(padded[..PREFIX]);
    if PREFIX + length > |padded| then Failure(BadLengthPrefix)
    else Success(padded[PREFIX..PREFIX + length])
  }

  function Decode(data: ByteString, mode: Mode): Result<ByteString, Error> {
    if mode == Fast then Success(data) else Unpad(data)
  }

  // ---------- the smallest class that fits ----------

  predicate Smallest(size: nat, needed: nat, classes: seq<nat>) {
    size in classes && needed <= size && forall c <- classes | needed <= c :: size <= c
  }

  // Padding succeeds exactly when the plaintext and its prefix fit the largest class. The
  // padded length is then the smallest class they fit, the count reported is what was added,
  // and decoding gives the plaintext back.
  lemma PadRoundTrip(plaintext: ByteString, mode: Mode)
    requires mode != Fast
    ensures Pad(plaintext, mode).Success? <==> |plaintext| + PREFIX <= Largest(SizeClasses(mode))
    ensures Pad(plaintext, mode).Success? ==>
              var (padded, added) := Pad(plaintext, mode).value;
              && Smallest(|padded|, |plaintext| + PREFIX, SizeClasses(mode))
              && added == |padded| - |plaintext|
              && Decode(padded, mode) == Success(plaintext)
  {
    SelectIs(|plaintext|, mode);
    if Pad(plaintext, mode).Success? {
      var padded := Pad(plaintext, mode).value.0;
      var size := SelectSizeClass(|plaintext|, mode).value;
      BigEndianRoundTrip(|plaintext|, PREFIX);
      assert padded[..PREFIX] == BigEndian(|plaintext|, PREFIX);
      assert padded[PREFIX..PREFIX + |plaintext|] == plaintext;
    }
  }

  lemma SelectIs(length: nat, mode: Mode)
    requires mode != Fast
    ensures var size := SelectSizeClass(length, mode);
            && size.Some?
            && (if length + PREFIX <= Largest(SizeClasses(mode))
                then Smallest(size.value, length + PREFIX, SizeClasses(mode))
                else size.value < length + PREFIX)
    ensures Largest(SizeClasses(mode)) < Bound(PREFIX)
  {
    var classes, needed := SizeClasses(mode), length + PREFIX;
    assert Bound(2) == 0x1_0000;
    assert Bound(PREFIX) == 0x100 * (0x100 * Bound(2));
    if mode == High {
      assert classes[1..] == [SIZE_32K] && [SIZE_32K][1..] == [];
      assert Largest([SIZE_32K]) == SIZE_32K && Largest(classes) == SIZE_32K;
      assert FirstFitting([SIZE_32K], needed) == if needed <= SIZE_32K then Some(SIZE_32K) else None;
    } else {
      assert classes == [SIZE_4K] && classes[1..] == [] && Largest(classes) == SIZE_4K;
      assert FirstFitting(classes, needed) == if needed <= SIZE_4K then Some(SIZE_4K) else None;
    }
  }

  // In fast mode nothing is added and nothing is read.
  lemma FastIsTransparent(plaintext: ByteString)
    ensures Pad(plaintext, Fast) == Success((plaintext, 0)) && Decode(plaintext, Fast) == Success(plaintext)
  {
  }

  // What the network sees of a padded message is its class: equal for all plaintexts of one
  // class, though the padded bytes differ whenever the plaintexts do.
  lemma PaddingHidesLength(p: ByteString, q: ByteString, mode: Mode)
    requires mode != Fast && Pad(p, mode).Success? && Pad(q, mode).Success?
    ensures |Pad(p, mode).value.0| == |Pad(q, mode).value.0|
            <==> SelectSizeClass(|p|, mode) == SelectSizeClass(|q|, mode)
    ensures Pad(p, mode).value.0 == Pad(q, mode).value.0 <==> p == q
  {
    PadRoundTrip(p, mode);
    PadRoundTrip(q, mode);
  }

  // ---------- in numbers ----------

  // What goes over the wire: in high mode 4096 bytes for at most 4092, 32768 for at most 32764, in
  // balanced mode 4096 bytes alone, and in fast mode the plaintext as it is.
  lemma ClassesInNumbers(p: ByteString)
    ensures Pad(p, High).Success? <==> |p| <= 32764
    ensures |p| <= 32764 ==> |Pad(p, High).value.0| == if |p| <= 4092 then 4096 else 32768
    ensures Pad(p, Balanced).Success? <==> |p| <= 4092
    ensures |p| <= 4092 ==> |Pad(p, Balanced).value.0| == 4096
    ensures Pad(p, Fast) == Success((p, 0))
    ensures Pad(p, High).Failure? ==> Pad(p, High).error == ExceedsSizeClass
    ensures Pad(p, Balanced).Failure? ==> Pad(p, Balanced).error == ExceedsSizeClass
  {
    SelectIs(|p|, High);
    SelectIs(|p|, Balanced);
    assert SizeClasses(High)[1..] == [32768] && Largest([32768]) == 32768 && Largest(SizeClasses(High)) == 32768;
    PadRoundTrip(p, High);
    PadRoundTrip(p, Balanced);
  }

  lemma FourBytes(s: ByteString)
    requires |s| == 4
    ensures FromBigEndian(s) == s[0] as int * 0x100_0000 + s[1] as int * 0x1_0000 + s[2] as int * 0x100 + s[3]
  {
    assert s[..3][..2] == s[..2] && s[..2][..1] == s[..1] && s[..1][..0] == [];
    assert FromBigEndian(s[..1]) == s[0];
    assert FromBigEndian(s[..2]) == s[0] as int * 0x100 + s[1];
    assert FromBigEndian(s[..3]) == (s[0] as int * 0x100 + s[1]) * 0x100 + s[2];
  }

  // The length in four bytes, the highest first, then the plaintext, then zeros.
  lemma PaddedLayout(p: ByteString, mode: Mode)
    requires mode != Fast && Pad(p, mode).Success?
    ensures var padded := Pad(p, mode).value.0;
            && |padded| >= 4 + |p|
            && padded[0] as int * 0x100_0000 + padded[1] as int * 0x1_0000 + padded[2] as int * 0x100 + padded[3] == |p|
            && padded[4..4 + |p|] == p && forall i | 4 + |p| <= i < |padded| :: padded[i] == 0
  {
    SelectIs(|p|, mode);
    BigEndianRoundTrip(|p|, PREFIX);
    FourBytes(BigEndian(|p|, PREFIX));
    assert Pad(p, mode).value.0[..4] == BigEndian(|p|, PREFIX);
  }

  // Any bytes are read back exactly if their first four give a length that is there.
  lemma UnpadIsExact(data: ByteString)
    ensures |data| < 4 ==> Unpad(data) == Failure(TooShort)
    ensures |data| >= 4 ==>
              var n := data[0] as int * 0x100_0000 + data[1] as int * 0x1_0000 + data[2] as int * 0x100 + data[3];
              Unpad(data) == if 4 + n <= |data| then Success(data[4..4 + n]) else Failure(BadLengthPrefix)
  {
    if |data| >= 4 {
      FourBytes(data[..4]);
    }
  }
}
