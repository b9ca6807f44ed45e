/**
 * The nested message formats of the authenticated channel (auth/fmt.go): structs of slices
 * that share one byte buffer, the assembly of a request (auth/request.go) and its decoding
 * (auth/receivedRequest.go).
 */
module AuthFormat {
  import opened Bytes

  const VERSION: Byte := 1
  const OWNERSHIP_SIZE := 32
  /** An exported SIDH public key over Fp503, without its variant byte. */
  const SIDH_SIZE := 378
  const ID_LEN := 33

  /** A result of code that can also stop the program. */
  datatype Outcome<T> = Done(value: T) | Failed(reason: Reason) | Panicked
  datatype Reason = TooSmall | NotInGroup | MacMismatch | NoRoomForID | PayloadTooLong

  /** A window on a buffer. Windows on one buffer alias each other. */
  datatype Slice = Slice(buf: array<Byte>, lo: nat, hi: nat) {
    ghost predicate Valid() {
      lo <= hi <= buf.Length
    }

    function Len(): (n: nat)
      requires lo <= hi
    {
      hi - lo
    }

    function Bytes(): (s: seq<Byte>)
      requires Valid()
      reads buf
      ensures |s| == hi - lo
    {
      buf[lo..hi]
    }
  }

  /** The contents of a buffer after bytes were copied into it at an offset. */
  function Overwritten(s: seq<Byte>, at: nat, src: seq<Byte>): (r: seq<Byte>)
    requires at + |src| <= |s|
    ensures |r| == |s|
  {
    s[..at] + src + s[at + |src|..]
  }

  /** copy: as many bytes as both sides hold. */
  method CopyInto(dst: Slice, src: seq<Byte>)
    requires dst.Valid()
    modifies dst.buf
    ensures var n := if |src| < dst.Len() then |src| else dst.Len();
            dst.buf[..] == Overwritten(old(dst.buf[..]), dst.lo, src[..n])
  {
    var n := if |src| < dst.Len() then |src| else dst.Len();
    var i := 0;
    while i < n
      invariant i <= n
      invariant dst.buf[..] == Overwritten(old(dst.buf[..]), dst.lo, src[..i])
    {
      ghost var before := dst.buf[..];
      dst.buf[dst.lo + i] := src[i];
      assert dst.buf[..] == before[dst.lo + i := src[i]];
      OverwriteOneMore(old(dst.buf[..]), dst.lo, src, i);
      i := i + 1;
    }
  }

  lemma OverwriteOneMore(s: seq<Byte>, at: nat, src: seq<Byte>, i: nat)
    requires i < |src| && at + i < |s|
    ensures Overwritten(s, at, src[..i])[at + i := src[i]] == Overwritten(s, at, src[..i + 1])
  {
  }

  /** A write changes its own region and no other. */
  lemma WriteStaysInRegion(s: seq<Byte>, at: nat, src: seq<Byte>, lo: nat, hi: nat)
    requires at + |src| <= |s| && lo <= hi <= |s|
    ensures hi <= at || at + |src| <= lo ==> Overwritten(s, at, src)[lo..hi] == s[lo..hi]
    ensures Overwritten(s, at, src)[at..at + |src|] == src
  {
  }

  // ----- Base format -----

  datatype BaseFormat = BaseFormat(data: array<Byte>, pubkey: Slice, ecrPayload: Slice, version: Slice) {
    /** The three regions tile the buffer. */
    ghost predicate Laid(pubkeySize: nat) {
      && pubkeySize < data.Length
      && pubkey == Slice(data, 0, pubkeySize)
      && ecrPayload == Slice(data, pubkeySize, data.Length - 1)
      && version == Slice(data, data.Length - 1, data.Length)
    }

    method SetPubKey(key: nat)
      requires exists n :: Laid(n)
      modifies data
      ensures data[..] == LeftPadded(key, |pubkey.Bytes()|) + old(ecrPayload.Bytes()) + old(version.Bytes())
    {
      var padded := LeftPadded(key, pubkey.Len());
      CopyInto(pubkey, padded);
      assert padded[..|padded|] == padded;
      WriteStaysInRegion(old(data[..]), 0, padded, ecrPayload.lo, ecrPayload.hi);
      WriteStaysInRegion(old(data[..]), 0, padded, version.lo, version.hi);
    }

    function GetPubKey(): nat
      requires exists n :: Laid(n)
      reads data
    {
      BigEndian(pubkey.Bytes())
    }

    method SetEcrPayload(ecr: seq<Byte>) returns (done: Outcome<()>)
      requires exists n :: Laid(n)
      modifies data
      ensures done.Done? <==> |ecr| == ecrPayload.Len()
      ensures !done.Done? ==> done.Panicked? && data[..] == old(data[..])
      ensures done.Done? ==> data[..] == old(pubkey.Bytes()) + ecr + old(version.Bytes())
    {
      if |ecr| != ecrPayload.Len() {
        return Panicked;
      }
      CopyInto(ecrPayload, ecr);
      assert ecr[..|ecr|] == ecr;
      WriteStaysInRegion(old(data[..]), ecrPayload.lo, ecr, pubkey.lo, pubkey.hi);
      WriteStaysInRegion(old(data[..]), ecrPayload.lo, ecr, version.lo, version.hi);
      done := Done(());
    }
  }

  /** buildBaseFormat, which slices out of bounds when the buffer holds no version byte. */
  method BuildBaseFormat(data: array<Byte>, pubkeySize: nat) returns (f: Outcome<BaseFormat>)
    ensures !f.Failed?
    ensures f.Done? <==> pubkeySize < data.Length
    ensures f.Done? ==> f.value.data == data && f.value.Laid(pubkeySize)
  {
    if pubkeySize > data.Length - 1 {
      return Panicked;
    }
    f := Done(BaseFormat(data, Slice(data, 0, pubkeySize), Slice(data, pubkeySize, data.Length - 1),
                         Slice(data, data.Length - 1, data.Length)));
  }

  method NewBaseFormat(payloadSize: nat, pubkeySize: nat) returns (f: Outcome<BaseFormat>)
    ensures !f.Failed?
    ensures f.Done? <==> payloadSize >= pubkeySize + SIDH_SIZE + 2
    ensures f.Done? ==> fresh(f.value.data) && f.value.Laid(pubkeySize) && f.value.data.Length == payloadSize
    ensures f.Done? ==> f.value.version.Bytes() == [VERSION]
  {
    if payloadSize < pubkeySize + SIDH_SIZE + 1 + 1 {
      return Panicked;
    }
    var data := new Byte[payloadSize](i => 0);
    f := BuildBaseFormat(data, pubkeySize);
    data[f.value.version.lo] := VERSION;
  }

  /** What unmarshalBaseFormat and handleBaseFormat make of received contents: a wrong
      version is reported but not acted on. */
  datatype BaseParse = BaseParse(format: BaseFormat, versionKnown: bool)

  method UnmarshalBaseFormat(b: array<Byte>, pubkeySize: nat) returns (f: Outcome<BaseParse>)
    ensures f == Failed(TooSmall) <==> b.Length < pubkeySize
    ensures f == Panicked <==> b.Length == pubkeySize
    ensures f.Done? <==> b.Length > pubkeySize
    ensures f.Done? ==> f.value.format.data == b && f.value.format.Laid(pubkeySize)
    ensures f.Done? ==> f.value.versionKnown == (b[b.Length - 1] == VERSION)
  {
    if b.Length < pubkeySize {
      return Failed(TooSmall);
    }
    var built := BuildBaseFormat(b, pubkeySize);
    if built.Panicked? {
      return Panicked;
    }
    f := Done(BaseParse(built.value, b[built.value.version.lo] == VERSION));
  }

  // ----- Encrypted format -----

  /** A SIDH public key as it travels: its variant and its exported bytes. */
  datatype SidhKey = SidhKey(variant: Byte, bytes: seq<Byte>)

  const ECR_HEADER := OWNERSHIP_SIZE + SIDH_SIZE + 1

  datatype EcrFormat = EcrFormat(data: array<Byte>, ownership: Slice, sidhPubkey: Slice, payload: Slice) {
    ghost predicate Laid() {
      && ECR_HEADER <= data.Length
      && ownership == Slice(data, 0, OWNERSHIP_SIZE)
      && sidhPubkey == Slice(data, OWNERSHIP_SIZE, ECR_HEADER)
      && payload == Slice(data, ECR_HEADER, data.Length)
    }

    method SetOwnership(proof: seq<Byte>) returns (done: Outcome<()>)
      requires Laid()
      modifies data
      ensures done.Done? <==> |proof| == OWNERSHIP_SIZE
      ensures !done.Done? ==> done.Panicked? && data[..] == old(data[..])
      ensures done.Done? ==> data[..] == proof + old(sidhPubkey.Bytes()) + old(payload.Bytes())
    {
      if |proof| != OWNERSHIP_SIZE {
        return Panicked;
      }
      CopyInto(ownership, proof);
      assert proof[..|proof|] == proof;
      WriteStaysInRegion(old(data[..]), 0, proof, sidhPubkey.lo, sidhPubkey.hi);
      WriteStaysInRegion(old(data[..]), 0, proof, payload.lo, payload.hi);
      done := Done(());
    }

    method SetSidhPubKey(key: SidhKey)
      requires Laid() && |key.bytes| == SIDH_SIZE
      modifies data
      ensures data[..] == old(ownership.Bytes()) + [key.variant] + key.bytes + old(payload.Bytes())
    {
      data[sidhPubkey.lo] := key.variant;
      var rest := Slice(data, sidhPubkey.lo + 1, sidhPubkey.hi);
      CopyInto(rest, key.bytes);
      assert key.bytes[..|key.bytes|] == key.bytes;
    }

    function GetSidhPubKey(): SidhKey
      requires Laid()
      reads data
    {
      SidhKey(data[sidhPubkey.lo], data[sidhPubkey.lo + 1..sidhPubkey.hi])
    }
  }

  method BuildEcrFormat(data: array<Byte>) returns (f: Outcome<EcrFormat>)
    ensures !f.Failed?
    ensures f.Done? <==> ECR_HEADER <= data.Length
    ensures f.Done? ==> f.value.data == data && f.value.Laid()
  {
    if data.Length < OWNERSHIP_SIZE + SIDH_SIZE + 1 {
      return Panicked;
    }
    f := Done(EcrFormat(data, Slice(data, 0, OWNERSHIP_SIZE), Slice(data, OWNERSHIP_SIZE, ECR_HEADER),
                        Slice(data, ECR_HEADER, data.Length)));
  }

  method NewEcrFormat(size: nat) returns (f: Outcome<EcrFormat>)
    ensures !f.Failed?
    ensures f.Done? <==> ECR_HEADER <= size
    ensures f.Done? ==> fresh(f.value.data) && f.value.Laid() && f.value.data[..] == Zeros(size)
  {
    if size < OWNERSHIP_SIZE + SIDH_SIZE + 1 {
      return Panicked;
    }
    var data := new Byte[size](i => 0);
    f := BuildEcrFormat(data);
  }

  method UnmarshalEcrFormat(b: array<Byte>) returns (f: Outcome<EcrFormat>)
    ensures f == Failed(TooSmall) <==> b.Length < OWNERSHIP_SIZE
    ensures f == Panicked <==> OWNERSHIP_SIZE <= b.Length < ECR_HEADER
    ensures f.Done? <==> ECR_HEADER <= b.Length
    ensures f.Done? ==> f.value.data == b && f.value.Laid()
  {
    if b.Length < OWNERSHIP_SIZE {
      return Failed(TooSmall);
    }
    f := BuildEcrFormat(b);
  }

  // ----- Request format -----

  datatype RequestFormat = RequestFormat(ecr: EcrFormat, id: Slice, msgPayload: Slice) {
    ghost predicate Laid() {
      && ecr.Laid()
      && ECR_HEADER + ID_LEN <= ecr.data.Length
      && id == Slice(ecr.data, ECR_HEADER, ECR_HEADER + ID_LEN)
      && msgPayload == Slice(ecr.data, ECR_HEADER + ID_LEN, ecr.data.Length)
    }

    method SetID(sender: seq<Byte>)
      requires Laid() && |sender| == ID_LEN
      modifies ecr.data
      ensures ecr.data[..] == old(ecr.data[..ECR_HEADER]) + sender + old(msgPayload.Bytes())
    {
      CopyInto(id, sender);
      assert sender[..|sender|] == sender;
    }

    method SetMsgPayload(b: seq<Byte>) returns (done: Outcome<()>)
      requires Laid()
      modifies ecr.data
      ensures done.Done? <==> |b| <= msgPayload.Len()
      ensures !done.Done? ==> done.Panicked? && ecr.data[..] == old(ecr.data[..])
      ensures done.Done? ==> ecr.data[..] == old(ecr.data[..msgPayload.lo]) + b + old(ecr.data[msgPayload.lo + |b|..])
    {
      if |b| > msgPayload.Len() {
        return Panicked;
      }
      CopyInto(msgPayload, b);
      assert b[..|b|] == b;
      done := Done(());
    }
  }

  method NewRequestFormat(ecr: EcrFormat) returns (f: Outcome<RequestFormat>)
    requires ecr.Laid()
    ensures !f.Panicked? && (f.Failed? ==> f == Failed(NoRoomForID))
    ensures f.Done? <==> ECR_HEADER + ID_LEN <= ecr.data.Length
    ensures f.Done? ==> f.value.ecr == ecr && f.value.Laid()
  {
    if ecr.payload.Len() < ID_LEN {
      return Failed(NoRoomForID);
    }
    var p := ecr.payload;
    f := Done(RequestFormat(ecr, Slice(p.buf, p.lo, p.lo + ID_LEN), Slice(p.buf, p.lo + ID_LEN, p.hi)));
  }
}
