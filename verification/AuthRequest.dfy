/**
 * Assembling an authenticated-channel request (auth/request.go) and taking it apart again
 * (auth/receivedRequest.go).
 */
module AuthRequest {
  import opened Wrappers
  import opened Bytes
  import opened AuthFormat

  /** Encrypted bytes with their authentication code. */
  datatype Sealed = Sealed(bytes: seq<Byte>, mac: seq<Byte>)

  /** The cipher keyed by what one private and one public Diffie-Hellman key share. */
  datatype Cipher = Cipher(seal: seq<Byte> -> Sealed, open: Sealed -> Option<seq<Byte>>) {
    ghost predicate LengthPreserving() {
      forall plain :: |seal(plain).bytes| == |plain|
    }

    ghost predicate Invertible() {
      forall plain :: open(seal(plain)) == Some(plain)
    }
  }

  /** The encrypted part of a request. */
  datatype Inner = Inner(sender: seq<Byte>, sidh: SidhKey, payload: seq<Byte>, ownership: seq<Byte>) {
    ghost predicate Sized() {
      |sender| == ID_LEN && |sidh.bytes| == SIDH_SIZE && |ownership| == OWNERSHIP_SIZE
    }

    /** The same request with its payload zero padded to fill a plaintext of a given size. */
    function Padded(size: nat): Inner
      requires ECR_HEADER + ID_LEN + |payload| <= size
    {
      this.(payload := payload + Zeros(size - ECR_HEADER - ID_LEN - |payload|))
    }

    /** The plaintext bytes, for a payload that fills them. */
    function Plain(): seq<Byte> {
      ownership + [sidh.variant] + sidh.bytes + sender + payload
    }
  }

  datatype Request = Request(dhKey: nat, inner: Inner)

  /** The bytes around the payload that a request needs besides its public key. */
  const OVERHEAD := ECR_HEADER + ID_LEN + 1

  /** The contents that travel, for a request that fits. */
  function Contents(r: Request, cMixSize: nat, pubkeySize: nat, cipher: Cipher): seq<Byte>
    requires pubkeySize + OVERHEAD + |r.inner.payload| <= cMixSize
  {
    var plain := r.inner.Padded(cMixSize - pubkeySize - 1).Plain();
    LeftPadded(r.dhKey, pubkeySize) + cipher.seal(plain).bytes + [VERSION]
  }

  /** The plaintext buffer after the sender and the payload are in. */
  function FirstHalf(inner: Inner, size: nat): (s: seq<Byte>)
    requires inner.Sized() && ECR_HEADER + ID_LEN + |inner.payload| <= size
    ensures |s| == size
  {
    Zeros(ECR_HEADER) + inner.sender + inner.Padded(size).payload
  }

  lemma SecondHalf(inner: Inner, size: nat)
    requires inner.Sized() && ECR_HEADER + ID_LEN + |inner.payload| <= size
    ensures var c := inner.ownership + FirstHalf(inner, size)[OWNERSHIP_SIZE..];
            && |c| == size
            && c[..OWNERSHIP_SIZE] + [inner.sidh.variant] + inner.sidh.bytes + c[ECR_HEADER..]
               == inner.Padded(size).Plain()
  {
    var c := inner.ownership + FirstHalf(inner, size)[OWNERSHIP_SIZE..];
    assert c[..OWNERSHIP_SIZE] == inner.ownership;
    assert c[ECR_HEADER..] == FirstHalf(inner, size)[ECR_HEADER..] == inner.sender + inner.Padded(size).payload;
  }

  method FillSender(f: RequestFormat, inner: Inner)
    requires f.Laid() && inner.Sized() && |inner.payload| <= f.msgPayload.Len()
    requires f.ecr.data[..] == Zeros(f.ecr.data.Length)
    modifies f.ecr.data
    ensures f.ecr.data[..] == FirstHalf(inner, f.ecr.data.Length)
  {
    ghost var size, m := f.ecr.data.Length, ECR_HEADER + ID_LEN;
    assert f.ecr.data[..ECR_HEADER] == f.ecr.data[..][..ECR_HEADER] == Zeros(ECR_HEADER);
    assert f.msgPayload.Bytes() == f.ecr.data[..][m..] == Zeros(size - m);
    f.SetID(inner.sender);
    ghost var a := f.ecr.data[..];
    assert a == Zeros(ECR_HEADER) + inner.sender + Zeros(size - m);
    assert f.ecr.data[..m] == a[..m] == Zeros(ECR_HEADER) + inner.sender;
    assert f.ecr.data[m + |inner.payload|..] == a[m + |inner.payload|..] == Zeros(size - m - |inner.payload|);
    var _ := f.SetMsgPayload(inner.payload);
  }

  /** The encrypted part, written through the nested formats. */
  method FillRequest(f: RequestFormat, inner: Inner)
    requires f.Laid() && inner.Sized() && |inner.payload| <= f.msgPayload.Len()
    requires f.ecr.data[..] == Zeros(f.ecr.data.Length)
    modifies f.ecr.data
    ensures f.ecr.data[..] == inner.Padded(f.ecr.data.Length).Plain()
  {
    FillSender(f, inner);
    ghost var size, a := f.ecr.data.Length, f.ecr.data[..];
    SecondHalf(inner, size);
    assert f.ecr.sidhPubkey.Bytes() + f.ecr.payload.Bytes() == a[OWNERSHIP_SIZE..];
    var _ := f.ecr.SetOwnership(inner.ownership);
    ghost var c := f.ecr.data[..];
    assert c == inner.ownership + a[OWNERSHIP_SIZE..];
    assert f.ecr.ownership.Bytes() == c[..OWNERSHIP_SIZE] && f.ecr.payload.Bytes() == c[ECR_HEADER..];
    f.ecr.SetSidhPubKey(inner.sidh);
  }

  /** The sealed bytes and the key, written into the outer format. */
  method FillBase(f: BaseFormat, key: nat, ecr: seq<Byte>, ghost pubkeySize: nat)
    requires f.Laid(pubkeySize) && |ecr| == f.ecrPayload.Len() && f.version.Bytes() == [VERSION]
    modifies f.data
    ensures f.data[..] == LeftPadded(key, pubkeySize) + ecr + [VERSION]
  {
    var _ := f.SetEcrPayload(ecr);
    assert f.ecrPayload.Bytes() == ecr && f.version.Bytes() == [VERSION];
    f.SetPubKey(key);
  }

  /** createRequestAuth. */
  method CreateRequestAuth(r: Request, cMixSize: nat, pubkeySize: nat, cipher: Cipher)
    returns (out: Outcome<BaseFormat>, mac: seq<Byte>)
    requires r.inner.Sized() && cipher.LengthPreserving()
    ensures out == Panicked <==> cMixSize < pubkeySize + ECR_HEADER + 1
    ensures out == Failed(NoRoomForID) <==> pubkeySize + ECR_HEADER + 1 <= cMixSize < pubkeySize + OVERHEAD
    ensures out == Failed(PayloadTooLong)
       <==> pubkeySize + OVERHEAD <= cMixSize < pubkeySize + OVERHEAD + |r.inner.payload|
    ensures out.Done? <==> pubkeySize + OVERHEAD + |r.inner.payload| <= cMixSize
    ensures out.Done? ==> out.value.data[..] == Contents(r, cMixSize, pubkeySize, cipher)
    ensures out.Done? ==> mac == cipher.seal(r.inner.Padded(cMixSize - pubkeySize - 1).Plain()).mac
  {
    mac := [];
    var base := NewBaseFormat(cMixSize, pubkeySize);
    if base.Panicked? {
      return Panicked, mac;
    }
    var baseFmt := base.value;
    var size := baseFmt.ecrPayload.Len();
    var ecr := NewEcrFormat(size);
    if ecr.Panicked? {
      return Panicked, mac;
    }
    var ecrFmt := ecr.value;
    var request := NewRequestFormat(ecrFmt);
    if request.Failed? {
      return Failed(NoRoomForID), mac;
    }
    var requestFmt := request.value;
    if |r.inner.payload| > requestFmt.msgPayload.Len() {
      return Failed(PayloadTooLong), mac;
    }
    FillRequest(requestFmt, r.inner);
    var sealed := cipher.seal(ecrFmt.data[..]);
    mac := sealed.mac;
    FillBase(baseFmt, r.dhKey, sealed.bytes, pubkeySize);
    out := Done(baseFmt);
  }

  // ----- Decoding -----

  /** What the plaintext of a request says, whatever its length. */
  function DecodePlain(plain: seq<Byte>): Outcome<Inner> {
    if |plain| < OWNERSHIP_SIZE then Failed(TooSmall)
    else if |plain| < ECR_HEADER then Panicked
    else if |plain| < ECR_HEADER + ID_LEN then Failed(NoRoomForID)
    else Done(Inner(plain[ECR_HEADER..ECR_HEADER + ID_LEN],
                    SidhKey(plain[OWNERSHIP_SIZE], plain[OWNERSHIP_SIZE + 1..ECR_HEADER]),
                    plain[ECR_HEADER + ID_LEN..],
                    plain[..OWNERSHIP_SIZE]))
  }

  /** What received contents say. A key outside the group is an error only when the version
      is unknown too; otherwise the caller goes on with a nil key. */
  function Decode(contents: seq<Byte>, mac: seq<Byte>, pubkeySize: nat, inside: seq<Byte> -> bool, cipher: Cipher)
    : Outcome<Request>
  {
    if |contents| < pubkeySize then Failed(TooSmall)
    else if |contents| == pubkeySize then Panicked
    else
      var pub, ecr, version := contents[..pubkeySize], contents[pubkeySize..|contents| - 1], contents[|contents| - 1];
      if !inside(pub) then
        if version == VERSION then Panicked else Failed(NotInGroup)
      else
        match cipher.open(Sealed(ecr, mac))
        case None => Failed(MacMismatch)
        case Some(plain) =>
          match DecodePlain(plain)
          case Done(inner) => Done(Request(BigEndian(pub), inner))
          case Failed(e) => Failed(e)
          case Panicked => Panicked
  }

  /** processDecryptedMessage, up to the parsing of the facts. */
  method ProcessDecryptedMessage(b: array<Byte>) returns (r: Outcome<Inner>)
    ensures r == DecodePlain(b[..])
  {
    var ecr := UnmarshalEcrFormat(b);
    match ecr {
      case Failed(e) => return Failed(e);
      case Panicked => return Panicked;
      case Done(ecrFmt) =>
        var sidh := ecrFmt.GetSidhPubKey();
        var request := NewRequestFormat(ecrFmt);
        if request.Failed? {
          return Failed(request.reason);
        }
        var f := request.value;
        assert f.id.Bytes() == b[..][ECR_HEADER..ECR_HEADER + ID_LEN];
        assert f.msgPayload.Bytes() == b[..][ECR_HEADER + ID_LEN..];
        assert sidh.bytes == b[..][OWNERSHIP_SIZE + 1..ECR_HEADER];
        assert ecrFmt.ownership.Bytes() == b[..][..OWNERSHIP_SIZE];
        r := Done(Inner(f.id.Bytes(), sidh, f.msgPayload.Bytes(), ecrFmt.ownership.Bytes()));
    }
  }

  /** The decoding steps of receivedRequestService.Process. */
  method ReceiveContents(contents: array<Byte>, mac: seq<Byte>, pubkeySize: nat, inside: seq<Byte> -> bool,
                         cipher: Cipher)
    returns (r: Outcome<Request>)
    ensures r == Decode(contents[..], mac, pubkeySize, inside, cipher)
  {
    var base := UnmarshalBaseFormat(contents, pubkeySize);
    match base {
      case Failed(e) => return Failed(e);
      case Panicked => return Panicked;
      case Done(parse) =>
        var f := parse.format;
        assert f.pubkey.Bytes() == contents[..][..pubkeySize];
        assert f.ecrPayload.Bytes() == contents[..][pubkeySize..contents.Length - 1];
        if !inside(f.pubkey.Bytes()) {
          return if parse.versionKnown then Panicked else Failed(NotInGroup);
        }
        var unsealed := cipher.open(Sealed(f.ecrPayload.Bytes(), mac));
        if unsealed.None? {
          return Failed(MacMismatch);
        }
        var plain := new Byte[|unsealed.value|](i requires 0 <= i < |unsealed.value| => unsealed.value[i]);
        assert plain[..] == unsealed.value;
        var inner := ProcessDecryptedMessage(plain);
        match inner {
          case Failed(e) => return Failed(e);
          case Panicked => return Panicked;
          case Done(i) => r := Done(Request(f.GetPubKey(), i));
        }
    }
  }

  lemma PlainRoundTrip(inner: Inner)
    requires inner.Sized()
    ensures DecodePlain(inner.Plain()) == Done(inner)
  {
    var plain := inner.Plain();
    assert plain[..OWNERSHIP_SIZE] == inner.ownership;
    assert plain[OWNERSHIP_SIZE + 1..ECR_HEADER] == inner.sidh.bytes;
    assert plain[ECR_HEADER..ECR_HEADER + ID_LEN] == inner.sender;
    assert plain[ECR_HEADER + ID_LEN..] == inner.payload;
  }

  /** A plaintext decodes to an encrypted part exactly when it is the bytes of that part, with
      sender, key and proof of their sizes; and it decodes at all exactly when it is long
      enough for them. */
  lemma PlainDecodesExactly(plain: seq<Byte>, inner: Inner)
    ensures DecodePlain(plain) == Done(inner) <==> inner.Sized() && plain == inner.Plain()
    ensures DecodePlain(plain).Done? <==> |plain| >= OWNERSHIP_SIZE + 1 + SIDH_SIZE + ID_LEN
  {
    if inner.Sized() && plain == inner.Plain() {
      PlainRoundTrip(inner);
    }
    if DecodePlain(plain) == Done(inner) {
      assert inner.Plain() == plain[..OWNERSHIP_SIZE] + [plain[OWNERSHIP_SIZE]]
                              + plain[OWNERSHIP_SIZE + 1..ECR_HEADER] + plain[ECR_HEADER..ECR_HEADER + ID_LEN]
                              + plain[ECR_HEADER + ID_LEN..] == plain;
    }
  }

  /** Received contents are read as a request exactly when they hold more than a public key,
      the key is inside the group, and the rest but for its last byte opens, with the code
      that came along, to the bytes of the request's encrypted part. */
  lemma DecodesExactly(contents: seq<Byte>, mac: seq<Byte>, pubkeySize: nat, inside: seq<Byte> -> bool,
                       cipher: Cipher, r: Request)
    ensures Decode(contents, mac, pubkeySize, inside, cipher) == Done(r)
       <==> && |contents| > pubkeySize && inside(contents[..pubkeySize])
            && r.dhKey == BigEndian(contents[..pubkeySize]) && r.inner.Sized()
            && cipher.open(Sealed(contents[pubkeySize..|contents| - 1], mac)) == Some(r.inner.Plain())
  {
    if |contents| > pubkeySize && inside(contents[..pubkeySize]) {
      var plain := cipher.open(Sealed(contents[pubkeySize..|contents| - 1], mac));
      if plain.Some? {
        PlainDecodesExactly(plain.value, r.inner);
      }
    }
  }

  /** Decoding the contents of a request returns the request, with its payload zero padded. */
  lemma RequestRoundTrip(r: Request, cMixSize: nat, pubkeySize: nat, inside: seq<Byte> -> bool, cipher: Cipher)
    requires r.inner.Sized() && cipher.LengthPreserving() && cipher.Invertible()
    requires pubkeySize + OVERHEAD + |r.inner.payload| <= cMixSize
    requires r.dhKey < Power256(pubkeySize) && inside(LeftPadded(r.dhKey, pubkeySize))
    ensures var padded := r.inner.Padded(cMixSize - pubkeySize - 1);
            Decode(Contents(r, cMixSize, pubkeySize, cipher), cipher.seal(padded.Plain()).mac, pubkeySize, inside,
                   cipher)
            == Done(r.(inner := padded))
  {
    var padded := r.inner.Padded(cMixSize - pubkeySize - 1);
    var contents, sealed := Contents(r, cMixSize, pubkeySize, cipher), cipher.seal(padded.Plain());
    var n := |contents|;
    assert |sealed.bytes| == |padded.Plain()|;
    assert contents[..pubkeySize] == LeftPadded(r.dhKey, pubkeySize);
    assert contents[pubkeySize..n - 1] == sealed.bytes;
    assert sealed == Sealed(sealed.bytes, sealed.mac);
    PaddingRoundTrip(r.dhKey, pubkeySize);
    PlainRoundTrip(padded);
  }

  /** The version byte decides nothing about a key inside the group. */
  lemma VersionIsIgnored(contents: seq<Byte>, mac: seq<Byte>, pubkeySize: nat, inside: seq<Byte> -> bool,
                         cipher: Cipher, v: Byte)
    requires |contents| > pubkeySize
    ensures var other := contents[|contents| - 1 := v];
            Decode(contents, mac, pubkeySize, inside, cipher) == Decode(other, mac, pubkeySize, inside, cipher)
            <==> inside(contents[..pubkeySize]) || (v == VERSION <==> contents[|contents| - 1] == VERSION)
  {
    var n := |contents| - 1;
    var other := contents[n := v];
    assert other[..pubkeySize] == contents[..pubkeySize];
    assert other[pubkeySize..n] == contents[pubkeySize..n];
  }
}
