/** The 48-byte metadata of a datagram (internal/hostabi/udp_wire.go): peer family, address,
    port, flow info and scope, then an optional local address and interface index. */
module UdpWire {
  import opened Core
  import opened Wire

  const METADATA_LEN := 48

  // net.IP: any byte slice; the nil slice is the empty one where nil means absent it is None.
  type Ip = seq<u8>

  datatype Peer = Peer(ip: Ip, port: int, zone: string)

  datatype Metadata = Metadata(peer: Peer, local: Option<Ip>, flowInfo: nat, index: nat)

  datatype Error = NilPeer | BadPeerIp | BadPort | NoInterface | IndexWithoutIp | IndexWithIpv4 | BadLocalIp
                 | BadLength | BadPeerFamily | NoncanonicalPeer | NoncanonicalLocal | BadLocalFamily

  datatype Result<+T> = Ok(value: T) | Err(error: Error)

  // What net.InterfaceByName and net.InterfaceByIndex find.
  datatype Interfaces = Interfaces(byName: map<string, nat>, byIndex: map<nat, string>)

  // ---------------------------------------------------------------- addresses

  const V4_IN_V6: seq<u8> := [0, 0, 0, 0, 0, 0, 0, 0, 0, 0, 0xff, 0xff]

  predicate Mapped(ip: Ip) {
    |ip| == 16 && ip[..12] == V4_IN_V6
  }

  // IP.To4
  function To4(ip: Ip): Option<Ip> {
    if |ip| == 4 then Some(ip)
    else if Mapped(ip) then Some(ip[12..])
    else None
  }

  // IP.To16
  function To16(ip: Ip): Option<Ip> {
    if |ip| == 4 then Some(V4_IN_V6 + ip)
    else if |ip| == 16 then Some(ip)
    else None
  }

  // ---------------------------------------------------------------- the format

  // A family byte and its address in 16 bytes.
  function Tagged(ip: Ip): seq<u8>
    requires To4(ip).Some? || To16(ip).Some?
  {
    if To4(ip).Some? then [4] + To4(ip).value + Zeros(12) else [6] + To16(ip).value
  }

  predicate Encodable(ifs: Interfaces, p: Peer, local: Option<Ip>, index: nat) {
    && (To4(p.ip).Some? || (To16(p.ip).Some? && (p.zone == "" || p.zone in ifs.byName)))
    && 0 <= p.port <= 0xffff
    && match local
       case None => index == 0
       case Some(ip) => if To4(ip).Some? then index == 0 else To16(ip).Some?
  }

  // The scope of a peer: only an IPv6 peer keeps its zone, and its index is cut to 32 bits.
  function Scope(ifs: Interfaces, p: Peer): (n: nat)
    ensures n < 0x1_0000_0000
  {
    if To4(p.ip).Some? || p.zone !in ifs.byName then 0 else ifs.byName[p.zone] % 0x1_0000_0000
  }

  function Zone(ifs: Interfaces, p: Peer): (b: seq<u8>)
    ensures |b| == 4
  {
    Be32(if p.zone == "" then 0 else Scope(ifs, p))
  }

  // The first 27 bytes.
  function PeerPrefix(ifs: Interfaces, p: Peer): (w: seq<u8>)
    requires PeerError(ifs, p) == None
    ensures |w| == 27
  {
    Tagged(p.ip) + Be16(p.port) + Zeros(4) + Zone(ifs, p)
  }

  // The first thing wrong with the peer, in the order the encoder looks.
  function PeerError(ifs: Interfaces, p: Peer): Option<Error> {
    if To4(p.ip).None? && To16(p.ip).None? then Some(BadPeerIp)
    else if To4(p.ip).None? && p.zone != "" && p.zone !in ifs.byName then Some(NoInterface)
    else if !(0 <= p.port <= 0xffff) then Some(BadPort)
    else None
  }

  /** What the encoder writes for input it accepts. */
  function Encoding(ifs: Interfaces, p: Peer, local: Option<Ip>, index: nat): seq<u8>
    requires Encodable(ifs, p, local, index) && index < 0x1_0000_0000
  {
    PeerPrefix(ifs, p) + (if local.None? then Zeros(17) else Tagged(local.value)) + Be32(index)
  }

  /** Encoding, with the first thing wrong with the input. */
  function Encode(ifs: Interfaces, peer: Option<Peer>, local: Option<Ip>, index: nat): Result<seq<u8>>
    requires index < 0x1_0000_0000
  {
    match peer
    case None => Err(NilPeer)
    case Some(p) =>
      if PeerError(ifs, p).Some? then Err(PeerError(ifs, p).value)
      else
        match local
        case None => if index != 0 then Err(IndexWithoutIp) else Ok(Encoding(ifs, p, local, index))
        case Some(ip) =>
          if To4(ip).Some? && index != 0 then Err(IndexWithIpv4)
          else if To4(ip).None? && To16(ip).None? then Err(BadLocalIp)
          else Ok(Encoding(ifs, p, local, index))
  }

  predicate AllZero(values: seq<u8>) {
    forall i | 0 <= i < |values| :: values[i] == 0
  }

  function DecodePeerIp(w: seq<u8>): Result<Ip>
    requires |w| == METADATA_LEN
  {
    if w[0] == 4 then
      if !AllZero(w[5..17]) || !AllZero(w[19..27]) then Err(NoncanonicalPeer) else Ok(V4_IN_V6 + w[1..5])
    else if w[0] == 6 then Ok(w[1..17])
    else Err(BadPeerFamily)
  }

  function DecodeLocal(w: seq<u8>): Result<Option<Ip>>
    requires |w| == METADATA_LEN
  {
    if w[27] == 0 then
      if !AllZero(w[28..48]) then Err(NoncanonicalLocal) else Ok(None)
    else if w[27] == 4 then
      if !AllZero(w[32..48]) then Err(NoncanonicalLocal) else Ok(Some(V4_IN_V6 + w[28..32]))
    else if w[27] == 6 then Ok(Some(w[28..44]))
    else Err(BadLocalFamily)
  }

  /** decodeUDPMetadata */
  function Decode(ifs: Interfaces, w: seq<u8>): Result<Metadata> {
    if |w| != METADATA_LEN then Err(BadLength)
    else
      match DecodePeerIp(w)
      case Err(e) => Err(e)
      case Ok(ip) =>
        var scope := FromBe32(w[23..27]);
        if scope != 0 && scope !in ifs.byIndex then Err(NoInterface)
        else
          var zone := if scope == 0 then "" else ifs.byIndex[scope];
          match DecodeLocal(w)
          case Err(e) => Err(e)
          case Ok(local) =>
            Ok(Metadata(Peer(ip, FromBe16(w[17..19]), zone), local, FromBe32(w[19..23]), FromBe32(w[44..48])))
  }

  // ---------------------------------------------------------------- round trips

  // Both directions lose nothing but the form of an IPv4 address and the zone of an IPv4 peer.
  function Normal(ip: Ip): Ip
    requires To16(ip).Some?
  {
    To16(ip).value
  }

  lemma TaggedRoundTrip(ip: Ip)
    requires To4(ip).Some? || To16(ip).Some?
    ensures |Tagged(ip)| == 17 && To16(ip).Some?
    ensures To4(ip).Some? ==> Tagged(ip)[0] == 4 && AllZero(Tagged(ip)[5..]) && V4_IN_V6 + Tagged(ip)[1..5] == Normal(ip)
    ensures To4(ip).None? ==> Tagged(ip)[0] == 6 && Tagged(ip)[1..] == Normal(ip)
  {
    if To4(ip).Some? {
      assert Tagged(ip)[1..5] == To4(ip).value;
      if Mapped(ip) { assert ip == ip[..12] + ip[12..]; }
    }
  }

  // The parts of an encoding sit where the decoder looks for them.
  lemma Layout(ifs: Interfaces, p: Peer, local: Option<Ip>, index: nat)
    requires Encodable(ifs, p, local, index) && index < 0x1_0000_0000
    ensures var w := Encoding(ifs, p, local, index);
            && |w| == METADATA_LEN && w[..17] == Tagged(p.ip) && w[17..19] == Be16(p.port) && w[19..23] == Zeros(4)
            && w[23..27] == Zone(ifs, p)
            && w[27..44] == (if local.None? then Zeros(17) else Tagged(local.value)) && w[44..48] == Be32(index)
  {
    TaggedRoundTrip(p.ip);
    if local.Some? { TaggedRoundTrip(local.value); }
  }

  // The interface table finds the zone of an IPv6 peer again under the index it was written as.
  predicate ZoneReturns(ifs: Interfaces, p: Peer) {
    To4(p.ip).Some? || p.zone == ""
    || (Scope(ifs, p) != 0 && Scope(ifs, p) in ifs.byIndex && ifs.byIndex[Scope(ifs, p)] == p.zone)
  }

  /** Whatever the encoder accepts, the decoder gives back, if and only if the interface table
      finds the peer's zone again. */
  lemma DecodeInvertsEncode(ifs: Interfaces, p: Peer, local: Option<Ip>, index: nat, w: seq<u8>)
    requires index < 0x1_0000_0000
    requires Encode(ifs, Some(p), local, index) == Ok(w)
    ensures To16(p.ip).Some? && (local.Some? ==> To16(local.value).Some?)
    ensures Decode(ifs, w)
            == Ok(Metadata(Peer(Normal(p.ip), p.port, if To4(p.ip).Some? then "" else p.zone),
                           if local.None? then None else Some(Normal(local.value)), 0, index))
            <==> ZoneReturns(ifs, p)
  {
    hide Encoding, Tagged, Be16, Be32, FromBe16, FromBe32, DecodePeerIp, DecodeLocal;
    Layout(ifs, p, local, index);
    PeerPart(ifs, p, local, index);
    LocalPart(ifs, p, local, index);
    Be16Inverse(p.port, Be16(p.port));
    Be32Inverse(index, Be32(index));
    Be32Inverse(0, Be32(0));
    ZeroTail();
    Be32Inverse(Scope(ifs, p), Be32(0));
    Be32Inverse(Scope(ifs, p), Be32(Scope(ifs, p)));
  }

  lemma PeerPart(ifs: Interfaces, p: Peer, local: Option<Ip>, index: nat)
    requires Encodable(ifs, p, local, index) && index < 0x1_0000_0000
    ensures |Encoding(ifs, p, local, index)| == METADATA_LEN && To16(p.ip).Some?
    ensures DecodePeerIp(Encoding(ifs, p, local, index)) == Ok(Normal(p.ip))
  {
    var w := Encoding(ifs, p, local, index);
    Layout(ifs, p, local, index);
    TaggedRoundTrip(p.ip);
    FrontSlices(w);
    ZeroTail();
    hide Encoding, Tagged, Normal;
  }

  lemma FrontSlices(w: seq<u8>)
    requires |w| == METADATA_LEN
    ensures var part := w[..17];
            && w[0] == part[0] && w[1..17] == part[1..] && w[1..5] == part[1..5] && w[5..17] == part[5..]
            && w[19..27] == w[19..23] + w[23..27]
  {}

  lemma Slices(w: seq<u8>)
    requires |w| == METADATA_LEN
    ensures var part, tail := w[27..44], w[44..48];
            && w[27] == part[0] && w[28..44] == part[1..] && w[28..32] == part[1..5] && w[32..44] == part[5..]
            && w[28..48] == part[1..] + tail && w[32..48] == part[5..] + tail
  {
    var part, tail := w[27..44], w[44..48];
    assert w[28..44] == part[1..] && w[28..32] == part[1..5] && w[32..44] == part[5..];
    assert w[28..48] == part[1..] + tail && w[32..48] == part[5..] + tail;
  }

  lemma LocalPart(ifs: Interfaces, p: Peer, local: Option<Ip>, index: nat)
    requires Encodable(ifs, p, local, index) && index < 0x1_0000_0000
    ensures |Encoding(ifs, p, local, index)| == METADATA_LEN && (local.Some? ==> To16(local.value).Some?)
    ensures DecodeLocal(Encoding(ifs, p, local, index)) == Ok(if local.None? then None else Some(Normal(local.value)))
  {
    var w := Encoding(ifs, p, local, index);
    Layout(ifs, p, local, index);
    Slices(w);
    hide Encoding;
    assert Be32(0) == Zeros(4);
    if local.Some? { TaggedRoundTrip(local.value); }
  }

  // Accepted bytes that the encoder would not write: flow info, or an IPv4 address as family 6.
  predicate Canonical(w: seq<u8>)
    requires |w| == METADATA_LEN
  {
    && AllZero(w[19..23])
    && !(w[0] == 6 && Mapped(w[1..17]))
    && !(w[27] == 6 && Mapped(w[28..44]))
  }

  // The interface table finds the index again under the name it was read as.
  predicate IndexReturns(ifs: Interfaces, scope: nat) {
    scope == 0
    || (&& scope in ifs.byIndex && ifs.byIndex[scope] != ""
        && ifs.byIndex[scope] in ifs.byName && ifs.byName[ifs.byIndex[scope]] % 0x1_0000_0000 == scope)
  }

  /** Accepted bytes are encoded back exactly when they carry no flow info and no IPv4 address
      in a field of family 6, and the interface table finds their scope again. */
  lemma EncodeInvertsDecode(ifs: Interfaces, w: seq<u8>, m: Metadata)
    requires Decode(ifs, w) == Ok(m)
    ensures |w| == METADATA_LEN && m.index < 0x1_0000_0000
    ensures Encode(ifs, Some(m.peer), m.local, m.index) == Ok(w) <==> Canonical(w) && IndexReturns(ifs, FromBe32(w[23..27]))
  {
    if Canonical(w) && IndexReturns(ifs, FromBe32(w[23..27])) {
      CanonicalEncodes(ifs, w, m);
    } else if Encode(ifs, Some(m.peer), m.local, m.index) == Ok(w) {
      EncodingsAreCanonical(ifs, m.peer, m.local, m.index);
      EncodedScope(ifs, w, m);
    }
  }

  lemma EncodedScope(ifs: Interfaces, w: seq<u8>, m: Metadata)
    requires Decode(ifs, w) == Ok(m) && Encode(ifs, Some(m.peer), m.local, m.index) == Ok(w)
    ensures IndexReturns(ifs, FromBe32(w[23..27]))
  {
    Layout(ifs, m.peer, m.local, m.index);
    hide Encoding, Tagged, Be16, Be32, FromBe16, FromBe32, DecodePeerIp, DecodeLocal, To4, To16;
    Be32Inverse(0, Be32(0));
    Be32Inverse(Scope(ifs, m.peer), Be32(Scope(ifs, m.peer)));
  }

  lemma EncodingsAreCanonical(ifs: Interfaces, p: Peer, local: Option<Ip>, index: nat)
    requires Encodable(ifs, p, local, index) && index < 0x1_0000_0000
    ensures |Encoding(ifs, p, local, index)| == METADATA_LEN && Canonical(Encoding(ifs, p, local, index))
  {
    var w := Encoding(ifs, p, local, index);
    Layout(ifs, p, local, index);
    TaggedRoundTrip(p.ip);
    assert w[0] == w[..17][0] && w[1..17] == w[..17][1..];
    assert w[27] == w[27..44][0] && w[28..44] == w[27..44][1..];
    if local.Some? { TaggedRoundTrip(local.value); }
  }

  lemma CanonicalEncodes(ifs: Interfaces, w: seq<u8>, m: Metadata)
    requires Decode(ifs, w) == Ok(m) && Canonical(w) && IndexReturns(ifs, FromBe32(w[23..27]))
    ensures Encode(ifs, Some(m.peer), m.local, m.index) == Ok(w)
  {
    ZerosAre(w[19..23]);
    Be16Inverse(m.peer.port, w[17..19]);
    Be32Inverse(0, w[23..27]);
    Be32Inverse(0, w[44..48]);
    DecodedPeer(w);
    DecodedLocal(w);
    Pieces(w);
    hide Tagged, To4, To16, FromBe16, FromBe32, Be16, Be32, AllZero, DecodePeerIp, DecodeLocal;
  }

  lemma Pieces(w: seq<u8>)
    requires |w| == METADATA_LEN
    ensures w == w[..17] + w[17..19] + w[19..23] + w[23..27] + w[27..44] + w[44..48]
  {}

  lemma ZerosAre(b: seq<u8>)
    requires AllZero(b)
    ensures b == Zeros(|b|)
  {}

  lemma DecodedPeer(w: seq<u8>)
    requires |w| == METADATA_LEN && DecodePeerIp(w).Ok? && Canonical(w)
    ensures var ip := DecodePeerIp(w).value;
            && (To4(ip).Some? || To16(ip).Some?) && Tagged(ip) == w[..17]
            && (To4(ip).Some? ==> w[0] == 4 && FromBe32(w[23..27]) == 0)
  {
    var ip := DecodePeerIp(w).value;
    assert w[..17] == [w[0]] + w[1..17];
    if w[0] == 4 {
      assert ip[..12] == V4_IN_V6 && ip[12..] == w[1..5];
      ZerosAre(w[5..17]);
      assert w[1..17] == w[1..5] + w[5..17];
      assert w[23..27] == w[19..27][4..];
    }
  }

  lemma DecodedLocal(w: seq<u8>)
    requires |w| == METADATA_LEN && DecodeLocal(w).Ok? && Canonical(w)
    ensures match DecodeLocal(w).value
            case None => w[27..44] == Zeros(17) && FromBe32(w[44..48]) == 0
            case Some(ip) =>
              && (To4(ip).Some? || To16(ip).Some?) && Tagged(ip) == w[27..44]
              && (To4(ip).Some? ==> FromBe32(w[44..48]) == 0)
  {
    assert w[27..44] == [w[27]] + w[28..44];
    if w[27] == 0 {
      ZerosAre(w[28..48]);
      assert w[28..44] == w[28..48][..16] && w[44..48] == w[28..48][16..];
    } else if w[27] == 4 {
      var ip := DecodeLocal(w).value.value;
      assert ip[..12] == V4_IN_V6 && ip[12..] == w[28..32];
      ZerosAre(w[32..48]);
      assert w[28..44] == w[28..32] + w[32..44] && w[32..44] == w[32..48][..12] && w[44..48] == w[32..48][12..];
    }
  }

  // ---------------------------------------------------------------- in place

  method Copy(w: array<u8>, at: nat, b: seq<u8>)
    requires at + |b| <= w.Length
    modifies w
    ensures w[..] == old(w[..])[..at] + b + old(w[..])[at + |b|..]
  {
    for i := 0 to |b|
      invariant forall k | 0 <= k < i :: w[at + k] == b[k]
      invariant forall k | 0 <= k < w.Length && !(at <= k < at + i) :: w[k] == old(w[k])
    {
      w[at + i] := b[i];
    }
    assert w[at..at + |b|] == b;
  }

  // allZero, over the bytes of a metadata buffer
  method IsAllZero(values: seq<u8>) returns (zero: bool)
    ensures zero == AllZero(values)
  {
    for i := 0 to |values|
      invariant AllZero(values[..i])
    {
      if values[i] != 0 {
        return false;
      }
      assert values[..i + 1] == values[..i] + [values[i]];
    }
    assert values[..|values|] == values;
    return true;
  }

  lemma Splice(before: seq<u8>, family: u8, address: seq<u8>, after: seq<u8>)
    requires |address| <= 16
    ensures var s, at := before + Zeros(17) + after, |before|;
            && |s[at := family]| == |s|
            && s[at := family][..at + 1] + address + s[at := family][at + 1 + |address|..]
               == before + ([family] + address + Zeros(16 - |address|)) + after
  {}

  lemma TaggedParts(ip: Ip)
    ensures To4(ip).Some? ==> |To4(ip).value| == 4 && Tagged(ip) == [4] + To4(ip).value + Zeros(12)
    ensures To4(ip).None? && To16(ip).Some? ==> |To16(ip).value| == 16 && Tagged(ip) == [6] + To16(ip).value + Zeros(0)
  {}

  // The family and the address of one side, in a part of the buffer that is still zero.
  method PutAddress(w: array<u8>, at: nat, ip: Ip) returns (ok: bool)
    requires at + 17 <= w.Length && w[at..at + 17] == Zeros(17)
    modifies w
    ensures ok == (To4(ip).Some? || To16(ip).Some?)
    ensures w[..] == old(w[..at]) + (if ok then Tagged(ip) else Zeros(17)) + old(w[at + 17..])
  {
    TaggedParts(ip);
    hide Zeros, Tagged;
    if To4(ip).Some? {
      PutTagged(w, at, 4, To4(ip).value);
    } else if To16(ip).Some? {
      PutTagged(w, at, 6, To16(ip).value);
    } else {
      assert w[..] == w[..at] + w[at..at + 17] + w[at + 17..];
      return false;
    }
    return true;
  }

  method PutTagged(w: array<u8>, at: nat, family: u8, address: seq<u8>)
    requires at + 17 <= w.Length && w[at..at + 17] == Zeros(17) && |address| <= 16
    modifies w
    ensures w[..] == old(w[..at]) + ([family] + address + Zeros(16 - |address|)) + old(w[at + 17..])
  {
    ghost var s, before, after := w[..], w[..at], w[at + 17..];
    assert s == before + Zeros(17) + after;
    Splice(before, family, address, after);
    hide Zeros;
    w[at] := family;
    assert w[..] == s[at := family];
    Copy(w, at + 1, address);
  }

  /** The peer's half of encodeUDPMetadata, on a zeroed buffer. */
  method PutPeer(ifs: Interfaces, w: array<u8>, p: Peer) returns (error: Option<Error>)
    requires w.Length == METADATA_LEN && w[..] == Zeros(METADATA_LEN)
    modifies w
    ensures error == PeerError(ifs, p)
    ensures error == None ==> w[..] == PeerPrefix(ifs, p) + Zeros(21)
  {
    var ok := PutAddress(w, 0, p.ip);
    if !ok {
      return Some(BadPeerIp);
    }
    TaggedRoundTrip(p.ip);
    ZeroTail();
    hide Tagged, Be16, Be32, To4, To16;
    assert w[..] == Tagged(p.ip) + Zeros(31);
    var unknown := PutZone(ifs, w, p);
    if unknown {
      return Some(NoInterface);
    }
    if p.port < 0 || p.port > 65535 {
      return Some(BadPort);
    }
    hide Zone;
    ghost var tag, zone := Tagged(p.ip), Zone(ifs, p);
    assert w[..] == tag + Zeros(6) + zone + Zeros(21);
    PortFits(tag, Be16(p.port), zone);
    Copy(w, 17, Be16(p.port));
    return None;
  }

  lemma PortFits(tag: seq<u8>, port: seq<u8>, zone: seq<u8>)
    requires |tag| == 17 && |port| == 2 && |zone| == 4
    ensures var w := tag + Zeros(6) + zone + Zeros(21);
            w[..17] + port + w[19..] == tag + port + Zeros(4) + zone + Zeros(21)
  {}

  // The zone of an IPv6 peer, behind an address that is already there.
  method PutZone(ifs: Interfaces, w: array<u8>, p: Peer) returns (unknown: bool)
    requires w.Length == METADATA_LEN && w[17..] == Zeros(31)
    modifies w
    ensures unknown == (To4(p.ip).None? && p.zone != "" && p.zone !in ifs.byName)
    ensures !unknown ==> w[..] == old(w[..17]) + Zeros(6) + Zone(ifs, p) + Zeros(21)
  {
    ZeroTail();
    hide Be32, To4;
    if To4(p.ip).Some? || p.zone == "" {
      return false;
    }
    if p.zone !in ifs.byName {
      return true;
    }
    Copy(w, 23, Be32(ifs.byName[p.zone] % 0x1_0000_0000));
    return false;
  }

  /** encodeUDPMetadata: the buffer starts as zeros and each field is written at its offset. */
  method EncodeUDPMetadata(ifs: Interfaces, peer: Option<Peer>, local: Option<Ip>, index: nat)
    returns (metadata: array<u8>, error: Option<Error>)
    requires index < 0x1_0000_0000
    ensures fresh(metadata) && metadata.Length == METADATA_LEN
    ensures Encode(ifs, peer, local, index) == if error.Some? then Err(error.value) else Ok(metadata[..])
  {
    metadata := new u8[METADATA_LEN](_ => 0);
    if peer == None {
      return metadata, Some(NilPeer);
    }
    assert metadata[..] == Zeros(METADATA_LEN);
    error := PutPeer(ifs, metadata, peer.value);
    if error.Some? {
      return;
    }
    ghost var front := PeerPrefix(ifs, peer.value);
    hide PeerPrefix, Tagged, Be32;
    if local == None {
      if index != 0 {
        return metadata, Some(IndexWithoutIp);
      }
      ZeroTail();
      assert metadata[..] == front + Zeros(17) + Be32(0);
      return metadata, None;
    }
    var ip := local.value;
    if To4(ip).Some? && index != 0 {
      return metadata, Some(IndexWithIpv4);
    }
    var ok := PutAddress(metadata, 27, ip);
    if !ok {
      return metadata, Some(BadLocalIp);
    }
    ZeroTail();
    assert metadata[..] == front + Tagged(ip) + Zeros(4);
    if To4(ip).None? {
      Copy(metadata, 44, Be32(index));
    }
    assert metadata[..] == front + Tagged(ip) + Be32(index);
    return metadata, None;
  }

  lemma ZeroTail()
    ensures Zeros(21) == Zeros(17) + Be32(0) && Zeros(4) == Be32(0)
  {}
}
