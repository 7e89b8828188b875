/** The DNS query a guest sends (internal/hostabi/dns_wire.go:18-70): version, IP version,
    optional socket mark, optional network-namespace token, host.  Whether bytes are UTF-8 is a
    given predicate. */
module DnsWire {
  import opened Core
  import opened Wire

  const VERSION := 1

  datatype Query = Query(ipVersion: nat, mark: Option<nat>, netns: Option<seq<u8>>, host: seq<u8>)

  /** A query the format can carry. */
  predicate WellFormed(q: Query, utf8: seq<u8> -> bool) {
    && q.ipVersion in {0, 4, 6}
    && (q.mark.Some? ==> q.mark.value < 0x1_0000_0000)
    && (q.netns.Some? ==> |q.netns.value| < 0x1_0000_0000 && utf8(q.netns.value))
    && 0 < |q.host| < 0x1_0000_0000 && utf8(q.host)
  }

  function MarkField(mark: Option<nat>): seq<u8>
    requires mark.Some? ==> mark.value < 0x1_0000_0000
  {
    match mark
    case None => [0] + Be32(0)
    case Some(m) => [1] + Be32(m)
  }

  function NetnsField(netns: Option<seq<u8>>): seq<u8>
    requires netns.Some? ==> |netns.value| < 0x1_0000_0000
  {
    match netns
    case None => [0] + Be32(0)
    case Some(n) => [1] + Be32(|n|) + n
  }

  /** The one encoding of a query. */
  function Encode(q: Query): seq<u8>
    requires q.ipVersion < 0x100 && (q.mark.Some? ==> q.mark.value < 0x1_0000_0000)
    requires (q.netns.Some? ==> |q.netns.value| < 0x1_0000_0000) && |q.host| < 0x1_0000_0000
  {
    [VERSION, q.ipVersion] + MarkField(q.mark) + NetnsField(q.netns) + Be32(|q.host|) + q.host
  }

  ghost predicate Encodes(q: Query, b: seq<u8>, utf8: seq<u8> -> bool) {
    WellFormed(q, utf8) && b == Encode(q)
  }

  // ---------------------------------------------------------------- reading an encoding back

  lemma MarkLayout(q: Query, b: seq<u8>, utf8: seq<u8> -> bool)
    requires Encodes(q, b, utf8)
    ensures |b| >= 16 && b[0] == VERSION && b[1] == q.ipVersion
    ensures b[2] == (if q.mark.Some? then 1 else 0) && FromBe32(b[3..7]) == (if q.mark.Some? then q.mark.value else 0)
  {
    var m := if q.mark.Some? then q.mark.value else 0;
    assert b[3..7] == Be32(m);
    Be32Inverse(m, Be32(m));
  }

  lemma NetnsLayout(q: Query, b: seq<u8>, utf8: seq<u8> -> bool)
    requires Encodes(q, b, utf8)
    ensures var n := if q.netns.Some? then q.netns.value else [];
            && |b| == 16 + |n| + |q.host| && b[7] == (if q.netns.Some? then 1 else 0)
            && FromBe32(b[8..12]) == |n| && b[12..12 + |n|] == n
            && FromBe32(b[12 + |n|..16 + |n|]) == |q.host| && b[16 + |n|..] == q.host
  {
    var n := if q.netns.Some? then q.netns.value else [];
    var front, flag := [VERSION, q.ipVersion] + MarkField(q.mark), if q.netns.Some? then 1 else 0;
    assert front + NetnsField(q.netns) == front + ([flag] + Be32(|n|) + n);
    Parts(front, flag, Be32(|n|), n, Be32(|q.host|), q.host);
    Be32Inverse(|n|, Be32(|n|));
    Be32Inverse(|q.host|, Be32(|q.host|));
    hide Be32, FromBe32, NetnsField, MarkField;
  }

  lemma Parts(front: seq<u8>, flag: u8, length: seq<u8>, n: seq<u8>, hostLength: seq<u8>, host: seq<u8>)
    requires |front| == 7 && |length| == 4 && |hostLength| == 4
    ensures var b := front + ([flag] + length + n) + hostLength + host;
            && |b| == 16 + |n| + |host| && b[7] == flag && b[8..12] == length && b[12..12 + |n|] == n
            && b[12 + |n|..16 + |n|] == hostLength && b[16 + |n|..] == host
  {}

  /** No byte string encodes two queries. */
  lemma OneQueryPerEncoding(p: Query, q: Query, b: seq<u8>, utf8: seq<u8> -> bool)
    requires Encodes(p, b, utf8) && Encodes(q, b, utf8)
    ensures p == q
  {
    MarkLayout(p, b, utf8);
    MarkLayout(q, b, utf8);
    NetnsLayout(p, b, utf8);
    NetnsLayout(q, b, utf8);
    hide Encodes;
  }

  // The bytes that were read make up the encoding again.
  lemma Reassemble(b: seq<u8>, q: Query, n: seq<u8>, utf8: seq<u8> -> bool)
    requires WellFormed(q, utf8) && |b| == 16 + |n| + |q.host|
    requires b[0] == VERSION && b[1] == q.ipVersion
    requires b[2] == (if q.mark.Some? then 1 else 0) && FromBe32(b[3..7]) == (if q.mark.Some? then q.mark.value else 0)
    requires b[7] == (if q.netns.Some? then 1 else 0) && n == (if q.netns.Some? then q.netns.value else [])
    requires FromBe32(b[8..12]) == |n| && b[12..12 + |n|] == n
    requires FromBe32(b[12 + |n|..16 + |n|]) == |q.host| && b[16 + |n|..] == q.host
    ensures b == Encode(q)
  {
    Be32Inverse(0, b[3..7]);
    Be32Inverse(0, b[8..12]);
    Be32Inverse(0, b[12 + |n|..16 + |n|]);
    hide Be32, FromBe32;
    Pieces(b, |n|);
    assert b[..2] == [VERSION, q.ipVersion];
    assert [b[7]] + b[8..12] + b[12..12 + |n|] == NetnsField(q.netns);
  }

  lemma Pieces(b: seq<u8>, n: nat)
    requires |b| >= 16 + n
    ensures b == b[..2] + ([b[2]] + b[3..7]) + ([b[7]] + b[8..12] + b[12..12 + n]) + b[12 + n..16 + n] + b[16 + n..]
  {}

  // ---------------------------------------------------------------- the decoder

  // Where the fields of a query sit.
  ghost predicate FrontLaid(ipVersion: nat, mark: Option<nat>, b: seq<u8>) {
    && |b| >= 16 && b[0] == VERSION && b[1] == ipVersion && (ipVersion == 0 || ipVersion == 4 || ipVersion == 6)
    && b[2] == (if mark.Some? then 1 else 0)
    && FromBe32(b[3..7]) == (if mark.Some? then mark.value else 0)
  }

  ghost predicate NamesLaid(netns: Option<seq<u8>>, host: seq<u8>, b: seq<u8>, utf8: seq<u8> -> bool) {
    var n := if netns.Some? then netns.value else [];
    && |b| == 16 + |n| + |host|
    && b[7] == (if netns.Some? then 1 else 0)
    && FromBe32(b[8..12]) == |n| && b[12..12 + |n|] == n
    && FromBe32(b[12 + |n|..16 + |n|]) == |host| && b[16 + |n|..] == host
    && (netns.Some? ==> utf8(n)) && host != [] && utf8(host)
  }

  ghost predicate Laid(q: Query, b: seq<u8>, utf8: seq<u8> -> bool) {
    FrontLaid(q.ipVersion, q.mark, b) && NamesLaid(q.netns, q.host, b, utf8)
  }

  lemma LaidIsEncoding(q: Query, b: seq<u8>, utf8: seq<u8> -> bool)
    ensures Encodes(q, b, utf8) <==> Laid(q, b, utf8)
  {
    if Encodes(q, b, utf8) {
      MarkLayout(q, b, utf8);
      NetnsLayout(q, b, utf8);
    } else if Laid(q, b, utf8) {
      Reassemble(b, q, if q.netns.Some? then q.netns.value else [], utf8);
    }
  }

  /** decodeDNSQuery succeeds on exactly the encodings of well-formed queries. */
  method DecodeDNSQuery(encoded: seq<u8>, utf8: seq<u8> -> bool) returns (query: Option<Query>)
    ensures query.Some? ==> Encodes(query.value, encoded, utf8)
    ensures query.None? ==> forall q :: !Encodes(q, encoded, utf8)
  {
    forall q ensures Encodes(q, encoded, utf8) <==> Laid(q, encoded, utf8) { LaidIsEncoding(q, encoded, utf8); }
    hide Encodes, NamesLaid, FromBe32;
    if |encoded| < 16 || encoded[0] != VERSION {
      return None;
    }
    var ipVersion := encoded[1];
    if ipVersion != 0 && ipVersion != 4 && ipVersion != 6 {
      return None;
    }
    if encoded[2] > 1 {
      return None;
    }
    var mark := None;
    if encoded[2] == 1 {
      mark := Some(FromBe32(encoded[3..7]));
    } else if FromBe32(encoded[3..7]) != 0 {
      return None;
    }
    var names := DecodeNames(encoded, utf8);
    if names.None? {
      return None;
    }
    return Some(Query(ipVersion, mark, names.value.0, names.value.1));
  }

  // The namespace and the host, which fill the rest of the query.
  method DecodeNames(encoded: seq<u8>, utf8: seq<u8> -> bool) returns (names: Option<(Option<seq<u8>>, seq<u8>)>)
    requires |encoded| >= 16
    ensures names.Some? ==> NamesLaid(names.value.0, names.value.1, encoded, utf8)
    ensures names.None? ==> forall netns, host :: !NamesLaid(netns, host, encoded, utf8)
  {
    hide FromBe32;
    if encoded[7] > 1 {
      return None;
    }
    var offset := 12;
    var netnsLength := FromBe32(encoded[8..12]);
    if netnsLength > |encoded| - offset {
      return None;
    }
    if encoded[7] == 0 && netnsLength != 0 {
      return None;
    }
    var netns := None;
    if encoded[7] == 1 {
      var netnsBytes := encoded[offset..offset + netnsLength];
      if !utf8(netnsBytes) {
        return None;
      }
      netns := Some(netnsBytes);
    }
    offset := offset + netnsLength;
    if |encoded| - offset < 4 {
      return None;
    }
    var hostLength := FromBe32(encoded[offset..offset + 4]);
    offset := offset + 4;
    if hostLength == 0 || hostLength != |encoded| - offset {
      return None;
    }
    var host := encoded[offset..];
    if !utf8(host) {
      return None;
    }
    return Some((netns, host));
  }
}
