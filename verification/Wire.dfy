/** Big-endian integers and runs of zero bytes, as both wire formats use them. */
module Wire {
  import opened Core

  function Zeros(n: nat): seq<u8> {
    seq(n, _ => 0)
  }

  function Be16(n: nat): (b: seq<u8>)
    requires n < 0x1_0000
    ensures |b| == 2
  {
    [n / 0x100, n % 0x100]
  }

  function Be32(n: nat): (b: seq<u8>)
    requires n < 0x1_0000_0000
    ensures |b| == 4
  {
    Be16(n / 0x1_0000) + Be16(n % 0x1_0000)
  }

  function FromBe16(b: seq<u8>): (n: nat)
    requires |b| == 2
    ensures n < 0x1_0000
  {
    (b[0] as int) * 0x100 + b[1]
  }

  function FromBe32(b: seq<u8>): (n: nat)
    requires |b| == 4
    ensures n < 0x1_0000_0000
  {
    FromBe16(b[..2]) * 0x1_0000 + FromBe16(b[2..])
  }

  lemma Be16Inverse(n: nat, b: seq<u8>)
    requires n < 0x1_0000 && |b| == 2
    ensures FromBe16(Be16(n)) == n && Be16(FromBe16(b)) == b
  {}

  lemma Be32Inverse(n: nat, b: seq<u8>)
    requires n < 0x1_0000_0000 && |b| == 4
    ensures FromBe32(Be32(n)) == n && Be32(FromBe32(b)) == b
  {
    var w := Be32(n);
    Be16Inverse(n / 0x1_0000, b[..2]);
    Be16Inverse(n % 0x1_0000, b[2..]);
    assert w[..2] == Be16(n / 0x1_0000) && w[2..] == Be16(n % 0x1_0000);
    hide Be16, FromBe16;
    assert b == b[..2] + b[2..];
    assert FromBe32(b) / 0x1_0000 == FromBe16(b[..2]) && FromBe32(b) % 0x1_0000 == FromBe16(b[2..]);
  }
}
