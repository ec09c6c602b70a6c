/** The parameter store: the ESP32 EEPROM emulation as the firmware uses it.
    `EEPROM.begin(512)` copies a flash sector into a RAM cache, `EEPROM.put`
    copies the bytes of a C `int` into that cache, `EEPROM.get` reads them
    back, and `EEPROM.commit()` writes the cache to flash, the only part that
    survives a power cycle. A C `int` is four bytes, little-endian, two's
    complement. */
module Eeprom {

  type Byte = b: int | 0 <= b < 256

  /** Size of the emulated EEPROM, as passed to EEPROM.begin. */
  const Size: nat := 512
  /** sizeof(int) on the ESP32. */
  const IntSize: nat := 4
  /** The on-time is stored at offset 0, the delay right after it. */
  const OntimeAddr: nat := 0
  const ForsinkAddr: nat := IntSize

  const Two31: int := 0x8000_0000
  const Two32: int := 0x1_0000_0000

  predicate IsInt32(x: int) {
    -Two31 <= x < Two31
  }

  /** The value a 32-bit two's-complement int holds after being given x. */
  function Wrap32(x: int): (r: int)
    ensures IsInt32(r)
    ensures (x - r) % Two32 == 0
    ensures IsInt32(x) ==> r == x
  {
    var u := x % Two32;
    if u < Two31 then u else u - Two32
  }

  /** The four bytes of a C int holding x, least significant first. */
  function EncodeInt(x: int): (bs: seq<Byte>)
    ensures |bs| == IntSize
  {
    var u := x % Two32;
    var u1 := u / 256;
    var u2 := u1 / 256;
    [u % 256, u1 % 256, u2 % 256, u2 / 256]
  }

  /** The C int whose four bytes, least significant first, are bs. */
  function DecodeInt(bs: seq<Byte>): (x: int)
    requires |bs| == IntSize
    ensures IsInt32(x)
  {
    var u: int := bs[0] as int + 256 * (bs[1] as int + 256 * (bs[2] as int + 256 * bs[3] as int));
    if u < Two31 then u else u - Two32
  }

  /** Decoding what was encoded gives back the int the C variable held. */
  lemma DecodeEncode(x: int)
    ensures DecodeInt(EncodeInt(x)) == Wrap32(x)
  {
    var u := x % Two32;
    var u1 := u / 256;
    var u2 := u1 / 256;
    assert u == u % 256 + 256 * u1;
    assert u1 == u1 % 256 + 256 * u2;
    assert u2 == u2 % 256 + 256 * (u2 / 256);
  }

  /** Splitting a byte off the bottom of b + 256 * k. */
  lemma SplitByte(b: Byte, k: int)
    ensures (b + 256 * k) % 256 == b
    ensures (b + 256 * k) / 256 == k
  {
  }

  /** Every four-byte pattern is the encoding of the int it decodes to. */
  lemma {:induction false} EncodeDecode(bs: seq<Byte>)
    requires |bs| == IntSize
    ensures EncodeInt(DecodeInt(bs)) == bs
  {
    var hi: int := bs[2] as int + 256 * bs[3] as int;
    var mid: int := bs[1] as int + 256 * hi;
    var u: int := bs[0] as int + 256 * mid;
    assert DecodeInt(bs) % Two32 == u;
    SplitByte(bs[0], mid);
    SplitByte(bs[1], hi);
    SplitByte(bs[2], bs[3]);
  }

  /** The buffer after EEPROM.put(addr, x): four bytes replaced. */
  function PutInt(buf: seq<Byte>, addr: nat, x: int): (r: seq<Byte>)
    requires addr + IntSize <= |buf|
    ensures |r| == |buf|
    ensures r[addr..addr + IntSize] == EncodeInt(x)
    ensures forall i :: 0 <= i < |buf| && !(addr <= i < addr + IntSize) ==> r[i] == buf[i]
  {
    buf[..addr] + EncodeInt(x) + buf[addr + IntSize..]
  }

  /** The int EEPROM.get(addr, ...) reads from the buffer. */
  function GetInt(buf: seq<Byte>, addr: nat): int
    requires addr + IntSize <= |buf|
  {
    DecodeInt(buf[addr..addr + IntSize])
  }

  /** Reading back where an int was just put gives that int, as a C int. */
  lemma GetPutSame(buf: seq<Byte>, addr: nat, x: int)
    requires addr + IntSize <= |buf|
    ensures GetInt(PutInt(buf, addr, x), addr) == Wrap32(x)
  {
    DecodeEncode(x);
  }

  /** A put leaves every int slot it does not overlap readable as before. */
  lemma GetPutOther(buf: seq<Byte>, addr: nat, other: nat, x: int)
    requires addr + IntSize <= |buf| && other + IntSize <= |buf|
    requires addr + IntSize <= other || other + IntSize <= addr
    ensures GetInt(PutInt(buf, addr, x), other) == GetInt(buf, other)
  {
    var r := PutInt(buf, addr, x);
    assert r[other..other + IntSize] == buf[other..other + IntSize];
  }

  /** Both parameters written at their fixed offsets, as the firmware saves them. */
  function SavePair(buf: seq<Byte>, ontime: int, forsink: int): (r: seq<Byte>)
    requires |buf| == Size
    ensures |r| == Size
    ensures r[OntimeAddr..OntimeAddr + IntSize] == EncodeInt(ontime)
    ensures r[ForsinkAddr..ForsinkAddr + IntSize] == EncodeInt(forsink)
    ensures r[ForsinkAddr + IntSize..] == buf[ForsinkAddr + IntSize..]
  {
    var r := PutInt(PutInt(buf, OntimeAddr, ontime), ForsinkAddr, forsink);
    assert r[ForsinkAddr + IntSize..] == buf[ForsinkAddr + IntSize..];
    r
  }

  /** Both parameters as setup() reads them. */
  function LoadPair(buf: seq<Byte>): (int, int)
    requires |buf| == Size
  {
    (GetInt(buf, OntimeAddr), GetInt(buf, ForsinkAddr))
  }

  /** Save, then load after a restart: the same pair, as C ints. */
  lemma LoadAfterSave(buf: seq<Byte>, ontime: int, forsink: int)
    requires |buf| == Size
    ensures LoadPair(SavePair(buf, ontime, forsink)) == (Wrap32(ontime), Wrap32(forsink))
    ensures IsInt32(ontime) && IsInt32(forsink) ==>
              LoadPair(SavePair(buf, ontime, forsink)) == (ontime, forsink)
  {
    var once := PutInt(buf, OntimeAddr, ontime);
    GetPutSame(once, ForsinkAddr, forsink);
    GetPutOther(once, ForsinkAddr, OntimeAddr, forsink);
    GetPutSame(buf, OntimeAddr, ontime);
  }

  /** Saving the pair that was loaded leaves the stored bytes as they were. */
  lemma SaveAfterLoad(buf: seq<Byte>)
    requires |buf| == Size
    ensures SavePair(buf, LoadPair(buf).0, LoadPair(buf).1) == buf
  {
    var r := SavePair(buf, LoadPair(buf).0, LoadPair(buf).1);
    EncodeDecode(buf[OntimeAddr..OntimeAddr + IntSize]);
    EncodeDecode(buf[ForsinkAddr..ForsinkAddr + IntSize]);
    assert r[..ForsinkAddr + IntSize] == buf[..ForsinkAddr + IntSize];
    assert r == r[..ForsinkAddr + IntSize] + r[ForsinkAddr + IntSize..];
    assert buf == buf[..ForsinkAddr + IntSize] + buf[ForsinkAddr + IntSize..];
  }

  /** The emulated EEPROM: a RAM cache that put/get work on, and the flash
      contents that commit writes and that outlive a restart. */
  class Store {
    const cache: array<Byte>
    var flash: seq<Byte>

    ghost predicate Valid()
      reads this
    {
      cache.Length == Size && |flash| == Size
    }

    /** EEPROM.begin(Size): the cache starts as a copy of the flash. */
    constructor Begin(contents: seq<Byte>)
      requires |contents| == Size
      ensures Valid() && fresh(cache)
      ensures flash == contents && cache[..] == contents
    {
      flash := contents;
      cache := new Byte[Size](i requires 0 <= i < Size => contents[i]);
    }

    /** EEPROM.put(addr, x) for a C int x. */
    method Put(addr: nat, x: int)
      requires Valid() && addr + IntSize <= Size
      modifies cache
      ensures cache[..] == PutInt(old(cache[..]), addr, x)
    {
      var bytes := EncodeInt(x);
      forall i | 0 <= i < IntSize {
        cache[addr + i] := bytes[i];
      }
      assert cache[..] == PutInt(old(cache[..]), addr, x);
    }

    /** EEPROM.get(addr, x) for a C int x. */
    function Get(addr: nat): int
      reads this, cache
      requires Valid() && addr + IntSize <= Size
    {
      GetInt(cache[..], addr)
    }

    /** EEPROM.commit(): the flash takes the cache's contents. */
    method Commit()
      requires Valid()
      modifies this
      ensures Valid() && flash == cache[..]
    {
      flash := cache[..];
    }
  }
}
