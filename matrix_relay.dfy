/**
 * The 74HC595 relay driver: each 16-bit word is clocked out as one SPI
 * transaction, and each transaction is logged as a binary string.
 */
module MatrixRelay {
  import opened CLib

  /** Bit 15-k of n: the k-th bit counting from the most significant one. */
  predicate BitFromTop(n: uint16, k: nat)
    requires k < 16
  {
    (n / Pow2(15 - k)) % 2 == 1
  }

  /** The 16-character text of a word, most significant bit first. */
  function BinaryStr(n: uint16): (r: string)
    ensures |r| == 16
    ensures forall k :: 0 <= k < 16 ==> (r[k] == '1' <==> BitFromTop(n, k))
    ensures forall k :: 0 <= k < 16 ==> r[k] == '0' || r[k] == '1'
  {
    seq(16, k requires 0 <= k < 16 => if BitFromTop(n, k) then '1' else '0')
  }

  /** Reading a string of '0'/'1' as a binary number. */
  function ParseBits(s: string): nat
    decreases |s|
  {
    if s == [] then 0 else 2 * ParseBits(s[..|s| - 1]) + (if s[|s| - 1] == '1' then 1 else 0)
  }

  lemma ParseNone(n: uint16)
    ensures ParseBits(BinaryStr(n)[..0]) == n / Pow2(16)
  {
    Pow2Sixteen();
    assert BinaryStr(n)[..0] == [];
  }

  /** The first k characters read back as the top k bits. */
  lemma {:induction false} ParsePrefix(n: uint16, k: nat)
    requires k <= 16
    ensures ParseBits(BinaryStr(n)[..k]) == n / Pow2(16 - k)
    decreases k
  {
    if k == 0 {
      ParseNone(n);
    } else {
      var s := BinaryStr(n)[..k];
      assert s[..|s| - 1] == BinaryStr(n)[..k - 1];
      ParsePrefix(n, k - 1);
      var a := Pow2(16 - k);
      assert Pow2(16 - (k - 1)) == 2 * a;
      var p := ParseBits(s[..|s| - 1]);
      assert p == n / (2 * a);
      var c := s[|s| - 1];
      assert c == BinaryStr(n)[k - 1];
      assert c == '1' <==> (n / a) % 2 == 1;
      assert ParseBits(s) == 2 * p + (if c == '1' then 1 else 0);
      HalfStep(n, a);
    }
  }

  /** The binary text reads back as the word it was made from. */
  lemma ParseBinaryStr(n: uint16)
    ensures ParseBits(BinaryStr(n)) == n
  {
    ParsePrefix(n, 16);
    assert BinaryStr(n)[..16] == BinaryStr(n);
  }

  /**
   * uint16ToBinaryStr(buf, n): walks a one-bit mask from bit 15 down to bit 0,
   * writing '1' where n has the mask's bit and '0' elsewhere, then the
   * terminator.  `n & mask` of the single-bit mask is `(n / mask) % 2`.
   */
  method Uint16ToBinaryStr(buf: array<char>, n: uint16) returns (ok: bool)
    requires buf.Length >= 17
    modifies buf
    ensures ok
    ensures buf[..16] == BinaryStr(n) && buf[16] == '\0'
    ensures buf[17..] == old(buf[17..])
  {
    var mask: nat := 0x8000;
    assert mask == Pow2(15) by { assert Pow2(12) == 4096; }
    var i := 0;
    while mask != 0
      invariant 0 <= i <= 16
      invariant mask == if i < 16 then Pow2(15 - i) else 0
      invariant forall k :: 0 <= k < i ==> buf[k] == BinaryStr(n)[k]
      invariant buf[16..] == old(buf[16..])
      decreases 16 - i
    {
      var bitIsSet := (n / mask) % 2 == 1;
      buf[i] := if bitIsSet then '1' else '0';
      i := i + 1;
      mask := mask / 2;
    }
    buf[i] := '\0';
    assert buf[..16] == BinaryStr(n);
    ok := true;
  }

  /** The SPI device: the words it has received and the driver's log lines. */
  class Relay {
    var transmitted: seq<uint16>
    var log: seq<string>

    constructor()
      ensures transmitted == [] && log == []
    {
      transmitted := [];
      log := [];
    }

    /** The log lines of one sendToRelay call: the text of buf[0], once per transaction. */
    static function LogLines(buf: seq<uint16>, sz: nat): seq<string>
      requires sz <= |buf|
    {
      if sz == 0 then [] else seq(sz, _ => BinaryStr(buf[0]))
    }

    /**
     * sendToRelay(buf, sz): one 16-bit transaction per word, in order.  Every
     * log line shows buf[0], the word the driver formats.
     */
    method SendToRelay(buf: seq<uint16>, sz: uint8)
      requires sz <= |buf|
      modifies this
      ensures transmitted == old(transmitted) + buf[..sz]
      ensures log == old(log) + LogLines(buf, sz)
    {
      var i := 0;
      while i < sz
        invariant 0 <= i <= sz
        invariant transmitted == old(transmitted) + buf[..i]
        invariant log == old(log) + LogLines(buf, i)
      {
        var bin := new char[17](_ => '\0');
        var _ := Uint16ToBinaryStr(bin, buf[0]);
        assert CLen(bin[..]) == 16;
        log := log + [CStr(bin[..])];
        transmitted := transmitted + [buf[i]];
        assert buf[..i + 1] == buf[..i] + [buf[i]];
        assert LogLines(buf, i + 1) == LogLines(buf, i) + [BinaryStr(buf[0])];
        i := i + 1;
      }
    }
  }
}
