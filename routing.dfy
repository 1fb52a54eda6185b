/**
 * The relay word of the matrix.  The routing of outputs 1, 0, 3 and 2 is
 * packed into the four nibbles of a 16-bit word, most significant first; the
 * shift registers receive the complement of that word.
 */
module Routing {
  import opened CLib

  /** The output whose nibble is shifted in at step i: outputs 1, 0, 3, 2 in turn. */
  function RelayOrder(i: nat): (num: nat)
    requires i < 4
    ensures num < 4
  {
    if i == 0 then 1 else if i == 1 then 0 else if i == 2 then 3 else 2
  }

  /** The four relay bits of one output routed to one input. */
  function Nibble(num: nat, port: uint8): (r: bv16)
    ensures r < 16
  {
    if port == 0 then (if num == 0 then 0x0 else 0x5)
    else if port == 1 then (if num == 0 then 0x5 else 0x0)
    else if port == 2 then 0xF
    else 0x0
  }

  /** The word after the first i steps of the packing loop. */
  function PackedPrefix(ports: seq<uint8>, i: nat): bv16
    requires i <= 4 <= |ports|
  {
    if i == 0 then 0
    else (PackedPrefix(ports, i - 1) << 4) | Nibble(RelayOrder(i - 1), ports[RelayOrder(i - 1)])
  }

  function Packed(ports: seq<uint8>): bv16
    requires |ports| >= 4
  {
    PackedPrefix(ports, 4)
  }

  /** The word sent to the relays. */
  function RelayWord(ports: seq<uint8>): bv16
    requires |ports| >= 4
  {
    !Packed(ports)
  }

  /** The loop of sendOutputToMatrix that accumulates `shift`. */
  method PackRouting(ports: seq<uint8>) returns (shift: bv16)
    requires |ports| >= 4
    ensures shift == Packed(ports)
    ensures !shift == RelayWord(ports)
  {
    shift := 0;
    var i := 0;
    while i < 4
      invariant 0 <= i <= 4
      invariant shift == PackedPrefix(ports, i)
    {
      var num := RelayOrder(i);
      shift := shift << 4;
      var nibble: bv16;
      var port := ports[num];
      if port == 0 {
        if num == 0 { nibble := 0x0; } else { nibble := 0x5; }
      } else if port == 1 {
        if num == 0 { nibble := 0x5; } else { nibble := 0x0; }
      } else if port == 2 {
        nibble := 0xF;
      } else {
        nibble := 0x0;
      }
      assert nibble == Nibble(num, port);
      shift := shift | nibble;
      assert shift == PackedPrefix(ports, i + 1);
      i := i + 1;
    }
  }

  /** Nibble positions: output 1 in bits 15..12, output 0 in 11..8, output 3 in 7..4, output 2 in 3..0. */
  lemma PackedLayout(ports: seq<uint8>)
    requires |ports| >= 4
    ensures Packed(ports)
         == (Nibble(1, ports[1]) << 12) | (Nibble(0, ports[0]) << 8)
          | (Nibble(3, ports[3]) << 4) | Nibble(2, ports[2])
  {
    var a, b, c, e := Nibble(1, ports[1]), Nibble(0, ports[0]), Nibble(3, ports[3]), Nibble(2, ports[2]);
    PackedStep(ports, 0);
    PackedStep(ports, 1);
    PackedStep(ports, 2);
    PackedStep(ports, 3);
    ShiftOr4(a, b, c, e);
  }

  lemma PackedStep(ports: seq<uint8>, i: nat)
    requires i < 4 <= |ports|
    ensures PackedPrefix(ports, i + 1) == (PackedPrefix(ports, i) << 4) | Nibble(RelayOrder(i), ports[RelayOrder(i)])
    ensures PackedPrefix(ports, 0) == 0
  {
  }

  lemma ShiftOr4(a: bv16, b: bv16, c: bv16, e: bv16)
    ensures (((((a << 4) | b) << 4) | c) << 4) | e == (a << 12) | (b << 8) | (c << 4) | e
  {
  }

  /** Only the routing of outputs 0 to 3 reaches the relays. */
  lemma OnlyFirstFourOutputs(p: seq<uint8>, q: seq<uint8>)
    requires |p| >= 4 && |q| >= 4 && p[..4] == q[..4]
    ensures RelayWord(p) == RelayWord(q)
  {
    assert p[0] == q[0] && p[1] == q[1] && p[2] == q[2] && p[3] == q[3] by {
      assert forall k :: 0 <= k < 4 ==> p[k] == p[..4][k] && q[k] == q[..4][k];
    }
    PackedLayout(p);
    PackedLayout(q);
  }

  /** The factory routing (output 1 from input 2, every other output from input 1). */
  lemma DefaultRelayWord(ports: seq<uint8>)
    requires |ports| >= 4 && ports[0] == 1 && ports[1] == 0 && ports[2] == 0 && ports[3] == 0
    ensures Packed(ports) == 0x5555
    ensures RelayWord(ports) == 0xAAAA
  {
    PackedLayout(ports);
  }

  // ---------------------------------------------------------------------
  // Reading the routing back from the relay word

  /** Bit offset of an output's nibble. */
  function NibbleShift(num: nat): nat
    requires num < 4
  {
    if num == 1 then 12 else if num == 0 then 8 else if num == 3 then 4 else 0
  }

  function NibbleOf(word: bv16, num: nat): bv16
    requires num < 4
  {
    ((!word) >> NibbleShift(num)) & 0xF
  }

  /** The input a nibble stands for; 3 for a pattern the packing never produces. */
  function PortOf(num: nat, nibble: bv16): uint8
  {
    if nibble == 0xF then 2
    else if nibble == 0x5 then (if num == 0 then 1 else 0)
    else if nibble == 0x0 then (if num == 0 then 0 else 1)
    else 3
  }

  function DecodeRouting(word: bv16): seq<uint8>
  {
    [PortOf(0, NibbleOf(word, 0)), PortOf(1, NibbleOf(word, 1)),
     PortOf(2, NibbleOf(word, 2)), PortOf(3, NibbleOf(word, 3))]
  }

  /** Each output's nibble can be read back out of the relay word. */
  lemma NibbleOfRelayWord(ports: seq<uint8>, num: nat)
    requires |ports| >= 4 && num < 4
    ensures NibbleOf(RelayWord(ports), num) == Nibble(num, ports[num])
  {
    PackedLayout(ports);
    var a, b, c, e := Nibble(1, ports[1]), Nibble(0, ports[0]), Nibble(3, ports[3]), Nibble(2, ports[2]);
    assert a < 16 && b < 16 && c < 16 && e < 16;
    assert !RelayWord(ports) == (a << 12) | (b << 8) | (c << 4) | e;
  }

  /** With every output on an existing input, the relay word determines the routing of outputs 0 to 3. */
  lemma RelayWordDecodes(ports: seq<uint8>)
    requires |ports| >= 4
    requires forall k :: 0 <= k < 4 ==> ports[k] < 3
    ensures DecodeRouting(RelayWord(ports)) == ports[..4]
  {
    NibbleOfRelayWord(ports, 0);
    NibbleOfRelayWord(ports, 1);
    NibbleOfRelayWord(ports, 2);
    NibbleOfRelayWord(ports, 3);
  }
}
