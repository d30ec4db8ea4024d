/** Octets and the big-endian words that the network formats are built from. */
module Octets {

  type Octet = x: int | 0 <= x < 256

  /** Two octets, most significant first. */
  function Word(v: nat): (s: seq<Octet>)
    requires v < 0x1_0000
    ensures |s| == 2 && 256 * (s[0] as int) + s[1] as int == v
  {
    [v / 256, v % 256]
  }

  /** The 16-bit value whose first octet stands at `at`. */
  function WordAt(s: seq<Octet>, at: nat): (v: nat)
    requires at + 2 <= |s|
    ensures v < 0x1_0000
    ensures Word(v) == s[at..at + 2]
  {
    256 * (s[at] as int) + s[at + 1] as int
  }
}

/** Packets and block arithmetic of RFC 1350, as the client command and its
    test peer write and read them. Block numbers on the wire are 16 bits wide
    and wrap. */
module Tftp {
  import opened Octets

  type Packet = seq<Octet>

  const BLK: nat := 512
  const WRAP: nat := 0x1_0000
  const OP_DATA: Octet := 3
  const OP_ACK: Octet := 4
  const OP_ERROR: Octet := 5
  const RETRIES: nat := 5

  function DataPacket(block: nat, chunk: seq<Octet>): (p: Packet)
    requires block < WRAP
    ensures |p| == 4 + |chunk| && p[0] == 0 && p[1] == OP_DATA && PktBlock(p) == block && p[4..] == chunk
  {
    [0, OP_DATA] + Word(block) + chunk
  }

  function AckPacket(block: nat): (p: Packet)
    requires block < WRAP
    ensures |p| == 4 && p[0] == 0 && p[1] == OP_ACK && PktBlock(p) == block
  {
    [0, OP_ACK] + Word(block)
  }

  /** The block number of a packet. */
  function PktBlock(p: Packet): (b: nat)
    requires |p| >= 4
    ensures b < WRAP
  {
    WordAt(p, 2)
  }

  /** What one read of at most 512 octets at `offset` gives. */
  function Chunk(src: seq<Octet>, offset: nat): (c: seq<Octet>)
    ensures |c| <= BLK
    ensures |c| == BLK <==> offset + BLK <= |src|
    ensures offset <= |src| ==> offset + |c| <= |src|
    ensures offset <= |src| ==> src[..offset] + c == src[..offset + |c|]
  {
    if offset >= |src| then [] else if offset + BLK <= |src| then src[offset..offset + BLK] else src[offset..]
  }

  /** The number of DATA packets of a file: a multiple of 512 ends with an empty one. */
  function Blocks(src: seq<Octet>): (n: nat)
  {
    |src| / BLK + 1
  }

  /** Block `i` (from 1) of a file. */
  function BlockOf(src: seq<Octet>, i: nat): (c: seq<Octet>)
    requires 1 <= i
  {
    Chunk(src, BLK * (i - 1))
  }

  lemma BlockLength(src: seq<Octet>, i: nat)
    requires 1 <= i <= Blocks(src)
    ensures |BlockOf(src, i)| == BLK <==> i < Blocks(src)
    ensures BLK * (i - 1) <= |src|
    ensures src[..BLK * (i - 1)] + BlockOf(src, i) == src[..BLK * (i - 1) + |BlockOf(src, i)|]
    ensures i == Blocks(src) ==> BLK * (i - 1) + |BlockOf(src, i)| == |src|
  {
  }

  /** A 16-bit number identifies a block among those less than 65536 away. */
  lemma SameBlock(i: nat, j: nat)
    requires i % WRAP == j % WRAP && i < j + WRAP && j < i + WRAP
    ensures i == j
  {
  }

  /** A packet on the way, with the block it belongs to before wrapping. */
  datatype Sent = Sent(index: nat, p: Packet)

  function Tag(index: nat, ps: seq<Packet>): (r: seq<Sent>)
    ensures |r| == |ps| && forall i :: 0 <= i < |ps| ==> r[i] == Sent(index, ps[i])
  {
    seq(|ps|, i requires 0 <= i < |ps| => Sent(index, ps[i]))
  }
}
