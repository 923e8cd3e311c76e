/** The client's draw formula (scripts/core/src/protocol.ts:17-33). */
module Draws {
  import opened Bytes
  import opened Layout
  import opened Scripts

  const OPENING_BYTES := 240
  const SPACE := 0x100_0000_0000_0000

  const DRAW_TAG: Bytes := Ascii("KASWIN_V2_DRAW")
  const SAMPLE_TAG: Bytes := Ascii("KASWIN_V2_SAMPLE")

  function OpenSeq(h: Hashes, proof: Bytes, base: nat, parent: Bytes): Digest
    requires base + 88 <= |proof|
  {
    var context := h.domain(MERGESET_CONTEXT, proof[base + 64..base + 88]);
    var payload := h.domain(MERKLE_BRANCH, context + proof[base + 32..base + 64]);
    var root := h.domain(MERKLE_BRANCH, proof[base..base + 32] + payload);
    h.domain(MERKLE_BRANCH, parent + root)
  }

  /** The sequencing commitment of the target block that an opening opens. */
  function TargetSeq(h: Hashes, proof: Bytes): Digest
    requires |proof| == OPENING_BYTES
  {
    OpenSeq(h, proof, 32, OpenSeq(h, proof, 152, proof[120..152]))
  }

  function Frozen(ledger: Bytes): Bytes
    requires |ledger| >= HEADER_BYTES
  {
    ledger[OFFSET_TICKET_PRICE..OFFSET_REFUND_CURSOR] + ledger[HEADER_BYTES..]
  }

  function Seed(h: Hashes, id: Bytes, anchor: Outpoint, ledger: Bytes, boundary: nat, proof: Bytes): Digest
    requires |ledger| >= HEADER_BYTES && |proof| == OPENING_BYTES && anchor.index >= 0
  {
    h.blake2b(DRAW_TAG + id + anchor.transactionId + Le(anchor.index, 4) + h.blake2b(Frozen(ledger))
              + Le(boundary, 8) + proof[..32] + TargetSeq(h, proof))
  }

  function SampleValue(h: Hashes, seed: Digest): (v: nat)
    ensures v < SPACE
  {
    var digest := h.blake2b(SAMPLE_TAG + seed + Zeros(8));
    FromLeBound(digest[..7]);
    Pow256Values();
    FromLe(digest[..7])
  }

  function Limit(sold: nat): (limit: nat)
    requires sold > 0
    ensures limit <= SPACE
  {
    SPACE - SPACE % sold
  }
}
