/** Failure-compatible results: the source's `check(...)` throws a coded error. */
module Results {

  datatype Option<+T> = None | Some(value: T)

  /** One constructor per error code that the modelled code can raise. */
  datatype Code =
    | INTEGER_RANGE | BYTE_LENGTH | STATE_LAYOUT | LEDGER_LENGTH | STATE_MAGIC | SIGNED_DOMAIN | DIRECTORY_LENGTH
    | TICKET_PRICE | CLOSE_DAA | PHASE | EMPTY_MISMATCH | DIRECTORY_TOTAL | CURSOR_NONREFUND | DRAW_BELOW_MINIMUM
    | TEMPLATE_BOUNDARY | PUSH_LIMIT | ORIGIN_ZERO | UTXO_DAA | CURRENT_DAA | OPEN_GENESIS_CID_MISMATCH
    | STATE_INPUT_AMOUNT | STATE_INPUT_SPK | NOT_OPEN | DIRECTORY_FULL
    | NOT_SEALED | PASS_A_LENGTH | ANCHOR_DAA | DRAW_TOO_EARLY | PASS_A_INTEGER | PASS_A_FIRST_CROSSING
    | PASS_A_BLUE_ORDER | PASS_A_TARGET_HASH | PASS_A_COMMITMENT | WINNER_NOT_FOUND | SAMPLE_REJECTED
    | NOT_REFUNDING | NO_REFUND_RECORDS | NETWORK_FEE | EXTERNAL_VALUE | ACTION_NOT_AVAILABLE | PAYMENT_VALUE
    | QUANTITY_MISSING | DRAW_PROOF_MISSING | PAY_HAS_EXTERNAL_INPUT | WINNER_MINIMUM | TIMEOUT_EARLY
    | REFUND_FEE_POOL | INSUFFICIENT_FUNDING | OUTPUT_LIMIT
    | SCRIPT_NUMBER | SIGNATURE_SCRIPT_LIMIT | FUNDING_VALUE | FUNDING_COVENANT | FUNDING_OWNER | DUPLICATE_INPUT
    | UTXO_MISMATCH | INPUT_MATERIAL | FEE_MISMATCH | OUTPUT_VALUE | FUNDING_BUDGET_REQUIRED | FUNDING_REQUIRED | GENESIS_FUNDS
    | REGISTRY_VERSION | REGISTRY_SCRIPT
    | WITNESS_SIZE | NON_PUSH_WITNESS | PUSH_HEADER | PUSH_TRUNCATED | SCRIPT_NUMBER_LENGTH | UNSUPPORTED_ACTION
    | DATA_U32 | REDEEM_FORMAT | UNPINNED_TEMPLATE | SPEND_ABI | LEDGER_PUSH_COUNT | REDEEM_STATE_TEMPLATE
    | ORIGIN_REQUIRED | ORIGIN_MISMATCH | TAIL_LENGTH | DISPATCH_TAG
    | TX_TOPOLOGY | SPENT_OUTPOINT | SPENT_LEDGER | ACTION_PHASE | INPUT_VALUES | INPUT_VALUE | NEGATIVE_FEE
    | INPUT_VALUES_REQUIRED | PAYOUT_MISMATCH | SEQUENCE_REQUIREMENT | AGE_REQUIREMENT | BUY_TOPOLOGY | CLOSE_TOPOLOGY
    | CLOSE_LOCKTIME | CLOSE_TOO_EARLY | EMPTY_TAIL | DRAW_TOPOLOGY | WINNER_HINT | DRAW_FEE | TIMEOUT_DATA
    | REFUND_DATA | REFUND_TOPOLOGY | FOREIGN_TEMPLATE | SUCCESSOR_MISMATCH | TERMINAL_FAMILY
    | V0_COVENANT | PAYLOAD_LIMIT
    | SMT_PROOF_BYTES | SMT_TERMINAL | SMT_TERMINAL_TAG | SMT_TERMINAL_LANE_MISMATCH | SMT_FOREIGN_LEAF | SMT_SIBLING_COUNT
    | SMT_LANE_SCORE | SMT_SIBLING_CURSOR | WRONG_LANE | PARENT_SEQ_MISMATCH | LANE_HEADER_COMMITMENT_MISMATCH
    | MERKLE_ROOT_MISSING | FIRST_CROSSING | NOT_DIRECT_SELECTED_PARENT | P_PARENT_HEADER_COMMITMENT
    | CONTEXT_SELECTED_PARENT | PAYLOAD_CONTEXT_HEADER_MISMATCH | P_OPENING_COMMITMENT | T_OPENING_COMMITMENT
    | SELECTED_CHAIN_BATCH_UNAVAILABLE | SELECTED_CHAIN_DAA_NOT_INCREASING | SELECTED_PARENT_DISCONTINUITY
    | JSON_STRING | JSON_CONTROL | JSON_ESCAPE | JSON_NUMBER | JSON_FRACTION | JSON_EXPONENT | JSON_NUMBER_LENGTH | JSON_DEPTH
    | JSON_KEY | JSON_COLON | JSON_OBJECT | JSON_ARRAY | JSON_TRAILING | RPC_FIELD
    | ADDRESS_PREFIX | ADDRESS_FORMAT | ADDRESS_CASE | ADDRESS_CHARACTER | ADDRESS_CHECKSUM | ADDRESS_KIND
    | FEE_CAP_INVALID | FEE_MIN_INVALID | FEE_OVER_CAP | DRAFT_FEE_MISMATCH | MASS_LIMIT | FEE_NOT_CONVERGED
    | RESERVATION_NETWORK | INPUT_RESERVATION_RECORD_INVALID | INPUT_RESERVATION_OUTPOINT_INVALID | INTENT_ALREADY_EXISTS
    | SUBMIT_LEASE_LOST | REPLACEMENT_TARGET_NOT_OPEN | REPLACEMENT_INPUTS_DIFFER | REPLACEMENT_ROOT_MISMATCH
    | INPUT_ALREADY_RESERVED | DUPLICATE_SIGN_INDEX | WALLET_MUTATED_TRANSACTION | ORDINARY_SIGNATURE_FORMAT
    | FIRST_CROSSING_UNAVAILABLE | CANDIDATE_NOT_FIRST_CROSSING

  datatype Result<+T> = Ok(value: T) | Err(code: Code) {

    predicate IsFailure() { Err? }

    function PropagateFailure<U>(): Result<U>
      requires Err?
    {
      Err(code)
    }

    function Extract(): T
      requires Ok?
    {
      value
    }
  }

  /** `check(ok, code)`: nothing, or the error it throws. */
  function Check(ok: bool, code: Code): Result<()> {
    if ok then Ok(()) else Err(code)
  }
}
