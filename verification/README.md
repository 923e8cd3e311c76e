# A verified model of the Kaswin lottery round

Kaswin is a lottery round that lives in one chained state UTXO: an 80-byte ledger header followed by up to 256 records of
cumulative ticket ends, carried through the phases OPEN, SEALED and REFUNDING to one of three terminals. The repository says
what a round does three times over: in the on-chain templates, which edit raw ledger bytes; in the client's builder; and in
the client's reader of accepted transactions. This project models all three, branch by branch, and proves that they agree.

`dafny verify dfyconfig.toml` checks everything.

## What is proved

* **Lineage.** On every run of accepted spends from a zero-ticket genesis, the state bytes decode to a valid ledger, hold
  exactly its value, and lead back to one genesis that the round id commits to (`Lineage`); the client creates such a genesis
  (`Genesis`).
* **Three views, one protocol.** Templates and reader accept the same spends, in both directions, with the exact list of facts
  that the reader does not look at (`Agreement`); the builder succeeds exactly when the transition exists and the funding passes
  (`BuilderExact`), and whatever it makes, the reader understands as planned (`BuilderReader`) and the templates accept
  (`BuilderContract`).
* **Every action outright.** For each of the five actions the exact guard, in conditions that a caller can check, and the whole
  transition that it plans (`Transitions`); every field of a built draft, of a created round and of the reader's report
  (`Drafts`, `Reports`).
* **Money.** A refunding run pays every record and the creator exactly once, in exactly ⌈n/32⌉ spends, and the fee pools add up
  (`RefundRuns`). The draw is fair by counting all 2^56 sample values (`Fairness`), and its seed binds the anchor, the sold
  tickets and the target block (`DrawBinding`).
* **Progress.** Every round drains without a draw, apart from one state; every transition is strict progress, and no run, of
  any mix of actions, has more than 265 steps (`Liveness`).
* **Around the round.** Lane proofs are sound and complete against a tree defined apart from them (`Lanes`, `LaneTree`), and so
  is the payload tree (`Merkle`, `MerkleTree`); the draw's crossing block does not depend on how it was found (`Crossing`); the
  transaction id preimage and the typed snapshot lose nothing (`TxPreimage`, `TxReader`, `Stable`, `Signing`); the JSON parser
  takes exactly a grammar, and transactions survive the wire (`JsonExact`, `JsonRoundTrip`, `JsonParser`, `WireLayout`,
  `TxWireRoundTrip`); addresses round-trip and show any changed character (`Address`, `AddressBits`, `AddressText`); fee-bump
  families stay apart while no id is recorded twice (`Reservations`); invalidation tokens are exact (`ChainBlocks`); and a
  converged fee pays the node's rate on every mass that its mode asks for and, where a higher fee never asks for less, is the
  least (`FeeConverge`).

## Three results that differ from what one might expect

* **A round can get stuck.** Both the timeout and the draw demand that the SEALED output was accepted before
  `DAA_LIMIT - TIMEOUT_DELAY`, but CLOSE does not. `Liveness.LateCloseSticks` closes such a round, and
  `Lineage.LateSealedHasNoSpend` shows that no template accepts any spend of what it leaves. `Liveness.SealedMovesIff` gives the
  exact condition on the accepting score; where it holds, `Liveness.RoundDrains` ends the round.
* **The reader accepts more than the templates.** It does not look at outputs that input 0 authorises for another covenant, at
  other inputs of the same covenant, or at the native accessor. `Agreement.ReaderSkips` is the exact difference, and
  `ReaderGap.ReaderGapOccurs` a spend that falls into it: a built BUY whose change output is bound to another covenant.
* **Fee-bump families can mix.** `familyKeys` exempts a row for its transaction id alone. One id can be recorded under two
  profiles of a network, since a transaction that names no profile, such as that of `buildSplit` (scripts/round/funding.mjs:9,
  scripts/round/operation-engine.mjs:13), is the same under both. When the released row of such an id comes back and is
  replaced, the other profile's row is exempt too, although it belongs to another family. `FamilyMix.FamiliesCanMix` is such a
  run, made of the engine's own writes. The rows alone tell when this happens: by `Reservations.FreeByRootIsExact` an insert is
  safe under every past of its rows if and only if it would also pass with only the target's own root exempt. While no id is
  recorded twice in a network that always holds (`Reservations.UniqueIdsAreSafe`), as it does under a single profile
  (`FamilyMix.OneProfileIsSafe`); reviving and replacing a row is then harmless. With the past at hand `Reservations.RootsAgree`
  is exact step by step.

## How to read the model

* A check that throws becomes an `Err` with the source's code (`Results`); a script that fails becomes `Abort` (`Sil`).
* Bytes are sequences of 0..255, and the hex strings of the source are the bytes that they spell.
* Hash functions are parameters. No theorem assumes a hash injective everywhere: each names the few inputs whose
  hash no other input may have (`Unmatched`), or among which no two may collide (`CollisionFree`), so the hypotheses can be met.
* The template bytecode is a profile of three pinned tails of which none is a suffix of another (`Frames`); the forward template
  hashes admit only those tails (`TemplatesBind`).
* What the node enforces around a script - lock times, sequence locks, no zero covenant id, distinct inputs - is the predicate
  `ContractReader.NodeRules`.
* Code that the source writes with loops or with fields it updates is a method or a class here, proved equal to a function
  about which the properties are proved.

## Model

| member | source | states |
|---|---|---|
| Bytes.LeBytes | scripts/core/src/bytes.ts:36-44 | the digit loop writes exactly the little-endian digits of a number in range and refuses any other |
| Bytes.ReadLe | scripts/core/src/bytes.ts:45-50 | the loop from the top byte down computes the little-endian value of any byte string |
| Bytes.FromLeOfLe | scripts/core/src/bytes.ts:36-50 | reading the little-endian digits of a number in range gives the number back |
| Bytes.LeOfFromLe | scripts/core/src/bytes.ts:36-50 | any byte string is the little-endian writing of its own value, at its own width |
| State.EncodeIsLedgerBytes | scripts/core/src/state.ts:63-66 | encoding succeeds exactly when every field fits its width, and then writes the ledger bytes of all other theorems |
| State.DecodeOfEncode | scripts/core/src/state.ts:63-73 | the encoder succeeds on every ledger in the decodable range, and what it writes decodes to that ledger |
| State.EncodeOfDecode | scripts/core/src/state.ts:63-73 | any bytes that decode are what the encoder writes for what they decode to, so the codec is a bijection on its domain |
| Directory.ReadRecords | scripts/core/src/state.ts:79-82 | the pass over the directory that threads the previous end yields the records, with counts as differences of consecutive ends, or the first error |
| Directory.ValidateIsValid | scripts/core/src/state.ts:83-91 | validation succeeds exactly on ledgers meeting a direct predicate on config, totals, ascending ends, cursor and phase |
| Directory.TicketsTelescope | scripts/core/src/state.ts:79-93 | the counts of consecutive records add up to a difference of cumulative ends |
| Directory.ValueBound | scripts/core/src/state.ts:92-93 | a valid ledger never owes more than the value limit less the deposit |
| Directory.AppendIsBought | scripts/core/src/state.ts:112 | a purchase succeeds exactly on a valid OPEN ledger with tickets and records to spare and a 32-byte key |
| Directory.PurchaseKeepsValid | scripts/core/src/state.ts:83-112 | a purchase keeps the ledger valid, raises its value by exactly the price of the tickets and appends exactly one record |
| Scripts.ReadPushes | scripts/core/src/accepted.ts:17-37 | the index loop returns exactly the pushed items of a witness, or the first error |
| Scripts.PushHeaderRead | scripts/core/src/state.ts:55-58 | whatever follows, the reader takes a pushed item off the front exactly, for each of the four push forms |
| Scripts.PushesAppend | scripts/core/src/accepted.ts:17-37 | witnesses concatenate: the items of a concatenation are the concatenated items |
| Scripts.EncodeInt | scripts/core/src/builders.ts:12-15 | the shifting loop writes the shortest script number with its sign byte |
| Scripts.PushIntEncodes | scripts/core/src/builders.ts:12-15 | every non-negative 63-bit integer is pushed as an item that the reader takes back, in at most nine bytes |
| Scripts.IntItemIsNumber | scripts/core/src/accepted.ts:38-44 | the script number read from that item is the integer |
| Scripts.NumberIsSignMagnitude | scripts/core/src/accepted.ts:38-44 | every item of up to eight bytes is read as sign and magnitude, the sign in the top bit |
| Scripts.SmallNumberPushes | scripts/core/src/accepted.ts:17-44 | the one-byte opcodes for 0, -1 and 1 to 16 push those numbers |
| Scripts.RootPreimageNamesOrigin | scripts/core/src/covenant-id.ts:30-47 | equal root preimages have equal origins |
| Frames.LedgerScriptInjective | scripts/core/src/state.ts:55-59 | a redeem script determines both its ledger bytes and its template tail |
| Frames.TemplateLayout | scripts/core/src/state.ts:37 | the preimage of a template hash holds, at its offsets, the number 1, the head byte, the length of the tail and the tail |
| Sil.ScriptForIsLedgerScript | contracts/open.sil:77-89 | the template builds a script exactly for ledgers of legal size, and it is the script that the client builds |
| Sil.CheckFee | contracts/refunding.sil:114-130 | the two summing loops accept exactly when the fee witness is in range, every amount is payable and inputs less outputs equal the fee |
| Sil.TailTaken | contracts/open.sil:91-98 | a tail is taken only as the end of the input script, from the boundary opcode on, when the script that it completes is the one that the spent output pays to |
| Sil.SuccessorMeans | contracts/open.sil:149-163 | an accepted successor is the output at place 0 with the value and script asked for, bound to the covenant by input 0, and no other output is of that covenant or authorised by that input |
| LedgerEdits.PurchaseEdit | contracts/open.sil:187-190 | the two four-byte edits and the append of BUY are the encoding of the ledger-level purchase |
| LedgerEdits.PhaseEdit | contracts/sealed.sil:249 | the four-byte phase edit is the encoding of the ledger with that phase |
| LedgerEdits.CursorEdit | contracts/refunding.sil:203 | the four-byte cursor edit is the encoding of the ledger with that cursor |
| LedgerEdits.GenesisEdit | contracts/open.sil:71-75 | the genesis ledger that OPEN cuts out of any ledger is the encoding of the zero-ticket ledger with the same owner and config |
| Spends.AuthenticatedTailIs | contracts/open.sil:91-98 | the tail that a witness names by length can only be the committed template tail |
| Spends.CheckRootIs | contracts/open.sil:100-110 | OPEN accepts an origin exactly when it is well formed and the id recomputed from it and the genesis script is the input covenant id |
| ContractSteps.BuyCharacterised | contracts/open.sil:179-191 | on a valid OPEN state the byte-level BUY accepts exactly the ledger-level purchase with its successor output and price, and aborts otherwise |
| ContractSteps.CloseCharacterised | contracts/open.sil:192-205 | on a valid OPEN state the byte-level CLOSE accepts exactly the emptying, sealing or refunding step that the ledger calls for |
| ContractSteps.PayoutCharacterised | contracts/sealed.sil:204-217 | the raw-byte payout window accepts exactly the record whose ticket interval holds the ticket, with three fixed payments |
| ContractSteps.TimeoutCharacterised | contracts/sealed.sil:244-249 | the byte-level timeout accepts exactly an aged anchor below the DAA limit and the pinned refunding template |
| ContractSteps.RefundCharacterised | contracts/refunding.sil:168-204 | on a valid REFUNDING state the raw-byte batch loop accepts exactly one payment per record of the batch, the pool, and the successor or the deposit |
| Refunding.RefundLoop | contracts/refunding.sil:180-190 | the loop over an advancing directory offset returns the end that its recursive account reaches, or aborts with it |
| Refunding.RunSpend | contracts/refunding.sil:156-205 | the entry as a sequence of checks and loops gives the verdict of its functional account on every input |
| Refunding.BatchOfAnyBytes | contracts/refunding.sil:168-204 | on any ledger bytes, valid or not, an accepted batch runs through rising ends, each output repaying its stretch of tickets to the key of its record; it either reaches the tickets sold and ends, or leaves the rest of the value in the successor |
| Sealed.PayoutOfAnyBytes | contracts/sealed.sil:204-217 | on any ledger bytes an accepted payout goes to the record at the hint, whose window holds the ticket, with the creator and the executor after it |
| Sealed.LedgerChecked | contracts/sealed.sil:110-115 | any ledger bytes that SEALED runs on have its magic and phase, one record for each purchase, enough tickets, and their price and the deposit in the state |
| Refunding.LedgerChecked | contracts/refunding.sil:105-111 | any ledger bytes that REFUNDING runs on have its magic and phase, a cursor among the records, and the price of every ticket not repaid and the deposit in the state |
| Spends.OpenSpendIs | contracts/open.sil:164-207 | on any state output of a valid OPEN ledger, the entry accepts exactly when the listed conditions hold, with that verdict |
| Spends.SealedSpendIs | contracts/sealed.sil:219-251 | on any state output of a valid SEALED ledger, the entry accepts exactly the listed draws and timeouts, with that verdict |
| Spends.RefundingSpendIs | contracts/refunding.sil:156-205 | on any state output of a valid REFUNDING ledger, the entry accepts exactly the listed batches, with that verdict |
| Lineage.OnlyCommittedRuns | contracts/open.sil:91-98 | an accepted spend can have revealed only the template and ledger that the spent script hash commits to |
| Lineage.AcceptedStep | contracts/sealed.sil:110-115 | every accepted spend of a valid state either makes a ledger-level move and creates the next state output, or ends the round as its phase allows |
| Lineage.LineageInvariant | contracts/refunding.sil:105-111 | on every run of accepted spends from a zero-ticket genesis, each state output decodes to a valid ledger, holds exactly its value, and rebuilds the same genesis ledger, which the round id commits to; the checks that SEALED and REFUNDING leave out are never needed |
| Lineage.GenesisMustBeZeroTicket | contracts/open.sil:100-122 | an OPEN output whose id commits to its own script is spendable only if its ledger holds no tickets, cursor or records |
| Lineage.LateSealedHasNoSpend | contracts/sealed.sil:246-249 | a SEALED output accepted within the timeout delay of the DAA limit has no accepted spend at all |
| Protocol.VerifyIsVerified | scripts/core/src/state.ts:99-110 | snapshot verification returns a ledger exactly when the snapshot is the hash-bound, correctly valued output of that valid ledger in its origin's lineage |
| Protocol.WinnerUnique | scripts/core/src/protocol.ts:36 | exactly one hint passes the window `begin <= ticket < end`, and it is the record that the client finds |
| Protocol.PayRefunds | scripts/core/src/protocol.ts:81 | the paying loop yields the batch's payments in order, or the first error |
| Protocol.PlanAction | scripts/core/src/protocol.ts:62-85 | the switch that assigns locals and appends payments computes the functional plan of each action |
| Protocol.PrepareTransition | scripts/core/src/protocol.ts:59-89 | the whole transition, checks in source order, computes its functional account |
| Accepted.TickRefunds | scripts/core/src/accepted.ts:162 | the refund loop passes exactly when every output of the batch pays its record, and marks exactly those outputs |
| Accepted.InterpretAction | scripts/core/src/accepted.ts:127-168 | the switch sets successor, terminal, draw, winner and roles as its functional account does |
| Accepted.Interpret | scripts/core/src/accepted.ts:90-180 | the whole reader, checks in source order, computes its functional account |
| Reports.ReportExactly | scripts/core/src/accepted.ts:90-180 | every transaction that the reader takes is reported with the role of each output, the fee as the balance of inputs and outputs, and for a draw the opening of the witness, the seed on the snapshot, and the one record whose window holds the ticket, with its first and last ticket and the prize |
| Reports.ReaderInsists | scripts/core/src/accepted.ts:90-180 | whatever the reader takes is a valid spend of the tip with at most nine distinct inputs, the outputs of its phase, payable amounts and a fee within bounds, and meets the relative or absolute lock, the age and the funding that its action needs |
| ReaderWitness.ModuleOfScript | scripts/core/src/accepted.ts:61 | on a redeem script of any pinned template the suffix search finds that template and no other |
| ReaderWitness.RedeemRead | scripts/core/src/accepted.ts:59-68 | the redeem script of any decodable ledger is read back to that ledger and template |
| ContractReader.OpeningAgrees | scripts/core/src/protocol.ts:19-27 | on one opening the template accepts exactly when the client does, given the input's age and the native accessor, and both derive one seed |
| Spends.TargetCommitment | contracts/sealed.sil:159-202 | template and client, each with a formula of its own, hash an opening to one target commitment |
| Spends.TemplateSample | contracts/sealed.sil:159-202 | template and client, each with a formula of its own, take one sample and one rejection limit from a seed |
| DrawBinding.SeedLayout | scripts/core/src/protocol.ts:17-27 | the seed is the digest of a preimage given field by field at its offsets: tag, id, outpoint, digest of the frozen ledger, boundary, target hash, target commitment |
| DrawBinding.SampleLayout | scripts/core/src/protocol.ts:29-33 | the sample is the little-endian number of the first seven bytes of a digest whose preimage holds the seed at offset 16 |
| DrawBinding.SamplesApart | scripts/core/src/protocol.ts:29-33 | two seeds are sampled from two preimages |
| DrawBinding.OpeningBinds | scripts/core/src/protocol.ts:17-27 | without collisions the target commitment fixes every byte of an opening after the target hash |
| DrawBinding.ClientSeedBinds | scripts/core/src/protocol.ts:19-27 | two authenticated draws with one seed have one covenant id, anchor, boundary, target hash, target commitment, price, caps, minimum, close score, totals and directory |
| DrawBinding.TemplateSeedBinds | contracts/sealed.sil:159-197 | the same of any two seeds that the template derives |
| ContractReader.PayoutAgrees | scripts/core/src/protocol.ts:36-41 | with an authenticated opening, the hint that the template pays is exactly the record that the client draws |
| ContractReader.BuyAgrees | scripts/core/src/accepted.ts:130-132 | BUY: template and reader accept the same spends and name the same successor, but for outputs that input 0 authorises for other covenants |
| ContractReader.CloseAgrees | scripts/core/src/accepted.ts:133-141 | CLOSE: template and reader accept the same spends and name the same successor or the EMPTY terminal, but for such outputs |
| ContractReader.TimeoutAgrees | scripts/core/src/accepted.ts:155-157 | TIMEOUT: template and reader accept the same spends, with the same refunding successor, but for such outputs |
| ContractReader.RefundAgrees | scripts/core/src/accepted.ts:158-167 | REFUND: template and reader accept the same batches, with the same successor or the REFUNDED terminal, but for such outputs |
| Agreement.ContractAndReaderAgree | scripts/core/src/accepted.ts:90-180 | on every lineage-reachable state and under the node's lock rules, a spend is accepted by the templates if and only if the reader accepts it and five facts that the reader does not look at hold; then both name one successor (bytes and template) or one terminal |
| ReaderGap.ReaderIgnores | scripts/core/src/accepted.ts:169-177 | binding any later output of an understood BUY, CLOSE or TIMEOUT to another covenant leaves the reader's answer unchanged |
| ReaderGap.ReaderAcceptsMore | contracts/open.sil:157-158 | on any lineage-reachable state, every such spend so changed is accepted by the reader and by no template |
| ReaderGap.ReaderGapExists | contracts/open.sil:157-158 | for all hashes that bind the round such a spend exists: a built BUY of a concrete round whose change output is bound to another covenant |
| ReaderGap.ReaderGapOccurs | contracts/open.sil:157-158 | that claim with its premise met: for every profile concrete hashes bind the round, and under them such a spend exists |
| Transitions.AvailableExactly | scripts/core/src/protocol.ts:49-57 | every live snapshot lists its actions, but for a SEALED one too near the DAA limit, and each of the five actions is listed exactly under a condition that a caller can read off the snapshot |
| Transitions.BuyExactly | scripts/core/src/protocol.ts:59-89 | buying succeeds exactly for a quantity still to be had, a record to spare and funding for price and fee; the whole transition is given, the buyer's record appended and the change paid to the buyer |
| Transitions.CloseExactly | scripts/core/src/protocol.ts:59-89 | closing an OPEN round succeeds exactly when it is full or past its close score and the funding covers the fee; the whole transition of the emptying, sealing and refunding close is given |
| Transitions.TimeoutExactly | scripts/core/src/protocol.ts:59-89 | timing out succeeds exactly when the output is old enough, not too near the DAA limit, and funded; the whole transition is given |
| Transitions.RefundExactly | scripts/core/src/protocol.ts:59-89 | a refund succeeds exactly when the executor's share is positive and within the value limit; every payment of the batch is given |
| Transitions.DrawExactly | scripts/core/src/protocol.ts:59-89 | a draw succeeds exactly, without external value, on an opening whose 240 bytes meet their conditions, once the delay has passed, when the sample is below the limit and the prize reaches its minimum; the three payments, data, sequence and terminal are given, the winner being the one record whose window holds the ticket |
| Drafts.BuildsExactly | scripts/core/src/builders.ts:24-42 | a build succeeds exactly when the transition does with the total of the funding, the funding is at most eight distinct unencumbered outputs of the actor other than the tip, and budget and payload are within range |
| Drafts.DraftExactly | scripts/core/src/builders.ts:28-42 | every field of a built draft: inputs with their sequences and budgets, the state output bound to the covenant and then the payments in order, and the fixed fields of the transaction |
| Drafts.WalletDebitIs | scripts/core/src/builders.ts:40-41 | the wallet debit is price and fee for a purchase, the fee for a close or a timeout, nothing for a draw, and for a refund what the fee exceeds the pool by |
| BuilderExact.TransitionBalances | scripts/core/src/protocol.ts:59-89 | conservation for every action: what a transition keeps in the state plus all its payments is the state value plus the external value less the fee |
| BuilderExact.BuildExactly | scripts/core/src/builders.ts:28-42 | a build succeeds if and only if budget, funding and payload pass their own checks and the transition exists, so the size limits and the final assertion of the draft never refuse anything more |
| Builders.CheckFunding | scripts/core/src/builders.ts:24-26 | the loop over funding inputs with its growing set of outpoints passes or fails as its functional account does |
| Builders.PrepareAction | scripts/core/src/builders.ts:28-42 | filling the transaction in place gives the draft of the functional account |
| BuilderReader.WitnessPushes | scripts/core/src/builders.ts:16-23 | the items that a built witness decodes to are those it was built from |
| BuilderReader.WitnessReads | scripts/core/src/accepted.ts:57-77 | the reader decodes a built witness to the operation, ledger, origin, actor, data, tail and fee that went in |
| BuilderReader.BuilderAndReaderAgree | scripts/core/src/builders.ts:28-42 | for every snapshot, operation, fee and funding on which the builder succeeds, and any signing of its inputs, the reader succeeds with the planned successor or terminal, fee, external value, draw seed, winner, prize and output roles |
| BuilderContract.BuilderAndContractAgree | contracts/open.sil:164-207 | on a round's state output, every built and signed transaction that the node finds valid is accepted by the template with the planned outcome |
| Genesis.CreateRound | scripts/core/src/builders.ts:43-51 | filling the creating transaction in place gives its functional account, refusals included |
| Genesis.GenesisStartsRound | scripts/core/src/builders.ts:43-51 | every created transaction has the zero-ticket state output first and alone in the covenant that input 0 authorises, balances to its fee, and starts a lineage in the sense of `LineageInvariant` if and only if its first funding outpoint is one that OPEN can name |
| Drafts.GenesisExactly | scripts/core/src/builders.ts:43-53 | a round opens exactly for a valid configuration, a 32-byte owner, a fit registry if any, and usable funding that covers its cost and leaves at most one output of change; transaction, id, indices and debit are given |
| RefundRuns.RefundRunIsExact | contracts/refunding.sil:168-204 | a run from cursor 0 to the end takes exactly ⌈purchaseCount/32⌉ spends; every record is paid its price less one fee, once, by a determined spend and output; the creator gets the deposit less one fee once; all output counts are fixed; executors together get (purchaseCount+1) refund fees plus what they brought less fees |
| RefundRuns.ExecutorsSum | contracts/refunding.sil:191-203 | conservation over every prefix of such a run: executor income plus fees equals external value plus the pools so far |
| Liveness.LateSealedIsStuck | scripts/core/src/protocol.ts:43-51 | a SEALED snapshot accepted within the timeout delay of the DAA limit admits no transition at any fee, funding or operation |
| Liveness.SealedMovesIff | scripts/core/src/protocol.ts:43-89 | a SEALED output can be moved at some score if and only if it was accepted more than the timeout delay before the DAA limit |
| Liveness.LateCloseSticks | scripts/core/src/protocol.ts:66-69 | any full round with enough tickets, closed at the last score, leaves a SEALED output that nothing ever moves |
| Liveness.SoldOutRound | scripts/core/src/state.ts:74-91 | a concrete round that meets those premises |
| Liveness.RoundDrains | scripts/core/src/protocol.ts:59-89 | apart from that state, from its due score on and without any draw, every round ends within 2 + ⌈purchaseCount/32⌉ spends, however late each spend is planned and accepted |
| Liveness.SuccessorHasSnapshot | scripts/core/src/state.ts:99-110 | every planned successor has a snapshot that verifies |
| Liveness.TransitionsEnd | scripts/core/src/protocol.ts:59-89 | every transition that goes on strictly lowers a rank that is at most 266 |
| Liveness.RunsEnd | contracts/refunding.sil:105-111 | every run of accepted spends from a genesis, whatever its mix of actions, has fewer than purchaseCap + 10 steps, at most 265 |
| Liveness.ChainsEnd | scripts/core/src/protocol.ts:59-89 | every chain of planned transitions, each from the verified successor of the last, has at most 265 of them |
| Liveness.CompareIsOrder | scripts/round/progress.mjs:18-28 | comparison is antisymmetric and transitive where it decides |
| Liveness.CompareExactly | scripts/round/progress.mjs:18-28 | a round that is over is furthest; otherwise phase decides before purchases and purchases before the cursor, and anything not known leaves the comparison undecided |
| Liveness.TransitionsAdvance | scripts/round/progress.mjs:11-28 | every transition of the client puts the round strictly further along |
| Fairness.DrawSelects | scripts/core/src/protocol.ts:29-41 | an authenticated draw pays the record that its sample value selects |
| Fairness.TallyTo | scripts/core/src/protocol.ts:29-36 | below the rejection limit each full turn of the tickets gives a record exactly its window, and nothing is rejected |
| Fairness.FairDraw | scripts/core/src/protocol.ts:29-41 | of the 2^56 sample values exactly count × (limit / sold) select each record and exactly 2^56 mod sold are rejected |
| Lanes.ClimbLane | scripts/core/src/pass-a.ts:82-103 | the climb that takes siblings off the end of the list computes the recursive root; its cursor always ends at 0, so SMT_SIBLING_CURSOR never fires |
| Lanes.LaneRootBinds | scripts/core/src/pass-a.ts:82-103 | two proofs of one key with one root, one of them an inclusion, prove the same lane at any depths; no root has both an inclusion and a non-inclusion proof of a key |
| Lanes.HeaderBindsLane | scripts/core/src/pass-a.ts:104-114 | two lane proofs accepted against one header agree on every root and digest, and on tip and blue score if either is an inclusion |
| LaneTree.ProofReads | scripts/core/src/pass-a.ts:82-96 | the bytes of any proof of a collapsed, full or foreign kind read back as that proof |
| LaneTree.HonestProofVerifies | scripts/core/src/pass-a.ts:82-103 | completeness: for every finite map of lanes, whose tree is defined by the bits of the 256-bit keys apart from the proof code, and for every key, the inclusion or non-inclusion proof taken from that tree yields its root |
| LaneTree.HonestHeaderVerifies | scripts/core/src/pass-a.ts:104-114 | with that proof and its own parts every header that commits to such a tree is accepted |
| Merkle.PaddedRoot | scripts/core/src/pass-a.ts:68-81 | padding to a power of two and halving the array computes the recursion that pairs a missing right neighbour with zero; MERKLE_ROOT_MISSING never fires |
| MerkleTree.RootIsTree | scripts/core/src/pass-a.ts:68-81 | the halving of levels comes to the tree defined from the root down: the first half of the places left, the rest right, a side without leaves the zero node, at the least height that holds the leaves |
| Merkle.RootBindsLeaves | scripts/core/src/pass-a.ts:68-81 | for leaf-tagged digests the root determines the whole list, its length included |
| Merkle.RootZero | scripts/core/src/pass-a.ts:68-81 | only the empty list has the zero root |
| Merkle.LeafNamesBlock | scripts/core/src/pass-a.ts:115-123 | a payload leaf names its block hash, its stripped work and its payload digest |
| MerkleTree.LeafLayout | scripts/core/src/pass-a.ts:115-123 | a leaf holds, at given offsets, the block hash, the length of the work without its leading zero bytes, that work, and the payload digest |
| Crossing.IndexFindsCrossing | scripts/core/src/pass-a.ts:184-192 | the index path accepts a candidate exactly when it is the crossing of the chain |
| Crossing.Scan | scripts/core/src/pass-a.ts:193-225 | the nested paging loops return the first row at or after the boundary and the block before it, or the code for why there is none |
| Crossing.ScanFindsCrossing | scripts/core/src/pass-a.ts:193-226 | a scan succeeds exactly when its last row has reached the boundary, and what it finds is the crossing of the chain |
| Crossing.PathIndependent | scripts/core/src/pass-a.ts:184-226 | any two pagings that reach the boundary find one (parent, target) pair, a paging that goes further still finds it, and an accepted index candidate is that pair |
| Crossing.OpeningAlwaysRecommits | scripts/core/src/pass-a.ts:158-175 | the last two checks of the assembly never fail: verified parts always recommit to both headers |
| Crossing.AssembledAuthenticates | scripts/core/src/protocol.ts:19-27 | an assembled opening passes every check of the draw once the boundary has been reached and the target is below the DAA limit |
| Crossing.AssembledLinks | scripts/core/src/pass-a.ts:158-175 | an opening is assembled only of three consecutive headers around the boundary, each naming the one before it as selected parent and committing to that one's sequence commitment |
| TxPreimage.BuildPreimage | scripts/core/src/transaction.ts:64-82 | the loops that push parts build the preimage, refusing what validation refuses |
| TxPreimage.PreimageCommits | scripts/core/src/transaction.ts:64-82 | two valid transactions have one id preimage if and only if they agree on version, outpoints, sequences, outputs with bindings, lock time, subnetwork, gas and, where included, payload |
| TxReader.PreimageReads | scripts/core/src/transaction.ts:64-86 | a reader written from the layout reads the preimage of every encodable transaction back as what the id commits to |
| Signing.CheckSigned | scripts/core/src/transaction.ts:91-106 | the passes over indices, scrubbed snapshots and signatures compute their functional account |
| Signing.CheckMeans | scripts/core/src/transaction.ts:91-106 | the check passes if and only if both transactions are valid, the indices are distinct inputs, nothing but the authorised signature scripts differs, and each of those is a 66-byte ordinary signature |
| Stable.SnapshotIsFaithful | scripts/core/src/bytes.ts:71-94 | two plain values have one snapshot if and only if they are equal, object members being unordered |
| Stable.SnapshotPrefix | scripts/core/src/bytes.ts:71-94 | snapshots are a prefix code: equal texts with any continuations have equal values and equal continuations |
| JsonStrings.QuotedReads | scripts/chain/json.mjs:20-34 | a written string literal reads back exactly, whatever follows it |
| JsonStrings.QuotedPrefixFree | scripts/chain/json.mjs:105 | string literals are a prefix code |
| JsonRoundTrip.NumberReads | scripts/chain/json.mjs:36-54 | a written integer reads back as itself, or as its exact decimal string beyond the safe range |
| JsonRoundTrip.RoundTrip | scripts/chain/json.mjs:9-113 | every printable value comes back, big integers as exact decimal strings, if and only if its depth is at most 256; a deeper one is refused with the depth error |
| JsonParser.Parser.String | scripts/chain/json.mjs:20-34 | the method on the shared index reads the literal that the functional reader reads, and stops where it stops |
| JsonParser.Parser.Number | scripts/chain/json.mjs:36-54 | the method on the shared index reads the number that the functional reader reads, or fails with its error code |
| JsonParser.Parser.ReadAny | scripts/chain/json.mjs:55-92 | the mutually recursive methods on the shared index read the value that the functional reader reads at that depth, or fail with its error code |
| JsonParser.Parse | scripts/chain/json.mjs:9-97 | the parser with one moving index equals the functional parser on every text |
| JsonExact.ParsesExactly | scripts/chain/json.mjs:9-97 | the parser takes exactly the texts of a grammar written apart from it, with any layout, escapes, fractions and exponents, nested at most 256 deep, and yields the value that the grammar gives |
| JsonExact.StoredIsKept | scripts/chain/json.mjs:66-77 | a repeated key keeps its first place and takes its last value |
| TxWire.HexReads | scripts/chain/nodes.mjs:385-389 | written bytes read back from their hex text |
| TxWireRoundTrip.SpkReads | scripts/chain/nodes.mjs:385-389 | a script public key reads back from its text |
| TxWireRoundTrip.WireRoundTrip | scripts/chain/nodes.mjs:390-407 | written to the wire, printed, parsed and read back, every valid transaction with budgets is the same transaction |
| WireLayout.ReadsExactly | scripts/chain/nodes.mjs:385-400 | a value reads as a transaction exactly when its members, each under its name, are the fields of that transaction, with the defaults for missing budget, payload and mass |
| WireLayout.UnreadMembers | scripts/chain/nodes.mjs:400-407 | what is written but never read back: no signature operations are counted, nothing is verbose, and there are no other members |
| WireLayout.UintExactly | scripts/chain/json.mjs:115-121 | an amount is a non-negative integer or its canonical decimal text of at most 25 digits |
| Reservations.Journal.PersistIntent | scripts/tracking/reservations.mjs:42-66 | the atomic insert adds the row exactly when every check of the journal at that moment passes, and leaves it alone otherwise |
| Reservations.InsertExactly | scripts/tracking/reservations.mjs:16-66 | an intent is inserted exactly when it is well formed and new, its lease is held, the row it bumps is open over the same inputs and root, and none of its inputs is held by a row of its network outside the chain it bumps |
| Reservations.Journal.SetStatus | scripts/core/src/persistence.ts:48-70 | a status write replaces one row in place and is the update step of a run; what was ever released stays on record |
| Reservations.Journal.Reserved | scripts/tracking/reservations.mjs:16-32 | the loop over rows collects exactly the inputs of unreleased rows of the network outside the exempt family |
| Reservations.StepKeepsFamilies | scripts/tracking/reservations.mjs:42-66 | one step keeps the families apart if and only if the family it joins has one root |
| Reservations.ReservationSafety | scripts/tracking/reservations.mjs:10-66 | over every run of inserts and status updates, never-released rows that share an input are of one family with the same inputs in order if and only if no insert joined a family with a second root |
| Reservations.FreeByRootIsExact | scripts/tracking/reservations.mjs:10-16 | the rows alone decide: an insert that passes keeps the families apart under every past of its rows if and only if its inputs are also free with only the rows of the target's own root exempt |
| Reservations.FreeByRootIsSafe | scripts/tracking/reservations.mjs:10-66 | every run whose inserts meet that condition keeps the families apart in every state, whatever was released and revived |
| Reservations.UniqueIdsAreSafe | scripts/tracking/reservations.mjs:10-66 | every run that records no id twice in a network, names a root only in a replacement and replaces within the network meets that condition throughout |
| FamilyMix.OneProfileIsSafe | scripts/round/engine.mjs:379-387 | under one profile the engine's inserts never mix families, whatever statuses are written |
| FamilyMix.FamiliesCanMix | scripts/round/engine.mjs:588-706 | a concrete run of the engine's own writes, with one id under two profiles, ends with two never-released rows that share an outpoint and belong to different families; its last insert fails the condition |
| AddressBits.FoldPolymod | scripts/wallet/address.mjs:8-20 | the loop on one 40-bit number, with its shifts, masks and exclusive-ors, computes the number of the checksum on five-bit groups |
| AddressBits.StepIsNumberStep | scripts/wallet/address.mjs:10-18 | one step on the 40-bit number is one step on its eight groups |
| Address.StepKeepsState | scripts/wallet/address.mjs:10-18 | a checksum step is injective in its state |
| Address.OneDigitShows | scripts/wallet/address.mjs:8-20 | changing one digit anywhere changes the checksum |
| Address.Conv8to5 | scripts/wallet/address.mjs:22-27 | the bit-buffer loop writes the base-32 digits of the bytes read as one number, padded with zeros |
| Address.Conv5to8 | scripts/wallet/address.mjs:28-32 | the opposite loop writes the bytes of the digits read as one number, the rest dropped |
| Address.CharIsAlphabet | scripts/wallet/address.mjs:6-7 | the characters of the five-bit groups are those of the alphabet in order |
| Address.BytesRoundTrip | scripts/wallet/address.mjs:22-32 | bytes come back from their five-bit groups |
| AddressText.RoundTrip | scripts/wallet/address.mjs:33-53 | an encoded address decodes to its inputs if and only if the version is 0 or 8 and the payload has 32 bytes |
| AddressText.PrefixExactly | scripts/wallet/address.mjs:33-43 | the encoder takes exactly the two network prefixes, and so does the decoder when it is given none |
| AddressText.PrefixGroups | scripts/wallet/address.mjs:8-20 | a network stands in the checksum as the places of its letters in the Latin alphabet |
| AddressText.TrailingIgnored | scripts/wallet/address.mjs:39-53 | an encoded address still decodes with a separator and any lower-case text after it, exactly while the whole has fewer than 200 characters |
| AddressText.OneCharacterShows | scripts/wallet/address.mjs:39-53 | changing one body character of a decodable address to a different one, not the separator, makes it undecodable |
| AddressText.CaseShows | scripts/wallet/address.mjs:39-41 | changing the case of one character makes a decodable address undecodable if and only if another letter fixes the case; otherwise it decodes to the same |
| AddressText.AnyCharacterShows | scripts/wallet/address.mjs:39-53 | under a known prefix any change of one body character, in case or otherwise, other than into the separator is refused |
| AddressText.SeparatorShows | scripts/wallet/address.mjs:39-53 | in a 61-character body a change into the separator is refused too |
| AddressText.EncodedCharacterShows | scripts/wallet/address.mjs:33-53 | in an encoded address any change of any one character after the prefix is refused |
| AddressText.ScriptRoundTrip | scripts/wallet/address.mjs:57-67 | every script that has an address is the script of that address |
| ChainBlocks.Table.ObserveChainBlock | scripts/chain/nodes.mjs:96-108 | handing out an entry keeps the table's invariant, makes a live token, and evicts at most the oldest entry |
| ChainBlocks.Table.NoteChainRemoval | scripts/chain/nodes.mjs:112-121 | a removal, known or not, keeps the invariant and is on record |
| ChainBlocks.Table.BumpUnrecorded | scripts/chain/dual-node.mjs:28-33 | a revision bump that the table is not told about keeps the invariant |
| ChainBlocks.Table.Close | scripts/chain/nodes.mjs:204-213 | closing keeps the invariant and empties the table |
| ChainBlocks.Table.ChainBlockCurrent | scripts/chain/nodes.mjs:109-111 | a token is current if and only if, since it was taken, there was no removal of its hash, no unknown removal, no unrecorded bump, no eviction of it and no close |
| FeeConverge.ConvergeFee | scripts/chain/mass.mjs:82-110 | for any draft builder the tried fees climb strictly from the floor, within the cap and 24 rounds; a returned quote is for the draft of its very fee, covers admission in every mode, and ordering in priority mode and in unclamped load mode |
| FeeConverge.SteadyConverges | scripts/chain/mass.mjs:82-110 | for a builder whose masses do not depend on the fee a quote is returned if and only if the masses fit and the cap pays what the mode asks for; it comes within two rounds, and exactly the fees from the quoted one up meet those conditions |
| FeeConverge.FewFeesConverge | scripts/chain/mass.mjs:82-110 | a builder whose accepted drafts ask for k different fees, k at most 23, is quoted within k + 1 rounds |
| FeeConverge.StairNotQuoted | scripts/chain/mass.mjs:82-110 | a concrete builder that always asks for a little more is given up after 24 rounds, far below its cap |
| FeeConverge.LeastFee | scripts/chain/mass.mjs:69-108 | where a higher fee never asks for less, the quoted fee is the least at or above the floor that covers its own draft |
| FeeConverge.QuoteCovers | scripts/chain/mass.mjs:82-110 | in load mode the fee reaches the estimate or the cap; in every mode it covers the relay floor and the least fee |
| FeeConverge.QuoteWorth | scripts/chain/mass.mjs:82-110 | every quote pays the rate on compute and on half the transient mass, and in priority and unclamped load mode on the storage mass |
| FeeConverge.AdmissionIsLeast | scripts/chain/mass.mjs:82-96 | the standard fee is the least that pays the relay floor, 100,000 and the rate on compute and on the transient mass halved and rounded up |
| FeeConverge.OrderingIsLeast | scripts/chain/mass.mjs:82-96 | the ranking fee is the least that also pays the rate on the storage mass |
| FeeConverge.RequiredIsLeast | scripts/chain/mass.mjs:82-100 | what a mode asks for is the least fee that meets its conditions, given as inequalities on the masses |
| FeeConverge.OrderingCoversAdmission | scripts/chain/mass.mjs:36-52 | ranking never asks less than admission |

## Left out

- BLAKE2b, BLAKE3, SHA-256 and Schnorr signatures: parameters, or bytes of the right length; a wallet's signature is any script.
- Compiled template bytecode, profile pins, artifacts and layout tooling: the `.sil` sources are taken as the contract.
- `actionUnits` and `actionBudget`: provisional calibration; the compute budget is a parameter of `Builders.PrepareAction`.
- `chooseView`: a choice among cached views by `compareProgress`, whose order is proved.
- `assertCompatibleProfile`: every function takes one pinned profile.
- RPC, WebSockets, node pools, the indexer, IndexedDB plumbing, wallets and the user interface: input and output around the
  modelled steps. The atomic insert of the store is one method of `Reservations.Journal`.
- Tx.ValidTransaction: the range checks of `validateTransaction` as one predicate; which of their codes is raised first is not
  modelled.
- Agreement.ContractAndReaderAgree: the reader runs with the input values at hand, as the node has them.
- ContractReader.NodeRules: states what the node's lock opcodes guarantee; their consensus implementation is not modelled.
- Lanes.ClimbLane: proof bytes arrive as bytes; the numeric range checks on JSON arrays of bytes are not modelled.
- ReaderGap.ReaderGapExists: how a network derives the id of a covenant that an output founds is not modelled; the lemma holds
  for every id other than the round's own.
- Crossing.IndexFindsCrossing: candidate and parent are consecutive rows of one chain; fetching the two blocks by hash and
  comparing them with their rows are not modelled.
- Crossing.Scan: a page is its list of headers, already matched with the rows that carry them; re-reading full blocks to detect
  a reorganisation during the search is not modelled.
- Crossing.AssembledAuthenticates: candidate and parent are consecutive rows of one chain, and the two payload roots are given;
  the fetching of blocks by hash and the order in which `payloadRoot` lists the merged blocks are outside the model.
- JsonParser.Parser.Number: fractions and exponents stay tokens, and the range error of a non-finite number is not modelled.
- JsonRoundTrip.RoundTrip: fractions and exponents are kept as tokens, not rounded to binary floating point, and the error for a
  number too large for it is not modelled; `-0`, byte arrays and undefined members are not in the fragment. Objects keep members
  in insertion order, without JavaScript's reordering of integer-like keys.
- JsonExact.ParsesExactly: fractions and exponents stay tokens, `-0` is zero, and the range error of a non-finite number is not
  modelled; which error code an ill-formed text raises is the subject of `JsonParser.Parse`.
- WireLayout.ReadsExactly: hex fields become bytes as they are read, every malformed field raises one code, and members that are
  not texts where a text is expected are refused instead of being converted to one.
- TxWireRoundTrip.WireRoundTrip: hex fields become bytes as they are read, and every malformed field raises one code.
- Stable.SnapshotIsFaithful: numbers are integers and negative zero (`NegZero`, told apart from 0); finite numbers that are not
  integers are left out.
- Stable.SnapshotPrefix: the same numbers as `Stable.SnapshotIsFaithful`.
- Signing.CheckSigned: an absent and a null covenant are one value.
- Signing.CheckMeans: an absent and a null covenant are one value.
- Reservations.Journal.PersistIntent: the submit lease is a boolean, and journal rows that are not transactions are not modelled.
- Reservations.ReservationSafety: likewise.
- Reservations.Journal.SetStatus: any status may follow any other; the engine's own restrictions on status changes are not part
  of the journal. Theorems about all runs hold for runs that keep to them.
- FamilyMix.FamiliesCanMix: `EngineWrites` lists the kinds of status write that the run needs, not all that the engine makes; what
  the node answers, and so which of them happens, is not modelled.
- FeeConverge.ConvergeFee: the masses of a draft are given by the draft builder, and the rate is an exact fraction.
- AddressText.RoundTrip: letter case is that of ASCII; the few other characters that JavaScript folds to an ASCII letter are not
  modelled.
- AddressText.OneCharacterShows: changes in case alone and into the separator are the subject of `AddressText.CaseShows` and
  `AddressText.SeparatorShows`.
- AddressText.SeparatorShows: a separator cuts the body there, since the decoder ignores whatever follows a second one; a
  decodable body of 62 characters, which no encoder writes, may still decode when cut at its last.
- ChainBlocks.Table.NoteChainRemoval: whether all removed hashes are well formed is a parameter, and listeners are not modelled.
