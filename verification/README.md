# The BTC/Grin atomic swap, modelled and proved

This project models a two-party atomic swap between Bitcoin and Grin: Alice (the Mimblewimble side) owns Grin and
wants bitcoin, Bob (the Bitcoin side) owns bitcoin and wants Grin. Both run the same program. They lock their funds
(`lock`), then either execute the swap (`execute`) or take their funds back (`cancel`), talking over a TCP stream
and each writing a swap slate to disk when a command succeeds.

Everything is stated for all inputs: any input coins, keys, heights, balances, node answers, any interleaving of the
two processes, and, in the transition system, any crash and any wrongly reported node error.

## How it is built

| layer | modules | content |
|---|---|---|
| algebra | `Curve`, `Transactions` | scalars modulo the group order, points, Pedersen commitments, linear (aggregated and adapted) signatures over an arbitrary challenge function, kernels, range proofs, validity of a transaction |
| slates | `Slates`, `SlateProofs`, `Tables`, `Wire` | the interactive transaction slate, its participant table, partial signatures, finalisation, the version 4 wire form |
| coins | `Coins`, `CoinProofs`, `SharedCoin`, `Checks` | spending, shared spending, receiving, adaptor receiving, shared receiving in three rounds, finishing; what each operation has checked whatever the peer sent |
| builders | `Stages`, `Builders`, `Contract`, `SigningOrder`, `Endpoints` | honest runs of dBuild, dSharedOut, dSharedInp and dContract over the wire, and exactly when they succeed |
| the line | `Tcp`, `Streams`, `Decimal` | programs of sends and receives with an ACK per message over two FIFO queues of lines |
| Bitcoin | `Script`, `Bitcoin` | an interpreter for the opcodes of the lock script; lock, redeem and refund transactions |
| phases | `SwapState`, `Locking`, `Execution`, `Commands` | the setup, execution and refund phases as endpoint programs, the handshake and its dispatch |
| the system | `Swap`, `SwapSafety`, `SwapOrder`, `SwapTheorems`, `SwapExclusion`, `SwapTime`, `SwapRuns`, `SwapLimits`, `SwapRefunds`, `SwapHeights`, `Possible`, `Counterexamples` | two processes, two disks, one session, both chains, crashes; safety over whole runs, and the runs that show its limits |
| code form | `TxSlates`, `GrinCore`, `ProofContexts`, `GrinTx`, `Phases`, `Listener` | the objects and loops of the program: a slate and a proof context edited in place, coin operations with their loops, endpoints on a stream, phases updating a swap slate, the accept loop. Each method is proved against the function the theorems are about |

A returned error and a panic both end a command without writing the slate, so both are an `Err`. A party that has
stopped sends `Closed` lines: the peer reads them as the end of the stream. Random draws, node answers and the
libraries (challenge hash, fee function, proof challenge, Bitcoin signatures, encodings, transaction ids) are
parameters. The stated assumptions on them are: fees are positive and do not fall with another output, commitments and
scripts read back from their encodings, a Bitcoin signature checks under its own key, drawn keys and nonces do not
vanish, nonces differ, and key and nonce sums do not vanish. `Possible` builds libraries and parties that meet all of
them, and a run of the whole system from a fresh swap to two finished slates.

## What the code does not do

These expected properties turned out false of the code. Each has a theorem that says exactly when the code does meet
the property, so that the failing family is visible in the condition, and `Counterexamples` and `SwapLimits` hold
concrete inputs and runs that fail (`SwapRefunds` holds two more).

- A time-locked dBuild or dContract fails: the wire turns a height-locked kernel into a plain one and nobody rebuilds
  it before finalising. Unless the challenge hash happens to take both kernel messages for the same, a run succeeds
  exactly without a time lock (`Builders.DBuildPlainOnly`, `Contract.ContractPlainOnly`,
  `Wire.HeightLockedLosesSignature`, `Counterexamples.TimelockedBuildFails`,
  `Counterexamples.TimelockedContractFails`).
- Where fees grow with the outputs, dSharedInp and dContract succeed only when the shared value is exactly fund value
  plus fee: a surplus adds a change output the one-output fee does not cover, a shortfall is accepted by `spend_coins`
  and then does not balance (`Builders.SharedInpExact`, `Contract.ContractExact`, `Counterexamples.OnlyExactSpends`).
  The swap always calls them with the exact value.
- Locking fails without a change coin on the Grin side (it is unwrapped for printing) and unless Bob has exactly one
  Bitcoin input (all inputs are spent, only the first is signed) (`Locking.LockTalkExact`,
  `Counterexamples.NoChangeLockFails`, `Counterexamples.TwoInputsLockFails`).
- Inputs sharing a commitment are compared as text, so two spellings of one commitment are accepted: a list is accepted
  with distinct commitments exactly when its texts, brought into the wallet's own form, are distinct
  (`CoinProofs.DuplicatesExact`, `CoinProofs.CanonicalDistinct`, `Counterexamples.SpeltTwice`).
- Each read makes a buffered reader for one line and drops it; if it may lose what it read ahead, conversations are
  free of deadlock exactly when all messages go one way (`Tcp.ReadAheadExact`, `Tcp.TurnaroundSticks`).
- The check before listening forgets the fee: a listener that gives one Bitcoin input passes it and then fails setup
  exactly when the input covers the amount but not the fee (`Listener.CheckForgetsFee`).
- A refund with lock time zero never satisfies the lock script: its input is final (`Bitcoin.RefundSpendsExact`).
- After the funding transaction is pushed, Alice's refund exists only in memory until the command ends. She keeps it
  exactly when her process does not stop in between (`SwapLimits.RefundKept`, `SwapLimits.RefundLost`).
- The swap is not atomic under a crash: after Bob's contract is out, Alice keeps the witness exactly when her process
  does not stop between receiving the last slate and publishing her redeem (`SwapLimits.WitnessKept`,
  `SwapLimits.WitnessLost`).
- A party cannot always refund after a setup: with no process left, a refund can still be published exactly when both
  slates are equal and say SETUP; more generally exactly when both say SETUP or a cancellation is under way with the
  party's process alive (`SwapRefunds.FreeRefundExact`, `SwapRefunds.RefundReachableExact`). Bob's refund also needs
  the amount to cover the fee and a lock time of 32 bits.
- Contract and refund can both be published: after the contract a refund can still follow exactly when neither slate
  says FINISHED and, if a refund has been written, the party's process is still at its own
  (`SwapRefunds.RefundAfterContractExact`, `SwapRefunds.RefundAfterContract`).

The comment above `get_lock_pub_script` shows the VERIFY forms of the signature opcodes; the code uses OP_CHECKSIG and
OP_CHECKMULTISIG, and so does the model. `tx_from_slate_v4` treats feature number 1 as height-locked while the slate
uses 2; the model keeps that.

## Model

| member | source | states |
|---|---|---|
| Curve.SignVerifies | src/grin/grin_core.rs:454-475 | a partial signature made with an extra secret is accepted under an extra public key exactly when that key belongs to the secret |
| Curve.ExtractionExact | src/grin/grin_core.rs:790-796 | whoever made them, a signature accepted under X and a plain one with the same nonce, key and challenge differ by exactly the logarithm of X |
| Curve.AdaptedIsNotPlain | grin-wallet/libwallet/src/slate.rs:609-629 | a signature accepted under X is accepted as a plain one exactly when X is the identity |
| SlateProofs.AggregationExact | grin-wallet/libwallet/src/slate.rs:643-664 | for any number of participants, accepted partial signatures sum to a valid signature under the key sum exactly when their nonces sum to the nonce sum of the table |
| SlateProofs.AddEntry | grin-wallet/libwallet/src/slate.rs:509-545 | on an unsigned table with fresh nonces, round 1 appends exactly one unsigned entry |
| SlateProofs.SignEntry | grin-wallet/libwallet/src/slate.rs:416-449 | on an honestly built table round 2 always succeeds and puts the participant's own signature into its own entry and nowhere else |
| SlateProofs.HonestSignature | grin-wallet/libwallet/src/slate.rs:643-664 | a fully and honestly signed table always passes the partial checks and the completed-signature check |
| SlateProofs.HonestFinalize | grin-wallet/libwallet/src/slate.rs:673-718 | an honestly signed slate finalises exactly when its one kernel pays the fee of its shape, as do the amount and fee it names, and kernel, proofs and balance are right |
| Tables.TableInvariant | grin-wallet/libwallet/src/slate.rs:416-545 | over any sequence of round-1, round-2 and replacement steps, failed ones included: (key, nonce) pairs stay unique, a signed participant stays signed, entries nobody re-adds keep their order |
| Tables.ReAdding | grin-wallet/libwallet/src/slate.rs:509-545 | re-adding a participant moves its one entry, with its signature, to the end and changes nothing else |
| Wire.CarryShape | grin-wallet/libwallet/src/slate.rs:779-858 | a trip over the wire keeps every field, inputs and outputs, resets the offset to the slate's and recomputes the kernel |
| Wire.RoundTripExact | grin-wallet/libwallet/src/slate.rs:944-1054 | exactly which slates come back from the wire unchanged |
| Wire.PlainRoundTrip | grin-wallet/libwallet/src/slate.rs:990-1054 | a finalised plain slate comes back whole: inputs, outputs, offset and the full kernel |
| Wire.HeightLockedLosesKernel | grin-wallet/libwallet/src/slate.rs:1017-1031 | the kernel any slate comes back with: plain unless the feature number is 1, the key sum as excess, and a signature only if the table completes one for a plain slate |
| Wire.HeightLockedLosesSignature | grin-wallet/libwallet/src/slate.rs:1004-1031 | an honestly signed height-locked slate comes back without a signature exactly when for some participant the challenges of the two kernel messages act differently |
| Wire.RebuiltAgreement | src/grin/grin_tx.rs:301-309 | whatever the features, rebuilding the kernel and finalising again yields the very transaction the peer finalised |
| Wire.TxFromSlateV4 | grin-wallet/libwallet/src/slate.rs:990-1054 | the loop that sorts commitments into inputs and outputs computes the specified transaction |
| CoinProofs.SpendCoinsExact | src/grin/grin_core.rs:102-228 | a change coin exists exactly for a positive surplus, is worth it and opens to its owner; with one more output of the fund value the values balance exactly when nothing is short |
| CoinProofs.GuardExact | src/grin/grin_core.rs:102-160 | the inputs pass exactly when there are any, all are readable, their texts differ, the fund value is positive, values stay below 2^63, the fee is positive and below 2^40, and the total covers the value, with the fee where more than one output is announced |
| CoinProofs.DuplicatesExact | src/grin/grin_core.rs:107-127 | an accepted list has distinct commitments exactly when its texts, in the wallet's own spelling, are distinct |
| CoinProofs.CanonicalDistinct | src/grin/grin_core.rs:107-127 | a list of texts in the wallet's own spelling is accepted only with distinct commitments |
| CoinProofs.SpellingsExact | src/grin/grin_core.rs:107-127 | over all lists a shared commitment is never accepted exactly when no commitment has two texts |
| CoinProofs.TwoTexts | src/grin/grin_core.rs:84-228 | any two texts of one commitment give two coins that spend_coins accepts together |
| CoinProofs.SpendBuilds | src/grin/grin_core.rs:129-227 | the slate handed over has one unsigned entry and blinding factors that lack only the other owners' shares |
| CoinProofs.DSpendBuilds | src/grin/grin_core.rs:240-315 | the second spender's entry supplies exactly the missing share |
| CoinProofs.AddReceiverBuilds | src/grin/grin_core.rs:325-375 | the receiver's step adds its output, a kernel with the slate's features and its entry, and keeps the blinding ledger |
| Checks.ForgedRefused | src/grin/grin_core.rs:249-255 | nobody spends, receives, signs or finalises on top of an output whose range proof fails |
| Checks.FinishedValid | src/grin/grin_core.rs:691-781 | what fin_tx hands out as final is a valid transaction, whoever had a hand in the slate |
| Checks.NothingCreated | grin-wallet/libwallet/src/slate.rs:703-716 | in a valid transaction every output is worth between zero and all inputs, below 2^64, and outputs and fees add up to exactly the inputs |
| Checks.UnexplainedRefused | grin-wallet/libwallet/src/slate.rs:609-629 | nobody signs or finalises a slate holding a partial signature its sums and features do not explain, and nobody signs under X one that X does not explain |
| Checks.SignedForWitness | src/grin/grin_tx.rs:342-372 | for arbitrary slates from the peer: once Alice has signed under X, any finalisable slate over the same table and message with the same nonce in entry 2 lets her read the logarithm of X |
| Checks.DSpendExact | src/grin/grin_core.rs:240-315 | a second spender joins exactly the slates that name its amount, number of inputs and lock, whose outputs are proven, with a key and nonce that do not vanish |
| Checks.SetSigExact | grin-wallet/libwallet/src/slate.rs:440-449 | storing a signature changes the first slot of its participant only, and fails exactly when the participant is missing from a table shorter than announced |
| Checks.ReplaceExact | src/grin/grin_core.rs:757-767 | replacing a signature changes the first slot that holds it and nothing when none does, and fails exactly when it is missing from a table shorter than announced |
| Checks.Round2Exact | grin-wallet/libwallet/src/slate.rs:416-451 | round 2 signs exactly the slates whose partial signatures pass, whose sums and features stand and on which the signer, with a key and nonce that do not vanish, is not missing |
| Checks.ZeroRefused | src/grin/grin_core.rs:325-494 | a key or nonce that vanishes joins nothing, receives nothing and signs nothing |
| Checks.FinalizeExact | grin-wallet/libwallet/src/slate.rs:643-718 | exactly which slates, whoever built them, are finalised: sums, features, every signature, the aggregate, both fee checks, and validity of the completed transaction |
| CoinProofs.KernelUnderOtherFeatures | grin-wallet/libwallet/src/slate.rs:673-718 | the aggregate signature verifies under other kernel features exactly when the two challenges act alike on the key sum |
| SharedCoin.SharedCoinOpens | src/grin/grin_core.rs:508-678 | after the three rounds both hold one commitment that opens to the value under the sum of the shares; T1, T2 and tau_x are the sums of both contributions; the proof verifies |
| Stages.FinTxExact | src/grin/grin_core.rs:691-781 | the last signer can always sign and finalises exactly the slates whose one kernel pays the fee and signs the right message, and whose balance and blinding ledger are right |
| Stages.CloseStage | src/grin/grin_core.rs:691-781 | closing a payment succeeds exactly when there is no shortfall, the fee covers the outputs and the kernel carries the signed message; the result is valid and survives the wire when plain |
| Builders.DBuildExact | src/grin/grin_tx.rs:45-105 | an honest dBuild run succeeds exactly when the inputs pass (spelt out) and the wire did not change the kernel message; a valid transaction spends just these coins to the fund value and the surplus, and the coins both parties keep open their outputs |
| Builders.DBuildPlainOnly | src/grin/grin_tx.rs:45-105 | unless the two kernel messages share their challenge, an honest dBuild run succeeds exactly when the inputs pass (spelt out) and there is no time lock |
| Builders.SharedOutExact | src/grin/grin_tx.rs:116-209 | an honest dSharedOut run succeeds exactly when the inputs pass (spelt out), whatever the time lock; a valid transaction under the agreed kernel pays the fund value to one coin of which each keeps a share, and the surplus to a change coin its owner can open |
| Builders.SharedInpExact | src/grin/grin_tx.rs:221-310 | an honest dSharedInp run succeeds exactly when the value covers fund and fee with no output the fee does not cover; both hold the same valid transaction, spending just the shared coin under the agreed lock, and the receiver's coin opens its output |
| Contract.ContractExact | src/grin/grin_tx.rs:323-429 | an honest dContract run succeeds exactly when X is Bob's statement, the value is right and the kernel message unchanged; Alice extracts x, the transaction spends just the shared coin, and the coin Bob keeps opens its output |
| Contract.ContractPlainOnly | src/grin/grin_tx.rs:323-429 | unless the two kernel messages share their challenge, an honest dContract run succeeds exactly when X is Bob's, guard, value and fee are right and there is no time lock |
| Contract.AdaptedNeverFinalised | grin-wallet/libwallet/src/slate.rs:609-664 | a slate holding a signature accepted under X, X not the identity, is never finalised and nobody can sign it in round 2 |
| Contract.RevealedWitness | src/grin/grin_tx.rs:342-372 | any later finalisable slate over the same table with the same nonce in that entry yields the logarithm of X |
| Contract.SignOverAdapted | src/grin/grin_core.rs:709-754 | Alice signs over an adapted signature exactly when it was made for her X |
| Contract.ReplaceAdapted | src/grin/grin_core.rs:757-767 | the replacement loop finds the adapted signature in entry 2 and restores an honest table |
| SigningOrder.BuildOrder | src/grin/grin_tx.rs:45-105 | in dBuild nobody signs before both entries are there |
| SigningOrder.SharedOutOrder | src/grin/grin_tx.rs:116-209 | in dSharedOut nobody signs before all three entries are there |
| SigningOrder.SharedSpendOrder | src/grin/grin_tx.rs:221-310 | in the builders that spend a shared coin the table is complete and unsigned when the first signature is made |
| SigningOrder.ReceiverIsThird | src/grin/grin_tx.rs:342-370 | in every completed contract run the receiver's entry is at index 2 of both slates Alice reads, first adapted, then plain |
| Endpoints.SharedOutByEndpoints | src/grin/grin_tx.rs:116-209 | the two endpoints joined by the wire are the dSharedOut builder |
| Endpoints.SharedInpByEndpoints | src/grin/grin_tx.rs:221-310 | the two endpoints joined by the wire are the dSharedInp builder |
| Endpoints.ContractByEndpoints | src/grin/grin_tx.rs:323-429 | the two endpoints joined by the wire are the dContract builder |
| Tcp.NextInv | src/net/tcp.rs:13-37 | every half-step of either endpoint keeps the invariant that ties both programs, inboxes and queues to the lockstep conversation |
| Tcp.Progress | src/net/tcp.rs:13-37 | short of the end somebody can move, no ACK is read as a message or the other way round, and work shrinks by one |
| Tcp.DualProgramsComplete | src/net/tcp.rs:13-37 | dual programs of any length never deadlock under any schedule and end after exactly four half-steps per message |
| Tcp.FinishedRunsAgree | src/net/tcp.rs:13-37 | every finished schedule delivers the same conversation, each message at the position it was sent for, and empty queues |
| Tcp.HeardSoFar | src/net/tcp.rs:13-37 | at every moment each endpoint has heard exactly its part of the conversation up to where it is |
| Tcp.EndHeard | src/net/tcp.rs:13-37 | an endpoint at its end has heard everything whatever became of the other; if it had the last word, so has the other |
| Tcp.TalkAppend | src/net/tcp.rs:13-37 | programs run one after the other talk as each pair would alone |
| Tcp.ReadAheadExact | src/net/tcp.rs:46-58 | with a reader that may drop what it read ahead, dual programs are free of deadlock exactly when all messages go one way |
| Tcp.TurnaroundSticks | src/net/tcp.rs:46-58 | at every turn of direction there is a schedule in which such a reader leaves both sides waiting for ever |
| Decimal.ParsePrint | src/swap/protocol.rs:142-146 | a printed height reads back as itself exactly when it fits a signed 64-bit number |
| Decimal.ParseExact | src/swap/protocol.rs:142-146 | exactly which texts are read as which signed 64-bit number: its usual form after any zeros and a sign that suits it |
| Script.LockScriptExact | src/bitcoin/btcroutines.rs:167-189 | for every stack and spend the lock script accepts exactly on the refund branch with a valid signature and the lock time met, or on the redeem branch with both signatures in order over a dummy |
| Script.NumberReadsBack | src/bitcoin/btcroutines.rs:170-171 | a pushed number decodes to itself |
| Script.EncodingExact | src/bitcoin/btcroutines.rs:170-171 | of all byte strings the pushed one is the only minimal one that decodes to the number |
| Script.LayoutExact | src/bitcoin/btcroutines.rs:167-189 | the lock script is these thirteen opcodes with the one minimal encoding of the lock time, and nothing else |
| Bitcoin.RedeemChecks | src/bitcoin/btcroutines.rs:278-318 | the redeemer's data satisfies the lock output exactly when its two signatures check under the receiver's key and X in this order |
| Bitcoin.RedeemSpends | src/bitcoin/btcroutines.rs:278-318 | the receiver's key and the logarithm of X always satisfy it, and no other keys do where signatures check under their own keys only |
| Bitcoin.RefundSpendsExact | src/bitcoin/btcroutines.rs:324-359 | the refund data satisfies the lock output exactly for positive 32-bit lock times |
| Bitcoin.P2pkhSpends | src/bitcoin/btcroutines.rs:219-251 | every input signed with the key of its output satisfies it, and nothing but the scripts changes |
| Bitcoin.SigningKeepsPreimage | src/bitcoin/btcroutines.rs:278-359 | signing leaves outpoints, sequences, outputs, version and lock time of all inputs, and so every signature hash, as they were |
| Bitcoin.BitcoinConserved | src/bitcoin/btcroutines.rs:59-149 | inputs equal change plus spent value plus two fees across lock and spend; the spend exists exactly when the amount covers the fee |
| Bitcoin.SpendLockExact | src/bitcoin/btcroutines.rs:112-149 | a spend of the lock exists exactly when the coin is spent whole and covers the fee; it spends just that outpoint to the one key and is final at once unless given a lock time |
| Bitcoin.CreateLockTransaction | src/bitcoin/btcroutines.rs:59-104 | succeeds exactly when the inputs, below 2^64 in all, cover amount and fee; the transaction spends each input's own outpoint, final and unlocked, pays the amount to the lock script and the rest less the fee as change |
| Bitcoin.SignP2pkhTransaction | src/bitcoin/btcroutines.rs:219-251 | the signing loop signs every input in place of its empty script, leaving all else as it was, exactly when there are enough scripts and keys |
| Bitcoin.SignLockTransactionRedeemer | src/bitcoin/btcroutines.rs:278-318 | the loop fills in the redeem data of one input and copies the rest |
| Bitcoin.SignLockTransactionRefund | src/bitcoin/btcroutines.rs:324-359 | the loop fills in the refund data of one input and copies the rest |
| SwapState.VerifyFunds | src/swap/protocol.rs:107-125 | at most 120 answers are asked for, and it succeeds exactly when the first positive one is the agreed amount |
| SwapState.InitExact | src/commands/cmd_types/init.rs:32-115 | a fresh slate, field by field: amounts by currency, which side offers, the minutes in blocks of each chain, nothing agreed yet; none for equal currencies |
| SwapState.TimingExclusion | src/swap/protocol.rs:549-580 | over non-decreasing heights, execution is possible exactly with 60 Grin and 6 Bitcoin blocks left and a refund exactly past both locks, so a refund lies at least 61 and 7 blocks after any execution |
| Locking.LockProgramsDual | src/swap/protocol.rs:63-182 | the two setup programs are dual over all fifteen messages |
| Locking.LockConversation | src/swap/protocol.rs:63-182 | each message of the finished setup conversation is what its sender makes of what it had received |
| Checks.VerifyExact | src/swap/protocol.rs:60-146 | whatever the peer writes, Alice goes on exactly with two keys, a readable lock time, an id, the address she computes herself, the agreed balance and a lock height in 63 bits; and what she then records |
| Checks.LockChecked | src/swap/protocol.rs:49-189 | whatever slates come from the peer, the funding Alice pushes and the refund she keeps are valid transactions, and she has verified the lock |
| Checks.BtcLockChecked | src/swap/protocol.rs:202-329 | Bob completes setup only with a non-negative lock height he could read and a refund he has finalised into a valid transaction |
| Checks.ContractChecked | src/swap/protocol.rs:429-454 | whatever slates come from the peer, Bob pushes only a valid contract and only with an hour left |
| Locking.FundExact | src/swap/protocol.rs:243-301 | Bob's funding succeeds exactly with one input covering amount and fee and a lock height in 63 bits; it spends that input's own outpoint, pays amount and change, and Bob records both outputs |
| Locking.FundSpendsInput | src/swap/protocol.rs:269-281 | the lock transaction spends the outpoint of Bob's one input and satisfies its script |
| Locking.LockTalkExact | src/swap/protocol.rs:49-329 | exactly when setup succeeds on either side, in terms of inputs, balances and heights; then equal public slates with the heights plus the time locks, a lock transaction that spends Bob's own input, a valid funding transaction and refund, and change and refund coins their owners can open |
| Locking.LockingExact | src/swap/protocol.rs:49-329 | the same for every finished schedule of the two programs |
| Execution.ExecProgramsDual | src/grin/grin_tx.rs:323-429 | the two execution programs are dual |
| Execution.ExecutionExact | src/swap/protocol.rs:343-454 | on a locked swap, under every schedule, each side completes exactly when both have 60 Grin and 6 Bitcoin blocks left and its node accepts; x is the logarithm of pub_x, the redeem spends Bob's output, the contract is valid, and each keeps the coin it was paid |
| Execution.TimesExact | src/swap/protocol.rs:549-580 | both time checks on any slate: lock heights present, 60 and 6 blocks left, or both passed |
| Execution.EndToEnd | src/swap/protocol.rs:202-416 | lock then execute under any two schedules: the lock spends Bob's own input, the extracted witness is Bob's x, the redeem spends the exact output Bob funded and meets its script, every coin kept is an output paid to its owner's key, values add up, final slates agree |
| Execution.RefundExact | src/swap/protocol.rs:464-538 | exactly when each refund goes out (both heights past the agreed ones), what it spends, that it pays Alice's own coin or Bob's fresh key and is recorded as such, and that Bob's meets the script exactly for a positive lock time |
| Commands.DispatchExact | src/commands/cmd_types/listen.rs:67-118 | the connecting side enters a phase exactly on equal slates of the right status, the listener then plays the complementary role; and exactly when the listener acts alone |
| Commands.NextHandshake | src/commands/cmd_types/execute.rs:39-61 | after setup the next handshake succeeds exactly for execution and cancellation, after those for nothing |
| Commands.LockSessionTalk | src/commands/cmd_types/lock.rs:38-61 | handshake plus setup is dual over its whole length and the phase hears what it would hear alone |
| Commands.ExecSessionTalk | src/commands/cmd_types/execute.rs:37-61 | handshake with command word plus phase is dual over its whole length and the phase hears what it would hear alone |
| Commands.SessionsDual | src/commands/cmd_types/listen.rs:67-112 | whichever side connects, the setup and execution sessions are dual |
| SwapSafety.StepKeeps | src/main.rs:191-196 | every step of the system, crashes and wrong node reports included, keeps the invariant over disks, session and lines |
| SwapSafety.OutcomeAgreement | src/main.rs:191-196 | in every run persisted statuses only move INITIALIZED, SETUP, then FINISHED or FAILED; never FINISHED on one side and FAILED on the other; past INITIALIZED the slates agree in all but status |
| SwapSafety.DivergenceIsPermanent | src/swap/slate.rs:74-88 | once no process is left and the slates differ, nothing is ever published or written again; the exact converse for refunds is SwapRefunds.FreeRefundExact |
| SwapOrder.OrderKept | src/swap/protocol.rs:107-182 | every step keeps what each published event rests on |
| SwapTheorems.FundingSafe | src/swap/protocol.rs:107-182 | whenever the funding was pushed, Bob's lock was published before, spends his own input, meeting its script, and pays the agreed amount; Alice's node had shown that amount, and she held a valid refund at exactly her lock height with a coin that opens it |
| SwapTheorems.ContractSafe | src/swap/protocol.rs:446-448 | whenever the contract was pushed, Alice's process had already received what yields the logarithm of pub_x, the contract is valid, and the coin Bob keeps opens its output |
| SwapTheorems.RedeemSafe | src/swap/protocol.rs:380-400 | whatever Alice publishes as redeem spends the output Bob funded, is final at once, meets its script and pays the coin she keeps |
| SwapTheorems.RefundSafe | src/swap/protocol.rs:464-538 | every published refund is final at its heights and spends the right coin; Alice's pays the coin she keeps, Bob's pays his fresh key, and the coin he records is that output |
| SwapExclusion.ExecutionExcludesRefund | src/swap/protocol.rs:549-580 | in every run, with each party checking at heights of its own, refunds lie 61 Grin and 7 Bitcoin blocks past every start of an execution, nothing is executed after a refund, and FINISHED on either side means no refund was published |
| SwapTime.ShortSwapNeverExecutes | src/commands/cmd_types/init.rs:32-44 | a swap initialised with under sixty minutes never executes in any run |
| SwapHeights.StartHeightsExact | src/swap/protocol.rs:549-562 | from any run with both slates at SETUP, either party can still start executing at later heights exactly when 60 Grin and 6 Bitcoin blocks are left |
| SwapHeights.ContractHeightsExact | src/swap/protocol.rs:429-454 | from there the contract can still be published exactly when both parties, at the heights they will be told, have that much left |
| SwapHeights.MinutesExact | src/commands/cmd_types/init.rs:32-44 | in the minutes given to init: execution can start exactly up to 60 Grin and 6 Bitcoin blocks before the lock heights, refunds exactly after them |
| SwapLimits.RefundKept | src/swap/protocol.rs:178-184 | Alice loses a refund she holds exactly when her process stops between push and write |
| SwapLimits.RefundHeld | src/swap/protocol.rs:178-184 | in every run without such a stop she holds it from the push on |
| SwapLimits.RefundLost | src/swap/protocol.rs:178-184 | for every pair of parties there is a run that loses it for good |
| SwapLimits.WitnessKept | src/swap/protocol.rs:365-400 | Alice loses the witness she has heard exactly when her process stops before her redeem is published |
| SwapLimits.WitnessLost | src/swap/protocol.rs:365-400 | for every pair of parties there is a run in which the contract is out, Bob's slate says FINISHED and the witness is lost for good |
| SwapLimits.SwapCompletes | src/swap/protocol.rs:343-454 | for every pair of parties meeting the conditions there is a run to two equal FINISHED slates |
| SwapRefunds.RefundReachableExact | src/swap/protocol.rs:464-538 | after any run past setup, each party can still publish its refund exactly when both slates say SETUP or a cancellation is under way with its process alive (Bob's must be buildable) |
| SwapRefunds.RefundHeightsExact | src/swap/protocol.rs:464-580 | at exactly which heights each party can still publish its refund: past both locks agreed on, from an open state |
| SwapRefunds.FreeRefundExact | src/commands/cmd_types/cancel.rs:38-60 | with no process left and a slate written, a refund can still be published exactly when the slates are equal and say SETUP |
| SwapRefunds.RefundAfterContractExact | src/swap/protocol.rs:446-449 | after the contract was pushed a refund can still follow exactly when neither slate says FINISHED and, if a refund has been written, the party's process is still at work |
| SwapRefunds.RefundClosed | src/swap/protocol.rs:464-477 | for every such pair there is a run with the contract out and neither slate FINISHED in which Bob's refund can never follow, because Alice's refund is written and his process is gone |
| SwapRefunds.RefundAfterContract | src/swap/protocol.rs:446-449 | for every such pair there is a run with both slates at SETUP in which the contract and then the Bitcoin refund are published |
| Possible.SwapPossible | src/swap/protocol.rs:49-454 | the assumptions can be met: a run from a fresh swap to two finished slates |
| Counterexamples.TimelockedBuildFails | src/grin/grin_tx.rs:45-77 | a concrete height-locked dBuild run with good inputs that fails |
| Counterexamples.TimelockedContractFails | src/grin/grin_tx.rs:392-429 | a concrete height-locked dContract run on a coin of exactly the right value that fails |
| Counterexamples.SpeltTwice | src/grin/grin_core.rs:84-228 | a library that reads either case of a letter, and one commitment in two spellings that spend_coins accepts together |
| Counterexamples.OnlyExactSpends | src/grin/grin_tx.rs:221-257 | with a growing fee, of all the values spend_coins accepts for a concrete shared coin only value less fee goes through |
| Counterexamples.NoChangeLockFails | src/swap/protocol.rs:157-161 | concrete inputs worth exactly amount and fee pass spend_coins and make the setup fail |
| Counterexamples.TwoInputsLockFails | src/swap/protocol.rs:269-279 | two concrete Bitcoin inputs that cover amount and fee make the setup fail |
| TxSlates.TxSlate.UpdateKernel | grin-wallet/libwallet/src/slate.rs:357-364 | replaces the kernel by one with the slate's features; nothing changes on error |
| TxSlates.TxSlate.AddParticipantInfo | grin-wallet/libwallet/src/slate.rs:509-545 | the filter loop removes the participant's entries, keeps a signature found, appends one entry |
| TxSlates.TxSlate.FillRound1 | grin-wallet/libwallet/src/slate.rs:368-373 | adds the caller's entry |
| TxSlates.TxSlate.VerifyPartSigs | grin-wallet/libwallet/src/slate.rs:609-624 | the loop accepts exactly when every signature present verifies against the sums of the table |
| TxSlates.TxSlate.SetSig | grin-wallet/libwallet/src/slate.rs:440-449 | the slot loop stores a signature in the first matching entry, and stops on a slot past the table |
| TxSlates.TxSlate.FillRound2 | grin-wallet/libwallet/src/slate.rs:416-451 | checks, signs and stores; nothing changes on error |
| TxSlates.TxSlate.FinalizeSignature | grin-wallet/libwallet/src/slate.rs:643-664 | sums the signatures present and checks the result |
| TxSlates.TxSlate.FinalizeTransaction | grin-wallet/libwallet/src/slate.rs:673-718 | stores the final transaction only if it validates |
| TxSlates.TxSlate.Finalize | grin-wallet/libwallet/src/slate.rs:454-460 | both steps in order |
| GrinCore.ScanInputs | src/grin/grin_core.rs:106-115 | the nested loops compute the 64-bit total and whether two texts coincide |
| GrinCore.CollectInputs | src/grin/grin_core.rs:145-154 | the loop collects the inputs and the negated blinding sum, or stops on an unreadable commitment |
| GrinCore.VerifyOutputs | src/grin/grin_core.rs:249-255 | the loop accepts exactly when every output's proof verifies |
| GrinCore.SpendCoins | src/grin/grin_core.rs:84-228 | computes spend_coins, error cases in order; CoinProofs.GuardExact says which inputs pass |
| GrinCore.DSpendCoins | src/grin/grin_core.rs:240-315 | computes d_spend_coins |
| GrinCore.RecvCoins | src/grin/grin_core.rs:325-385 | computes recv_coins |
| GrinCore.AptRecvCoins | src/grin/grin_core.rs:398-494 | computes apt_recv_coins; Contract.ContractExact says what the stored coin is |
| GrinCore.ReplaceSig | src/grin/grin_core.rs:757-767 | the loop replaces the first occurrence of a signature |
| GrinCore.SignAdapted | src/grin/grin_core.rs:709-754 | the loop checks every signature present under the extra key, then signs |
| GrinCore.FinTx | src/grin/grin_core.rs:691-781 | computes fin_tx |
| GrinCore.ExtWitness | src/grin/grin_core.rs:790-796 | returns the logarithm of X for any pair accepted with and without X |
| ProofContexts.MPBPContext.AddCommit | src/grin/grin_routines.rs:85-90 | adds a commitment |
| ProofContexts.MPBPContext.AddT1 | src/grin/grin_routines.rs:92-99 | the first contribution sets T1, later ones are added |
| ProofContexts.MPBPContext.AddT2 | src/grin/grin_routines.rs:101-108 | the first contribution sets T2, later ones are added |
| ProofContexts.MPBPContext.AddTauX | src/grin/grin_routines.rs:110-112 | adds a tau_x share |
| ProofContexts.MPBPContext.Round1 | src/grin/grin_routines.rs:247-273 | adds this party's T1 and T2 |
| ProofContexts.MPBPContext.Round2 | src/grin/grin_routines.rs:286-307 | adds this party's tau_x |
| ProofContexts.DRecvCoinsR1 | src/grin/grin_core.rs:508-557 | computes round 1 of the shared receive |
| ProofContexts.DRecvCoinsR2 | src/grin/grin_core.rs:572-629 | computes round 2 of the shared receive |
| ProofContexts.DRecvCoinsR3 | src/grin/grin_core.rs:646-678 | computes round 3 of the shared receive |
| Streams.Stream.SendMsg | src/net/tcp.rs:13-21 | writes one message and succeeds exactly when the next line is an ACK |
| Streams.Stream.ReceiveMsg | src/net/tcp.rs:30-37 | returns the next line and acknowledges it, or finds the peer gone |
| Streams.SendIsTwoSteps | src/net/tcp.rs:13-21 | a send is exactly the two half-steps of the line model, whether the ACK is there, missing or something else |
| Streams.ReceiveIsTwoSteps | src/net/tcp.rs:30-37 | a receive is exactly the two half-steps of the line model, whether a message, nothing or a stray ACK is there |
| GrinTx.DBuildAlice | src/grin/grin_tx.rs:45-77 | computes Alice's side of dBuild from what she hears, and the lines she sends |
| GrinTx.DBuildBob | src/grin/grin_tx.rs:86-105 | computes Bob's side of dBuild from what he hears, and the line he sends |
| GrinTx.DSharedOutAlice | src/grin/grin_tx.rs:116-172 | computes Alice's side of dSharedOut and the lines she sends |
| GrinTx.DSharedOutBob | src/grin/grin_tx.rs:182-209 | computes Bob's side of dSharedOut and the lines he sends |
| GrinTx.DSharedInpAlice | src/grin/grin_tx.rs:221-257 | computes Alice's side of dSharedInp and the lines she sends |
| GrinTx.DSharedInpBob | src/grin/grin_tx.rs:269-310 | computes Bob's side of dSharedInp and the line he sends |
| GrinTx.DContractAlice | src/grin/grin_tx.rs:323-379 | computes Alice's side of dContract and the lines she sends |
| GrinTx.DContractBob | src/grin/grin_tx.rs:392-429 | computes Bob's side of dContract and the lines he sends |
| Phases.LockingPhaseMw | src/swap/protocol.rs:49-189 | updates Alice's slate to exactly what the setup program computes from the messages heard, and sends exactly its lines |
| Phases.LockingPhaseBtc | src/swap/protocol.rs:202-329 | updates Bob's slate to exactly what the setup program computes from the messages heard, and sends exactly its lines |
| Phases.VerifyLock | src/swap/protocol.rs:60-146 | keys, lock time, address and funds are checked before anything of the Grin side |
| Phases.PublishLock | src/swap/protocol.rs:254-301 | the lock transaction is built, signed and published before its address and id are sent |
| Phases.ExecPhaseMw | src/swap/protocol.rs:343-416 | updates Alice's slate to what execution computes, hands out the redeem, sends exactly her program's lines |
| Phases.ExecPhaseBtc | src/swap/protocol.rs:429-454 | updates Bob's slate to what execution computes, hands out the contract, sends exactly his program's lines |
| Phases.RefundMw | src/swap/protocol.rs:464-477 | hands out the stored refund exactly when both heights have passed; otherwise nothing changes |
| Phases.RefundBtc | src/swap/protocol.rs:488-538 | builds, publishes and records the Bitcoin refund of Execution.RefundExact exactly under its conditions; otherwise the public slate is unchanged |
| Listener.OfferedValue | src/commands/cmd_types/listen.rs:39-54 | the loops sum the inputs of the offered currency in 64 bits |
| Listener.OffererPays | src/commands/cmd_types/listen.rs:39-57 | on a fresh slate listening is allowed exactly when whoever initialised the swap has what it offers; the listener then gives that currency and the peer the other |
| Listener.CheckForgetsFee | src/commands/cmd_types/listen.rs:39-57 | with one Bitcoin input the check admits a setup that must fail exactly when the input covers the amount and not the fee |
| Listener.Greet | src/commands/cmd_types/listen.rs:69-117 | answers one client and chooses the specified role |
| Listener.Accept | src/commands/cmd_types/listen.rs:67-118 | the accept loop rejects every client before the first one that matches, which decides the role |
| Listener.Listen | src/commands/cmd_types/listen.rs:34-118 | refuses to listen without enough offered value, touching no client; otherwise the accept loop decides |
| Listener.Connect | src/commands/cmd_types/execute.rs:39-50 | offers the checksum, reads the reply, checks the status and announces the command as specified |

## Left out

- Elliptic-curve arithmetic, hashing, ECDSA, bulletproof and nonce internals: they live in external crates and enter as the linear algebra, an arbitrary challenge function and an abstract range proof.
- JSON texts, JSON-RPC and HTTP: slates and proof contexts travel as values, node answers are arbitrary; the shared nonce of the proof context is not modelled.
- `tx_fee` and `FeeFields`: a positive fee function that does not fall with another output, and a bound on the fee; fee shifts and the fee mask are not modelled.
- Transaction bodies are sequences in the order the program adds to them; sorting, cut-through, weight limits and chain rules beyond kernel, proofs and balance are not modelled.
- 64-bit overflow stops a command, as in a build with overflow checks.
- The order of writing the private and the public slate file, and a crash between the two writes.
- In the transition system the handshake is one step on equal public slates, with the checksum taken as injective; a listener that acts alone is covered by its peer having stopped. The `init`, `accept` and `import` commands happen before a run.
- A party that has stopped keeps answering with `Closed` lines instead of closing the stream, so a peer's later reads fail in the same places.
- The chains accept or refuse what is pushed as the node answers say; double spends between published transactions are not resolved.
- Misbehaving peers beyond what the signature-level results and `Checks` cover: a peer that sends other, valid transactions than agreed.
- Heights never fall, and a height a party is told lies between those at the start of its session and at the moment it uses it; each party is told its own. Forks and nodes lagging behind the start of a session are not modelled.
- The checksum and the OK reply are compared without regard to ASCII case; the digests are written in lower case, so this is equality in the model.
- How many lines arrive together is up to the operating system: the results on the line hold for a stream that loses nothing, and the result on reading ahead takes the worst reader, which may lose any line that has already arrived.
- Slate fields for state, time to live, payment proofs, versions and the offset adjustment: not on the path of the swap.
- The remaining commands, settings, printing and sleeping: no behaviour of interest.
