# Kamino lending relay: a Dafny model

The `liquidity_lending` program is a thin cross-program-invocation relay to
the Kamino lending program. It has three handlers:

- `kamino_deposit_reserve_liquidity`;
- `kamino_borrow_obligation_liquidity`;
- `kamino_repay_obligation_liquidity`.

Each handler does four things:

1. It takes a fixed, ordered list of its accounts.
2. It copies every account into an account meta `(pubkey, is_signer, is_writable)`, keeping the order.
3. It serialises a one-field `u64` argument struct with Borsh as the instruction data.
4. It calls the runtime's `invoke` and returns its result.

The instruction goes to the key of the `kamino_lending_program` account.
That account is neither a meta nor a forwarded account handle.

The tests beside the program build what a client sends to the relay:

- an inbound account list of 13 metas (deposit, borrow) or 10 metas (repay);
- data laid out as `discriminator ++ LE(amount)`, where the discriminator is the first 8 bytes of a hash;
- in the borrow test, a helper that lays out a one-byte instruction index followed by `LE(amount)`.

Modules, one per source file or runtime concept:

- `Wrappers`: `Option` and `Result`.
- `Borsh`: bytes, `u64` and the 8-byte little-endian encoding and decoding.
- `Solana`: account handles, metas, instructions, and the type of `invoke`.
- `LiquidityLending` (lib.rs): the argument structs, the three accounts structs with their declared privileges, the meta map, the instruction builders and the handlers. It is written as pure functions, like the source.
- `SelectorPayload`: `prefix ++ LE(amount)` and its decoder. The hash is an uninterpreted function parameter.
- `KaminoDepositTest`, `KaminoBorrowTest`, `KaminoRepayTest`: the tests' buffers, grown step by step, written as methods. Each method is specified by the pure layout functions. The lemmas relate those layouts to the relay.

What the handlers in lib.rs do not do, the model does not do either:

- The relay's outbound data (lib.rs:54-55, 119-123, 163-167) is only the 8 little-endian bytes of the amount. No instruction selector goes in front of them.
- There is no `amount > 0` check and no check of the program id against a configured one. Every `u64`, 0 included, is forwarded to whatever key the `kamino_lending_program` account carries.

## Model

| member | source | states |
|---|---|---|
| `Borsh.EncodeU64LE` | programs/liquidity_lending/src/lib.rs:54-55 | The serialised amount is exactly 8 bytes and reads back, little-endian, as the amount. |
| `Borsh.DecodeU64LE` | programs/liquidity_lending/src/lib.rs:12-25 | Decoding a one-`u64` struct succeeds if and only if the buffer is exactly 8 bytes. |
| `Borsh.FromToLittleEndian` | programs/liquidity_lending/src/lib.rs:54-55 | Reading back the n bytes written for x gives x whenever x < 256^n. |
| `Borsh.ToFromLittleEndian` | programs/liquidity_lending/src/lib.rs:12-25 | Writing back the value read from any buffer gives that buffer. |
| `Borsh.LittleEndianByte` | programs/liquidity_lending/tests/kamino_deposit.rs:82 | Byte i of the n-byte little-endian form of x is (x / 256^i) mod 256, that is (x >> 8i) & 0xFF. |
| `Borsh.DecodeEncodeU64` | programs/liquidity_lending/src/lib.rs:54-55 | Decoding the encoding of any u64 gives it back. |
| `Borsh.EncodeDecodeU64` | programs/liquidity_lending/src/lib.rs:12-25 | Every 8-byte buffer decodes to an amount whose encoding is that buffer, so the encoding is a bijection. |
| `Borsh.EncodeU64LEBytes` | programs/liquidity_lending/src/lib.rs:54-55 | All 8 bytes of the encoding, byte i = (amount >> 8i) & 0xFF. |
| `Borsh.EncodeU64LEBounds` | programs/liquidity_lending/src/lib.rs:14 | 0 encodes as eight 0x00 bytes and u64::MAX as eight 0xFF bytes, and both decode back. |
| `LiquidityLending.PayloadLayout` | programs/liquidity_lending/src/lib.rs:12-25 | The deposit, borrow and repay argument structs all serialise to the same 8 LE bytes, with no selector, byte by byte, and decode back to the amount. |
| `LiquidityLending.MetaOf` | programs/liquidity_lending/src/lib.rs:61-67 | A meta carries exactly its account's key, signer flag and writable flag: the runtime's handle for it is the account itself. |
| `LiquidityLending.AccountMetas` | programs/liquidity_lending/src/lib.rs:59-68 | The meta list has the length of the account list, and meta i copies key, is_signer and is_writable of account i. Borrow (110-117) and repay (154-161) map their accounts the same way. |
| `LiquidityLending.DepositAccounts.CpiAccounts` | programs/liquidity_lending/src/lib.rs:39-52 | Deposit forwards 12 account handles. |
| `LiquidityLending.DepositInstruction` | programs/liquidity_lending/src/lib.rs:70-74 | The deposit instruction goes to the program account's key, has 12 metas, and its data is 8 bytes that decode to the amount. |
| `LiquidityLending.KaminoDepositReserveLiquidity` | programs/liquidity_lending/src/lib.rs:79-83 | The handler returns Ok exactly when invoke on the built instruction and the forwarded accounts does; an invoke error is returned unchanged. |
| `LiquidityLending.DepositForwardsDeclaredAccounts` | programs/liquidity_lending/src/lib.rs:39-52 | The forwarded accounts are the first 12 declared fields in declaration order (owner through instruction_sysvar_account), each meta copying its field, and the program id is the 13th field's key. |
| `LiquidityLending.DepositProgramAccountOnlyRoutes` | programs/liquidity_lending/src/lib.rs:70-77 | Replacing the kamino_lending_program account changes the program id only: forwarded accounts, metas and data stay the same. |
| `LiquidityLending.DepositEnforcedFlags` | programs/liquidity_lending/src/lib.rs:182-212 | With owner signing and the mut accounts writable, meta 0 signs and metas 1, 5, 6, 7, 8 are writable. |
| `LiquidityLending.DepositExactFlags` | programs/liquidity_lending/src/lib.rs:182-225 | With exactly the declared privileges, meta i signs if and only if i = 0 and is writable if and only if i is 1, 5, 6, 7 or 8. |
| `LiquidityLending.BorrowAccounts.CpiAccounts` | programs/liquidity_lending/src/lib.rs:92-105 | Borrow forwards 12 account handles. |
| `LiquidityLending.BorrowInstruction` | programs/liquidity_lending/src/lib.rs:119-123 | The borrow instruction goes to the program account's key, has 12 metas, and its data is 8 bytes that decode to the amount. |
| `LiquidityLending.KaminoBorrowObligationLiquidity` | programs/liquidity_lending/src/lib.rs:128-130 | The handler returns Ok exactly when invoke does; an invoke error is returned unchanged. |
| `LiquidityLending.BorrowForwardsDeclaredAccounts` | programs/liquidity_lending/src/lib.rs:92-105 | The forwarded accounts are the first nine required fields in order, then the referrer or its fallback, then token_program and instruction_sysvar_account; metas copy them; the program id is the program account's key. |
| `LiquidityLending.BorrowReferrerSlot` | programs/liquidity_lending/src/lib.rs:102 | Slot 9 is the referrer when present. When absent it is token_program, so slots 9 and 10 carry the identical meta. Slot 10 is always token_program. |
| `LiquidityLending.BorrowProgramAccountOnlyRoutes` | programs/liquidity_lending/src/lib.rs:119-126 | Replacing the kamino_lending_program account changes the program id only. |
| `LiquidityLending.BorrowEnforcedFlags` | programs/liquidity_lending/src/lib.rs:227-253 | With owner signing and the mut accounts writable, meta 0 signs, metas 1, 4, 6, 7, 8 are writable, and so is meta 9 when a referrer is present. |
| `LiquidityLending.BorrowExactFlags` | programs/liquidity_lending/src/lib.rs:227-260 | With exactly the declared privileges, only meta 0 signs; the writable metas are exactly 1, 4, 6, 7, 8, plus 9 if a referrer is present. |
| `LiquidityLending.RepayAccounts.CpiAccounts` | programs/liquidity_lending/src/lib.rs:139-149 | Repay forwards 9 account handles. |
| `LiquidityLending.RepayInstruction` | programs/liquidity_lending/src/lib.rs:163-167 | The repay instruction goes to the program account's key, has 9 metas, and its data is 8 bytes that decode to the amount. |
| `LiquidityLending.KaminoRepayObligationLiquidity` | programs/liquidity_lending/src/lib.rs:172-174 | The handler returns Ok exactly when invoke does; an invoke error is returned unchanged. |
| `LiquidityLending.RepayForwardsDeclaredAccounts` | programs/liquidity_lending/src/lib.rs:139-149 | The forwarded accounts are the first 9 declared fields in declaration order (owner through instruction_sysvar_account), each meta copying its field, and the program id is the 10th field's key. |
| `LiquidityLending.RepayProgramAccountOnlyRoutes` | programs/liquidity_lending/src/lib.rs:163-170 | Replacing the kamino_lending_program account changes the program id only. |
| `LiquidityLending.RepayEnforcedFlags` | programs/liquidity_lending/src/lib.rs:262-280 | With owner signing and the mut accounts writable, meta 0 signs and metas 1, 3, 5, 6 are writable. |
| `LiquidityLending.RepayExactFlags` | programs/liquidity_lending/src/lib.rs:262-287 | With exactly the declared privileges, only meta 0 signs and exactly metas 1, 3, 5, 6 are writable. |
| `SelectorPayload.PrefixedPayload` | programs/liquidity_lending/tests/kamino_deposit.rs:74-82 | The data is \|prefix\| + 8 bytes: it starts with the prefix, and the rest decodes to the amount. |
| `SelectorPayload.DecodePrefixed` | programs/liquidity_lending/tests/kamino_repay.rs:38-42 | Splitting succeeds if and only if the data is exactly prefix width + 8 bytes, and yields a prefix of that width. |
| `SelectorPayload.DecodePrefixedPayload` | programs/liquidity_lending/tests/kamino_deposit.rs:74-82 | Splitting a payload at its prefix width recovers the prefix and the amount, for every u64. |
| `SelectorPayload.PrefixedPayloadOfDecoded` | programs/liquidity_lending/tests/kamino_repay.rs:38-42 | Every buffer of prefix width + 8 bytes is the payload of the prefix and the amount it splits into. |
| `KaminoDepositTest.BuildDepositInstructionData` | programs/liquidity_lending/tests/kamino_deposit.rs:74-82 | The buffer grown from empty is 16 bytes: the first 8 bytes of the hash of "global:kamino_deposit_reserve_liquidity", then bytes that decode to the amount. |
| `KaminoDepositTest.DepositTestInstruction` | programs/liquidity_lending/tests/kamino_deposit.rs:85-89 | The test instruction goes to the given program id with the 13-meta layout and the discriminator-prefixed data. |
| `KaminoDepositTest.DepositTestTargetsHandler` | programs/liquidity_lending/tests/kamino_deposit.rs:77 | The hashed preimage is Anchor's preimage for the relay's deposit handler name. |
| `KaminoDepositTest.DepositTestLayoutFlags` | programs/liquidity_lending/tests/kamino_deposit.rs:56-71 | The inbound layout has 13 metas ending with the Kamino program; only meta 0 signs; exactly metas 1, 5, 6, 7, 8 are writable. |
| `KaminoDepositTest.DepositTestLayoutForwarded` | programs/liquidity_lending/tests/kamino_deposit.rs:56-82 | For pairwise-distinct keys, bound to the deposit handler, the test's metas satisfy the declared privileges exactly. The relay forwards the first 12 metas unchanged, routes to the 13th, and its outbound data is the inbound data without the discriminator. |
| `KaminoBorrowTest.BuildBorrowTestAccounts` | programs/liquidity_lending/tests/kamino_borrow.rs:38-60 | The list grown by pushes equals the borrow test layout. |
| `KaminoBorrowTest.BorrowTestLayoutShape` | programs/liquidity_lending/tests/kamino_borrow.rs:38-60 | 13 metas in either branch. Slot 9 is the writable referrer, or else the read-only token program (then equal to slot 10). The last three are token program, sysvar and Kamino program, all read-only. Only meta 0 signs. |
| `KaminoBorrowTest.BorrowTestLayoutForwarded` | programs/liquidity_lending/tests/kamino_borrow.rs:38-60 | For pairwise-distinct keys, whether slot 9 is bound as the referrer or as absent (the latter only in the fallback branch), the relay forwards exactly the first 12 inbound metas and routes to the 13th. Both the enforced and the exact privileges hold if and only if the referrer is used or slot 9 is bound as absent. |
| `KaminoBorrowTest.BorrowTestFallbackRejected` | programs/liquidity_lending/tests/kamino_borrow.rs:51-55 | As written: in the fallback branch slot 9 holds the read-only token program, which is not the relay's id. So it binds as a present referrer and fails the referrer's `mut` constraint. |
| `KaminoBorrowTest.BuildCorrectedBorrowTestAccounts` | programs/liquidity_lending/tests/kamino_borrow.rs:38-60 | Corrected: the list grown by pushes, with the relay's id in slot 9 in the fallback branch, equals the corrected layout. |
| `KaminoBorrowTest.CorrectedBorrowTestAccepted` | programs/liquidity_lending/tests/kamino_borrow.rs:38-60 | Corrected: for pairwise-distinct keys and relay id, the referrer binds as absent if and only if it is not used, all declared privileges hold, and the relay forwards the 12 metas the test intends (the token program substituted in slot 9) to the Kamino program. With a referrer the corrected and the as-written layouts are equal. |
| `KaminoBorrowTest.BorrowTestInstruction` | programs/liquidity_lending/tests/kamino_borrow.rs:66-72 | The test instruction has the borrow layout and 16 bytes of data: the borrow handler's discriminator, then bytes that decode to the amount. In the fallback branch, with distinct keys, its own accounts bound against its own program id fail the referrer's `mut` constraint. |
| `KaminoBorrowTest.SerializeKaminoInstruction` | programs/liquidity_lending/tests/kamino_borrow.rs:122-126 | Exactly 9 bytes: byte 0 is the instruction index, bytes 1..9 are the LE amount and decode back to it, and the whole splits back into index and amount. |
| `KaminoRepayTest.BuildRepayInstructionDataAsWritten` | programs/liquidity_lending/tests/kamino_repay.rs:34-42 | As written: 16 bytes, the first 8 bytes of the hash of "global:repayObligationLiquidity", then bytes that decode to the amount; that is, the prefixed payload of that discriminator. |
| `KaminoRepayTest.RepayAsWrittenMissesHandler` | programs/liquidity_lending/tests/kamino_repay.rs:34-35 | That preimage differs from the repay handler's preimage; whenever the two digests differ in their first 8 bytes, the data does not carry the handler's discriminator. |
| `KaminoRepayTest.BuildRepayInstructionData` | programs/liquidity_lending/tests/kamino_repay.rs:38-42 | Corrected: 16 bytes, the repay handler's discriminator, then bytes that decode to the amount. |
| `KaminoRepayTest.RepayTestInstructionAsWritten` | programs/liquidity_lending/tests/kamino_repay.rs:59-63 | As written: the test instruction goes to the given program id with the 10-meta layout and 16 bytes of data, the first 8 bytes of the hash of "global:repayObligationLiquidity", then bytes that decode to the amount. |
| `KaminoRepayTest.RepayTestInstruction` | programs/liquidity_lending/tests/kamino_repay.rs:59-63 | Corrected: the test instruction goes to the given program id with the 10-meta layout and the repay handler's discriminator-prefixed data. |
| `KaminoRepayTest.RepayTestLayoutFlags` | programs/liquidity_lending/tests/kamino_repay.rs:45-56 | The inbound layout has 10 metas ending with the Kamino program; only meta 0 signs; exactly metas 1, 3, 5, 6 are writable. |
| `KaminoRepayTest.RepayTestLayoutForwarded` | programs/liquidity_lending/tests/kamino_repay.rs:45-56 | Corrected data. For pairwise-distinct keys, bound to the repay handler, the test's metas satisfy the declared privileges exactly. The relay forwards the first 9 metas unchanged, routes to the 10th, and its outbound data is the inbound data without the discriminator. |

## Left out

- `invoke` and everything Kamino does with the instruction. It is a foreign runtime call, so it is a function parameter of each handler, which returns what it returns.
- Anchor's `#[program]` dispatch, `Context` and account deserialisation. The `Signer` and `#[account(mut)]` checks are taken as hypotheses (`Declared`). The tests' metas are bound to the accounts structs by position (`BindDeposit`, `BindBorrow`, `BindRepay`).
- Anchor's rule for an optional account is modelled only for slot 9 of the borrow test (`BindBorrowAnchor`): the account is absent exactly when its key is the called program's id. `BorrowTestLayoutForwarded` covers both bindings of slot 9.
- The runtime merges the privileges of an address that occurs more than once in an instruction. `BindDeposit`, `BindBorrow` and `BindRepay` give each position its own meta's flags, which is faithful only when the addresses are distinct. So the forwarding lemmas require pairwise-distinct keys (`DistinctKeys`), as `Pubkey::new_unique()` gives in the tests. In the borrow fallback branch the token program occurs twice, but both of its metas are read-only non-signers, so merging changes nothing there.
- The other fields of `AccountInfo` (lamports, data, owner, executable). `to_account_info()` and `clone()` are the identity on the key and the two flags.
- The error path of `try_to_vec()?`. It cannot fail for a struct holding one `u64`.
- SHA-256 (`hash::hash`). It is an uninterpreted `Hasher` parameter with a 32-byte result. Byte-string preimages are written as strings of their ASCII characters.
- The code that Anchor generates for `KaminoBorrowObligationLiquidity { .. }.data()` is not shown in the source. `BorrowTestInstruction` takes it to be the handler's discriminator followed by the Borsh arguments, the same layout the deposit test builds by hand.
- `msg!` logging and the `initialize` handler, which only log.
- The Mollusk harness parts of the tests: the VM, reading the `.so` file, the `Account::default` tables and the success checks.
- `Pubkey::new_unique` and `sysvar::instructions::id()`. Keys are parameters; where a lemma relies on their being unique it says so with `DistinctKeys`. The tests' fixed amount of 1 000 000 000 is generalised to every `u64`.
- The harness files `liquidity_lending_test.rs` (both copies), `tests/kamino_*.rs` and `tests/liquidity_lending.ts`. They drive separately named programs or a client, and `tests/kamino_borrow.rs` encodes an older 11-account borrow layout.
- Rejecting a zero amount and checking the program id. Neither appears in the handlers, so neither is modelled.

## Findings

| source | as written | input that shows it | evidently intended | confidence | as-written member | corrected member |
|---|---|---|---|---|---|---|
| programs/liquidity_lending/tests/kamino_repay.rs:34-35 | The discriminator is taken from the hash of "global:repayObligationLiquidity", yet the instruction is sent to the relay, whose handler is `kamino_repay_obligation_liquidity`. | Any amount, under any hash whose digests of the two preimages differ in their first 8 bytes. The data then selects no handler of the relay. | The hash of "global:kamino_repay_obligation_liquidity". This is the form the deposit test (line 77) and the borrow test's generated data use. | medium, not executed | `KaminoRepayTest.BuildRepayInstructionDataAsWritten`, `KaminoRepayTest.RepayTestInstructionAsWritten`, `KaminoRepayTest.RepayAsWrittenMissesHandler` | `KaminoRepayTest.BuildRepayInstructionData`, `KaminoRepayTest.RepayTestInstruction`, `KaminoRepayTest.RepayTestLayoutForwarded` |
| programs/liquidity_lending/tests/kamino_borrow.rs:51-55 | With `use_referrer = false`, slot 9 is the token program, read-only. Its key is not the relay's id, so Anchor binds `referrer_token_state` as present, and the `#[account(mut)]` on it (lib.rs:251-253) rejects the read-only meta. The fallback path the comment on line 35 describes cannot pass. | Any distinct keys with `use_referrer = false`. The test as shipped sets `use_referrer = true` and is unaffected. | Put the relay's own program id, read-only, in slot 9, so that Anchor binds the referrer as absent and the relay substitutes the token program. | medium, not executed | `KaminoBorrowTest.BorrowTestFallbackRejected`, `KaminoBorrowTest.BorrowTestInstruction` | `KaminoBorrowTest.BuildCorrectedBorrowTestAccounts`, `KaminoBorrowTest.CorrectedBorrowTestAccepted` |
