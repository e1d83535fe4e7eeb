/**
 * The instruction the repay test sends to the relay: 10 account metas (the
 * 9 the relay forwards, then the Kamino program) and the data
 * `discriminator ++ LE(amount)`.
 *
 * The test takes its discriminator from the preimage
 * "global:repayObligationLiquidity", which is not the preimage of the
 * relay's repay handler ("global:kamino_repay_obligation_liquidity", the
 * form the deposit test and the borrow test use). Both versions are
 * modelled: the one as written, and the one aimed at the handler, which
 * the test's instruction uses.
 */
module KaminoRepayTest {
  import opened Wrappers
  import opened Borsh
  import opened Solana
  import opened SelectorPayload
  import opened LiquidityLending

  /** The test's account addresses. */
  datatype RepayTestKeys = RepayTestKeys(
    owner: Pubkey,
    obligation: Pubkey,
    lendingMarket: Pubkey,
    repayReserve: Pubkey,
    reserveLiquidityMint: Pubkey,
    reserveDestinationLiquidity: Pubkey,
    userSourceLiquidity: Pubkey,
    tokenProgram: Pubkey,
    instructionSysvar: Pubkey,
    kaminoLendingProgram: Pubkey)
  {
    /** Every address, in the order the test creates them. */
    function All(): seq<Pubkey>
    {
      [owner, obligation, lendingMarket, repayReserve, reserveLiquidityMint,
       reserveDestinationLiquidity, userSourceLiquidity, tokenProgram,
       instructionSysvar, kaminoLendingProgram]
    }
  }

  /** The preimage the test hashes, as written. */
  const REPAY_SIGHASH_PREIMAGE: string := "global:repayObligationLiquidity"

  /** The account list the test sends. */
  function RepayTestLayout(keys: RepayTestKeys): seq<AccountMeta>
  {
    [NewReadonly(keys.owner, true),
     NewWritable(keys.obligation, false),
     NewReadonly(keys.lendingMarket, false),
     NewWritable(keys.repayReserve, false),
     NewReadonly(keys.reserveLiquidityMint, false),
     NewWritable(keys.reserveDestinationLiquidity, false),
     NewWritable(keys.userSourceLiquidity, false),
     NewReadonly(keys.tokenProgram, false),
     NewReadonly(keys.instructionSysvar, false),
     NewReadonly(keys.kaminoLendingProgram, false)]
  }

  /** The handler's accounts as the runtime binds them from 10 metas, by position. */
  function BindRepay(layout: seq<AccountMeta>): (ctx: RepayAccounts)
    requires |layout| == 10
    ensures forall i :: 0 <= i < 10 ==> ctx.Fields()[i] == InfoOf(layout[i])
  {
    RepayAccounts(InfoOf(layout[0]), InfoOf(layout[1]), InfoOf(layout[2]), InfoOf(layout[3]),
                  InfoOf(layout[4]), InfoOf(layout[5]), InfoOf(layout[6]), InfoOf(layout[7]),
                  InfoOf(layout[8]), InfoOf(layout[9]))
  }

  /**
   * The test's `instruction_data` as written: start empty, append the first
   * 8 bytes of the hash of "global:repayObligationLiquidity", append the amount.
   */
  method BuildRepayInstructionDataAsWritten(hash: Hasher, liquidityAmount: U64) returns (instructionData: seq<Byte>)
    ensures |instructionData| == 16
    ensures instructionData[..8] == Discriminator(hash, REPAY_SIGHASH_PREIMAGE)
    ensures DecodeU64LE(instructionData[8..]) == Some(liquidityAmount)
    ensures instructionData == PrefixedPayload(Discriminator(hash, REPAY_SIGHASH_PREIMAGE), liquidityAmount)
  {
    var sighash := hash(REPAY_SIGHASH_PREIMAGE);
    var discriminator := sighash[..8];
    instructionData := [];
    instructionData := instructionData + discriminator;
    instructionData := instructionData + EncodeU64LE(liquidityAmount);
    assert instructionData[8..] == EncodeU64LE(liquidityAmount);
  }

  /**
   * The as-written preimage is not the repay handler's; so, unless the two
   * digests happen to agree on their first 8 bytes, the data selects no
   * handler of the relay's, for every amount.
   */
  lemma RepayAsWrittenMissesHandler(hash: Hasher, liquidityAmount: U64)
    ensures REPAY_SIGHASH_PREIMAGE != SighashPreimage(REPAY_HANDLER)
    ensures Discriminator(hash, REPAY_SIGHASH_PREIMAGE) != Discriminator(hash, SighashPreimage(REPAY_HANDLER)) ==>
      PrefixedPayload(Discriminator(hash, REPAY_SIGHASH_PREIMAGE), liquidityAmount)[..8]
        != Discriminator(hash, SighashPreimage(REPAY_HANDLER))
  {
  }

  /**
   * The test's `instruction_data` with the repay handler's discriminator:
   * 16 bytes, the handler's discriminator, then the amount.
   */
  method BuildRepayInstructionData(hash: Hasher, liquidityAmount: U64) returns (instructionData: seq<Byte>)
    ensures |instructionData| == 16
    ensures instructionData[..8] == Discriminator(hash, SighashPreimage(REPAY_HANDLER))
    ensures DecodeU64LE(instructionData[8..]) == Some(liquidityAmount)
    ensures instructionData == PrefixedPayload(Discriminator(hash, SighashPreimage(REPAY_HANDLER)), liquidityAmount)
  {
    var sighash := hash(SighashPreimage(REPAY_HANDLER));
    var discriminator := sighash[..8];
    instructionData := [];
    instructionData := instructionData + discriminator;
    instructionData := instructionData + EncodeU64LE(liquidityAmount);
    assert instructionData[8..] == EncodeU64LE(liquidityAmount);
  }

  /**
   * The whole instruction the test sends to the relay's program id, as
   * written: its data leads with the digest of the camel-case preimage.
   */
  method RepayTestInstructionAsWritten(programId: Pubkey, keys: RepayTestKeys, hash: Hasher, liquidityAmount: U64)
    returns (ix: Instruction)
    ensures ix.programId == programId
    ensures ix.accounts == RepayTestLayout(keys)
    ensures |ix.data| == 16
    ensures ix.data[..8] == Discriminator(hash, REPAY_SIGHASH_PREIMAGE)
    ensures DecodeU64LE(ix.data[8..]) == Some(liquidityAmount)
  {
    var instructionData := BuildRepayInstructionDataAsWritten(hash, liquidityAmount);
    var accounts := RepayTestLayout(keys);
    ix := Instruction(programId, accounts, instructionData);
  }

  /** The whole instruction the test sends, with the repay handler's discriminator. */
  method RepayTestInstruction(programId: Pubkey, keys: RepayTestKeys, hash: Hasher, liquidityAmount: U64)
    returns (ix: Instruction)
    ensures ix.programId == programId
    ensures ix.accounts == RepayTestLayout(keys)
    ensures ix.data == PrefixedPayload(Discriminator(hash, SighashPreimage(REPAY_HANDLER)), liquidityAmount)
  {
    var instructionData := BuildRepayInstructionData(hash, liquidityAmount);
    var accounts := RepayTestLayout(keys);
    ix := Instruction(programId, accounts, instructionData);
  }

  /**
   * The test layout has 10 metas: the owner alone signs, exactly 1, 3, 5 and
   * 6 are writable, and the last one is the Kamino program.
   */
  lemma RepayTestLayoutFlags(keys: RepayTestKeys)
    ensures var m := RepayTestLayout(keys);
      && |m| == 10
      && m[9] == AccountMeta(keys.kaminoLendingProgram, false, false)
      && forall i :: 0 <= i < 10 ==>
           (m[i].isSigner <==> i == 0) &&
           (m[i].isWritable <==> i in {1, 3, 5, 6})
  {
  }

  /**
   * Handed the test's metas, the relay sees exactly the privileges its
   * accounts struct declares, forwards the first 9 metas unchanged and
   * routes to the 10th; its outbound data is the inbound data without the
   * discriminator.
   */
  lemma RepayTestLayoutForwarded(keys: RepayTestKeys, hash: Hasher, liquidityAmount: U64)
    requires DistinctKeys(keys.All())
    ensures var layout := RepayTestLayout(keys);
      var ctx := BindRepay(layout);
      var out := RepayInstruction(ctx, liquidityAmount);
      var inbound := PrefixedPayload(Discriminator(hash, SighashPreimage(REPAY_HANDLER)), liquidityAmount);
      && ctx.Declared(true)
      && out.accounts == layout[..9]
      && out.programId == keys.kaminoLendingProgram
      && out.data == inbound[8..]
  {
  }
}
