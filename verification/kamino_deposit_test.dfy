/**
 * The instruction the deposit test sends to the relay: 13 account metas
 * (the 12 the relay forwards, then the Kamino program) and the data
 * `discriminator ++ LE(amount)`, the discriminator being the first 8 bytes
 * of the hash of "global:kamino_deposit_reserve_liquidity".
 */
module KaminoDepositTest {
  import opened Wrappers
  import opened Borsh
  import opened Solana
  import opened SelectorPayload
  import opened LiquidityLending

  /** The test's account addresses, one per account of the handler. */
  datatype DepositTestKeys = DepositTestKeys(
    owner: Pubkey,
    reserve: Pubkey,
    lendingMarket: Pubkey,
    lendingMarketAuthority: Pubkey,
    reserveLiquidityMint: Pubkey,
    reserveLiquiditySupply: Pubkey,
    reserveCollateralMint: Pubkey,
    userSourceLiquidity: Pubkey,
    userDestinationCollateral: Pubkey,
    collateralTokenProgram: Pubkey,
    liquidityTokenProgram: Pubkey,
    instructionSysvar: Pubkey,
    kaminoLendingProgram: Pubkey)
  {
    /** Every address, in the order the test creates them. */
    function All(): seq<Pubkey>
    {
      [owner, reserve, lendingMarket, lendingMarketAuthority, reserveLiquidityMint,
       reserveLiquiditySupply, reserveCollateralMint, userSourceLiquidity,
       userDestinationCollateral, collateralTokenProgram, liquidityTokenProgram,
       instructionSysvar, kaminoLendingProgram]
    }
  }

  const DEPOSIT_SIGHASH_PREIMAGE: string := "global:kamino_deposit_reserve_liquidity"

  /** The account list the test sends. */
  function DepositTestLayout(keys: DepositTestKeys): seq<AccountMeta>
  {
    [NewReadonly(keys.owner, true),
     NewWritable(keys.reserve, false),
     NewReadonly(keys.lendingMarket, false),
     NewReadonly(keys.lendingMarketAuthority, false),
     NewReadonly(keys.reserveLiquidityMint, false),
     NewWritable(keys.reserveLiquiditySupply, false),
     NewWritable(keys.reserveCollateralMint, false),
     NewWritable(keys.userSourceLiquidity, false),
     NewWritable(keys.userDestinationCollateral, false),
     NewReadonly(keys.collateralTokenProgram, false),
     NewReadonly(keys.liquidityTokenProgram, false),
     NewReadonly(keys.instructionSysvar, false),
     NewReadonly(keys.kaminoLendingProgram, false)]
  }

  /** The handler's accounts as the runtime binds them from 13 metas, by position. */
  function BindDeposit(layout: seq<AccountMeta>): (ctx: DepositAccounts)
    requires |layout| == 13
    ensures forall i :: 0 <= i < 13 ==> ctx.Fields()[i] == InfoOf(layout[i])
  {
    DepositAccounts(InfoOf(layout[0]), InfoOf(layout[1]), InfoOf(layout[2]), InfoOf(layout[3]),
                    InfoOf(layout[4]), InfoOf(layout[5]), InfoOf(layout[6]), InfoOf(layout[7]),
                    InfoOf(layout[8]), InfoOf(layout[9]), InfoOf(layout[10]), InfoOf(layout[11]),
                    InfoOf(layout[12]))
  }

  /**
   * The test's `instruction_data`: start empty, append the discriminator,
   * append the amount.
   */
  method BuildDepositInstructionData(hash: Hasher, liquidityAmount: U64) returns (instructionData: seq<Byte>)
    ensures |instructionData| == 16
    ensures instructionData[..8] == Discriminator(hash, DEPOSIT_SIGHASH_PREIMAGE)
    ensures DecodeU64LE(instructionData[8..]) == Some(liquidityAmount)
    ensures instructionData == PrefixedPayload(Discriminator(hash, DEPOSIT_SIGHASH_PREIMAGE), liquidityAmount)
  {
    instructionData := [];
    var sighash := hash(DEPOSIT_SIGHASH_PREIMAGE);
    var discriminator := sighash[..8];
    instructionData := instructionData + discriminator;
    instructionData := instructionData + EncodeU64LE(liquidityAmount);
    assert instructionData[8..] == EncodeU64LE(liquidityAmount);
  }

  /** The whole instruction the test sends to the relay's program id. */
  method DepositTestInstruction(programId: Pubkey, keys: DepositTestKeys, hash: Hasher, liquidityAmount: U64)
    returns (ix: Instruction)
    ensures ix.programId == programId
    ensures ix.accounts == DepositTestLayout(keys)
    ensures ix.data == PrefixedPayload(Discriminator(hash, DEPOSIT_SIGHASH_PREIMAGE), liquidityAmount)
  {
    var accounts := DepositTestLayout(keys);
    var instructionData := BuildDepositInstructionData(hash, liquidityAmount);
    ix := Instruction(programId, accounts, instructionData);
  }

  /** The test hashes the name of the relay's deposit handler. */
  lemma DepositTestTargetsHandler()
    ensures DEPOSIT_SIGHASH_PREIMAGE == SighashPreimage(DEPOSIT_HANDLER)
  {
  }

  /**
   * The test layout has 13 metas: the owner alone signs, exactly 1, 5, 6, 7
   * and 8 are writable, and the last one is the Kamino program.
   */
  lemma DepositTestLayoutFlags(keys: DepositTestKeys)
    ensures var m := DepositTestLayout(keys);
      && |m| == 13
      && m[12] == AccountMeta(keys.kaminoLendingProgram, false, false)
      && forall i :: 0 <= i < 13 ==>
           (m[i].isSigner <==> i == 0) &&
           (m[i].isWritable <==> i in {1, 5, 6, 7, 8})
  {
  }

  /**
   * Handed the test's metas, the relay sees exactly the privileges its
   * accounts struct declares, forwards the first 12 metas unchanged and
   * routes to the 13th; its outbound data is the inbound data without the
   * discriminator.
   */
  lemma DepositTestLayoutForwarded(programId: Pubkey, keys: DepositTestKeys, hash: Hasher, liquidityAmount: U64)
    requires DistinctKeys(keys.All())
    ensures var layout := DepositTestLayout(keys);
      var ctx := BindDeposit(layout);
      var out := DepositInstruction(ctx, liquidityAmount);
      var inbound := PrefixedPayload(Discriminator(hash, DEPOSIT_SIGHASH_PREIMAGE), liquidityAmount);
      && ctx.Declared(true)
      && out.accounts == layout[..12]
      && out.programId == keys.kaminoLendingProgram
      && DecodePrefixed(inbound, 8) == Some((Discriminator(hash, DEPOSIT_SIGHASH_PREIMAGE), liquidityAmount))
      && out.data == inbound[8..]
  {
  }
}
