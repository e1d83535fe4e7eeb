/**
 * The relay program: three handlers that each forward one instruction to
 * the Kamino lending program.
 *
 * Every handler picks a fixed, ordered list of its accounts, copies each one
 * into an account meta, serialises a one-field `u64` argument struct as the
 * instruction data, and hands the instruction to the runtime's `invoke`,
 * whose result it returns. The program id of the forwarded instruction is
 * the key of the `kamino_lending_program` account, which is itself neither
 * among the metas nor among the forwarded account handles.
 */
module LiquidityLending {
  import opened Wrappers
  import opened Borsh
  import opened Solana

  /** The handlers' names; Anchor routes an incoming instruction by a hash of "global:" and the name. */
  const DEPOSIT_HANDLER: string := "kamino_deposit_reserve_liquidity"
  const BORROW_HANDLER: string := "kamino_borrow_obligation_liquidity"
  const REPAY_HANDLER: string := "kamino_repay_obligation_liquidity"

  // ---------------------------------------------------------------------
  // Instruction argument structs

  /** Argument of Kamino's borrow instruction. */
  datatype BorrowObligationLiquidity = BorrowObligationLiquidity(liquidityAmount: U64)
  {
    /** Borsh serialisation (`try_to_vec`): the lone `u64` field. */
    function Serialize(): seq<Byte>
    {
      EncodeU64LE(liquidityAmount)
    }
  }

  /** Argument of Kamino's repay instruction. */
  datatype RepayObligationLiquidity = RepayObligationLiquidity(liquidityAmount: U64)
  {
    /** Borsh serialisation (`try_to_vec`): the lone `u64` field. */
    function Serialize(): seq<Byte>
    {
      EncodeU64LE(liquidityAmount)
    }
  }

  /** Argument of Kamino's deposit instruction. */
  datatype DepositReserveLiquidity = DepositReserveLiquidity(liquidityAmount: U64)
  {
    /** Borsh serialisation (`try_to_vec`): the lone `u64` field. */
    function Serialize(): seq<Byte>
    {
      EncodeU64LE(liquidityAmount)
    }
  }

  /**
   * All three argument structs serialise to the same 8 bytes: the
   * little-endian amount, with no selector in front, and those bytes decode
   * back to the amount.
   */
  lemma PayloadLayout(amount: U64)
    ensures DepositReserveLiquidity(amount).Serialize() == EncodeU64LE(amount)
    ensures BorrowObligationLiquidity(amount).Serialize() == EncodeU64LE(amount)
    ensures RepayObligationLiquidity(amount).Serialize() == EncodeU64LE(amount)
    ensures |EncodeU64LE(amount)| == 8
    ensures forall i :: 0 <= i < 8 ==> EncodeU64LE(amount)[i] == (amount / Pow256(i)) % 256
    ensures DecodeU64LE(EncodeU64LE(amount)) == Some(amount)
  {
    EncodeU64LEBytes(amount);
  }

  // ---------------------------------------------------------------------
  // Account constraints

  /**
   * The privileges an account is declared with. Anchor enforces only the
   * positive half (a `Signer` signs, an `#[account(mut)]` account is
   * writable); `exact` asks in addition that undeclared privileges are absent.
   */
  predicate Flags(a: AccountInfo, signer: bool, mutable: bool, exact: bool)
  {
    if exact then a.isSigner == signer && a.isWritable == mutable
    else (signer ==> a.isSigner) && (mutable ==> a.isWritable)
  }

  /** Copy an account handle into a meta: key, signer flag and writable flag. */
  function MetaOf(a: AccountInfo): (m: AccountMeta)
    ensures InfoOf(m) == a
  {
    AccountMeta(a.key, a.isSigner, a.isWritable)
  }

  /** `accounts.iter().map(|acc| AccountMeta { .. }).collect()`. */
  function AccountMetas(infos: seq<AccountInfo>): (metas: seq<AccountMeta>)
    ensures |metas| == |infos|
    ensures forall i :: 0 <= i < |infos| ==>
      metas[i].pubkey == infos[i].key &&
      metas[i].isSigner == infos[i].isSigner &&
      metas[i].isWritable == infos[i].isWritable
  {
    if infos == [] then [] else [MetaOf(infos[0])] + AccountMetas(infos[1..])
  }

  // ---------------------------------------------------------------------
  // Deposit

  /** The accounts of `kamino_deposit_reserve_liquidity`, in declaration order. */
  datatype DepositAccounts = DepositAccounts(
    owner: AccountInfo,
    reserve: AccountInfo,
    lendingMarket: AccountInfo,
    lendingMarketAuthority: AccountInfo,
    reserveLiquidityMint: AccountInfo,
    reserveLiquiditySupply: AccountInfo,
    reserveCollateralMint: AccountInfo,
    userSourceLiquidity: AccountInfo,
    userDestinationCollateral: AccountInfo,
    collateralTokenProgram: AccountInfo,
    liquidityTokenProgram: AccountInfo,
    instructionSysvarAccount: AccountInfo,
    kaminoLendingProgram: AccountInfo)
  {
    /** Every field, in the order the struct declares them. */
    function Fields(): seq<AccountInfo>
    {
      [owner, reserve, lendingMarket, lendingMarketAuthority, reserveLiquidityMint,
       reserveLiquiditySupply, reserveCollateralMint, userSourceLiquidity,
       userDestinationCollateral, collateralTokenProgram, liquidityTokenProgram,
       instructionSysvarAccount, kaminoLendingProgram]
    }

    /** The declared privileges: `owner` is a `Signer`, five accounts are `mut`. */
    predicate Declared(exact: bool)
    {
      && Flags(owner, true, false, exact)
      && Flags(reserve, false, true, exact)
      && Flags(lendingMarket, false, false, exact)
      && Flags(lendingMarketAuthority, false, false, exact)
      && Flags(reserveLiquidityMint, false, false, exact)
      && Flags(reserveLiquiditySupply, false, true, exact)
      && Flags(reserveCollateralMint, false, true, exact)
      && Flags(userSourceLiquidity, false, true, exact)
      && Flags(userDestinationCollateral, false, true, exact)
      && Flags(collateralTokenProgram, false, false, exact)
      && Flags(liquidityTokenProgram, false, false, exact)
      && Flags(instructionSysvarAccount, false, false, exact)
      && Flags(kaminoLendingProgram, false, false, exact)
    }

    /** The accounts forwarded to Kamino (`cpi_accounts`). */
    function CpiAccounts(): (infos: seq<AccountInfo>)
      ensures |infos| == 12
    {
      [owner, reserve, lendingMarket, lendingMarketAuthority, reserveLiquidityMint,
       reserveLiquiditySupply, reserveCollateralMint, userSourceLiquidity,
       userDestinationCollateral, collateralTokenProgram, liquidityTokenProgram,
       instructionSysvarAccount]
    }
  }

  /** The instruction the deposit handler builds. */
  function DepositInstruction(ctx: DepositAccounts, liquidityAmount: U64): (ix: Instruction)
    ensures ix.programId == ctx.kaminoLendingProgram.key
    ensures |ix.accounts| == 12
    ensures |ix.data| == 8 && DecodeU64LE(ix.data) == Some(liquidityAmount)
  {
    Instruction(ctx.kaminoLendingProgram.key,
                AccountMetas(ctx.CpiAccounts()),
                DepositReserveLiquidity(liquidityAmount).Serialize())
  }

  /** `kamino_deposit_reserve_liquidity`: build the instruction and return what `invoke` returns. */
  function KaminoDepositReserveLiquidity<E>(ctx: DepositAccounts, liquidityAmount: U64, invoke: Invoke<E>): (r: Result<(), E>)
    ensures var out := invoke(DepositInstruction(ctx, liquidityAmount), ctx.CpiAccounts());
      (r.Ok? <==> out.Ok?) && (out.Err? ==> r == Err(out.error))
  {
    var ix := DepositInstruction(ctx, liquidityAmount);
    match invoke(ix, ctx.CpiAccounts())
    case Ok(_) => Ok(())
    case Err(e) => Err(e)
  }

  /**
   * Deposit forwards the first twelve declared accounts, in declaration
   * order and with their flags unchanged, and routes to the last one.
   */
  lemma DepositForwardsDeclaredAccounts(ctx: DepositAccounts, liquidityAmount: U64)
    ensures var ix := DepositInstruction(ctx, liquidityAmount);
      && ctx.CpiAccounts() == ctx.Fields()[..12]
      && ix.accounts == AccountMetas(ctx.Fields()[..12])
      && ix.programId == ctx.Fields()[12].key
      && forall i :: 0 <= i < 12 ==> InfoOf(ix.accounts[i]) == ctx.Fields()[i]
  {
  }

  /** The program account decides the program id and nothing else. */
  lemma DepositProgramAccountOnlyRoutes(ctx: DepositAccounts, program: AccountInfo, liquidityAmount: U64)
    ensures var other := ctx.(kaminoLendingProgram := program);
      && other.CpiAccounts() == ctx.CpiAccounts()
      && DepositInstruction(other, liquidityAmount).accounts == DepositInstruction(ctx, liquidityAmount).accounts
      && DepositInstruction(other, liquidityAmount).data == DepositInstruction(ctx, liquidityAmount).data
      && DepositInstruction(other, liquidityAmount).programId == program.key
  {
  }

  /** Under Anchor's checks the owner signs and the five `mut` accounts are writable. */
  lemma DepositEnforcedFlags(ctx: DepositAccounts, liquidityAmount: U64)
    requires ctx.Declared(false)
    ensures var m := DepositInstruction(ctx, liquidityAmount).accounts;
      m[0].isSigner && m[1].isWritable && m[5].isWritable && m[6].isWritable &&
      m[7].isWritable && m[8].isWritable
  {
  }

  /** With exactly the declared privileges, only meta 0 signs and exactly 1, 5, 6, 7, 8 are writable. */
  lemma DepositExactFlags(ctx: DepositAccounts, liquidityAmount: U64)
    requires ctx.Declared(true)
    ensures var m := DepositInstruction(ctx, liquidityAmount).accounts;
      forall i :: 0 <= i < 12 ==>
        (m[i].isSigner <==> i == 0) &&
        (m[i].isWritable <==> i in {1, 5, 6, 7, 8})
  {
  }

  // ---------------------------------------------------------------------
  // Borrow

  /** The accounts of `kamino_borrow_obligation_liquidity`, in declaration order. */
  datatype BorrowAccounts = BorrowAccounts(
    owner: AccountInfo,
    obligation: AccountInfo,
    lendingMarket: AccountInfo,
    lendingMarketAuthority: AccountInfo,
    borrowReserve: AccountInfo,
    borrowReserveLiquidityMint: AccountInfo,
    reserveSourceLiquidity: AccountInfo,
    borrowReserveLiquidityFeeReceiver: AccountInfo,
    userDestinationLiquidity: AccountInfo,
    referrerTokenState: Option<AccountInfo>,
    tokenProgram: AccountInfo,
    instructionSysvarAccount: AccountInfo,
    kaminoLendingProgram: AccountInfo)
  {
    /** Every field that is always present, in the order the struct declares them. */
    function Required(): seq<AccountInfo>
    {
      [owner, obligation, lendingMarket, lendingMarketAuthority, borrowReserve,
       borrowReserveLiquidityMint, reserveSourceLiquidity, borrowReserveLiquidityFeeReceiver,
       userDestinationLiquidity, tokenProgram, instructionSysvarAccount, kaminoLendingProgram]
    }

    /** The declared privileges: `owner` is a `Signer`; six accounts, the optional referrer among them, are `mut`. */
    predicate Declared(exact: bool)
    {
      && Flags(owner, true, false, exact)
      && Flags(obligation, false, true, exact)
      && Flags(lendingMarket, false, false, exact)
      && Flags(lendingMarketAuthority, false, false, exact)
      && Flags(borrowReserve, false, true, exact)
      && Flags(borrowReserveLiquidityMint, false, false, exact)
      && Flags(reserveSourceLiquidity, false, true, exact)
      && Flags(borrowReserveLiquidityFeeReceiver, false, true, exact)
      && Flags(userDestinationLiquidity, false, true, exact)
      && (referrerTokenState.Some? ==> Flags(referrerTokenState.value, false, true, exact))
      && Flags(tokenProgram, false, false, exact)
      && Flags(instructionSysvarAccount, false, false, exact)
      && Flags(kaminoLendingProgram, false, false, exact)
    }

    /** `referrer_token_state.unwrap_or(token_program)`. */
    function ReferrerOrFallback(): AccountInfo
    {
      match referrerTokenState
      case Some(referrer) => referrer
      case None => tokenProgram
    }

    /** The accounts forwarded to Kamino (`cpi_accounts`). */
    function CpiAccounts(): (infos: seq<AccountInfo>)
      ensures |infos| == 12
    {
      [owner, obligation, lendingMarket, lendingMarketAuthority, borrowReserve,
       borrowReserveLiquidityMint, reserveSourceLiquidity, borrowReserveLiquidityFeeReceiver,
       userDestinationLiquidity, ReferrerOrFallback(), tokenProgram, instructionSysvarAccount]
    }
  }

  /** The instruction the borrow handler builds. */
  function BorrowInstruction(ctx: BorrowAccounts, liquidityAmount: U64): (ix: Instruction)
    ensures ix.programId == ctx.kaminoLendingProgram.key
    ensures |ix.accounts| == 12
    ensures |ix.data| == 8 && DecodeU64LE(ix.data) == Some(liquidityAmount)
  {
    Instruction(ctx.kaminoLendingProgram.key,
                AccountMetas(ctx.CpiAccounts()),
                BorrowObligationLiquidity(liquidityAmount).Serialize())
  }

  /** `kamino_borrow_obligation_liquidity`: build the instruction and return what `invoke` returns. */
  function KaminoBorrowObligationLiquidity<E>(ctx: BorrowAccounts, liquidityAmount: U64, invoke: Invoke<E>): (r: Result<(), E>)
    ensures var out := invoke(BorrowInstruction(ctx, liquidityAmount), ctx.CpiAccounts());
      (r.Ok? <==> out.Ok?) && (out.Err? ==> r == Err(out.error))
  {
    var ix := BorrowInstruction(ctx, liquidityAmount);
    match invoke(ix, ctx.CpiAccounts())
    case Ok(_) => Ok(())
    case Err(e) => Err(e)
  }

  /**
   * Borrow forwards the first nine declared accounts in order, then the
   * referrer (or its fallback), then the token program and the sysvar, and
   * routes to the program account.
   */
  lemma BorrowForwardsDeclaredAccounts(ctx: BorrowAccounts, liquidityAmount: U64)
    ensures var ix := BorrowInstruction(ctx, liquidityAmount);
      && ctx.CpiAccounts() == ctx.Required()[..9] + [ctx.ReferrerOrFallback()] + ctx.Required()[9..11]
      && ix.accounts == AccountMetas(ctx.CpiAccounts())
      && ix.programId == ctx.Required()[11].key
      && forall i :: 0 <= i < 12 ==> InfoOf(ix.accounts[i]) == ctx.CpiAccounts()[i]
  {
  }

  /**
   * Slot 9 is the referrer when there is one; otherwise it is the token
   * program, so slots 9 and 10 carry the same meta.
   */
  lemma BorrowReferrerSlot(ctx: BorrowAccounts, liquidityAmount: U64)
    ensures var m := BorrowInstruction(ctx, liquidityAmount).accounts;
      && (ctx.referrerTokenState.Some? ==> InfoOf(m[9]) == ctx.referrerTokenState.value)
      && (ctx.referrerTokenState.None? ==> InfoOf(m[9]) == ctx.tokenProgram && m[9] == m[10])
      && InfoOf(m[10]) == ctx.tokenProgram
  {
  }

  /** The program account decides the program id and nothing else. */
  lemma BorrowProgramAccountOnlyRoutes(ctx: BorrowAccounts, program: AccountInfo, liquidityAmount: U64)
    ensures var other := ctx.(kaminoLendingProgram := program);
      && other.CpiAccounts() == ctx.CpiAccounts()
      && BorrowInstruction(other, liquidityAmount).accounts == BorrowInstruction(ctx, liquidityAmount).accounts
      && BorrowInstruction(other, liquidityAmount).data == BorrowInstruction(ctx, liquidityAmount).data
      && BorrowInstruction(other, liquidityAmount).programId == program.key
  {
  }

  /** Under Anchor's checks the owner signs and the `mut` accounts, a present referrer included, are writable. */
  lemma BorrowEnforcedFlags(ctx: BorrowAccounts, liquidityAmount: U64)
    requires ctx.Declared(false)
    ensures var m := BorrowInstruction(ctx, liquidityAmount).accounts;
      && m[0].isSigner && m[1].isWritable && m[4].isWritable && m[6].isWritable
      && m[7].isWritable && m[8].isWritable
      && (ctx.referrerTokenState.Some? ==> m[9].isWritable)
  {
  }

  /**
   * With exactly the declared privileges, only meta 0 signs, and exactly
   * 1, 4, 6, 7, 8 are writable, plus 9 when a referrer is present.
   */
  lemma BorrowExactFlags(ctx: BorrowAccounts, liquidityAmount: U64)
    requires ctx.Declared(true)
    ensures var m := BorrowInstruction(ctx, liquidityAmount).accounts;
      forall i :: 0 <= i < 12 ==>
        (m[i].isSigner <==> i == 0) &&
        (m[i].isWritable <==> i in {1, 4, 6, 7, 8} || (i == 9 && ctx.referrerTokenState.Some?))
  {
  }

  // ---------------------------------------------------------------------
  // Repay

  /** The accounts of `kamino_repay_obligation_liquidity`, in declaration order. */
  datatype RepayAccounts = RepayAccounts(
    owner: AccountInfo,
    obligation: AccountInfo,
    lendingMarket: AccountInfo,
    repayReserve: AccountInfo,
    reserveLiquidityMint: AccountInfo,
    reserveDestinationLiquidity: AccountInfo,
    userSourceLiquidity: AccountInfo,
    tokenProgram: AccountInfo,
    instructionSysvarAccount: AccountInfo,
    kaminoLendingProgram: AccountInfo)
  {
    /** Every field, in the order the struct declares them. */
    function Fields(): seq<AccountInfo>
    {
      [owner, obligation, lendingMarket, repayReserve, reserveLiquidityMint,
       reserveDestinationLiquidity, userSourceLiquidity, tokenProgram,
       instructionSysvarAccount, kaminoLendingProgram]
    }

    /** The declared privileges: `owner` is a `Signer`, four accounts are `mut`. */
    predicate Declared(exact: bool)
    {
      && Flags(owner, true, false, exact)
      && Flags(obligation, false, true, exact)
      && Flags(lendingMarket, false, false, exact)
      && Flags(repayReserve, false, true, exact)
      && Flags(reserveLiquidityMint, false, false, exact)
      && Flags(reserveDestinationLiquidity, false, true, exact)
      && Flags(userSourceLiquidity, false, true, exact)
      && Flags(tokenProgram, false, false, exact)
      && Flags(instructionSysvarAccount, false, false, exact)
      && Flags(kaminoLendingProgram, false, false, exact)
    }

    /** The accounts forwarded to Kamino (`cpi_accounts`). */
    function CpiAccounts(): (infos: seq<AccountInfo>)
      ensures |infos| == 9
    {
      [owner, obligation, lendingMarket, repayReserve, reserveLiquidityMint,
       reserveDestinationLiquidity, userSourceLiquidity, tokenProgram,
       instructionSysvarAccount]
    }
  }

  /** The instruction the repay handler builds. */
  function RepayInstruction(ctx: RepayAccounts, liquidityAmount: U64): (ix: Instruction)
    ensures ix.programId == ctx.kaminoLendingProgram.key
    ensures |ix.accounts| == 9
    ensures |ix.data| == 8 && DecodeU64LE(ix.data) == Some(liquidityAmount)
  {
    Instruction(ctx.kaminoLendingProgram.key,
                AccountMetas(ctx.CpiAccounts()),
                RepayObligationLiquidity(liquidityAmount).Serialize())
  }

  /** `kamino_repay_obligation_liquidity`: build the instruction and return what `invoke` returns. */
  function KaminoRepayObligationLiquidity<E>(ctx: RepayAccounts, liquidityAmount: U64, invoke: Invoke<E>): (r: Result<(), E>)
    ensures var out := invoke(RepayInstruction(ctx, liquidityAmount), ctx.CpiAccounts());
      (r.Ok? <==> out.Ok?) && (out.Err? ==> r == Err(out.error))
  {
    var ix := RepayInstruction(ctx, liquidityAmount);
    match invoke(ix, ctx.CpiAccounts())
    case Ok(_) => Ok(())
    case Err(e) => Err(e)
  }

  /**
   * Repay forwards the first nine declared accounts, in declaration order
   * and with their flags unchanged, and routes to the last one.
   */
  lemma RepayForwardsDeclaredAccounts(ctx: RepayAccounts, liquidityAmount: U64)
    ensures var ix := RepayInstruction(ctx, liquidityAmount);
      && ctx.CpiAccounts() == ctx.Fields()[..9]
      && ix.accounts == AccountMetas(ctx.Fields()[..9])
      && ix.programId == ctx.Fields()[9].key
      && forall i :: 0 <= i < 9 ==> InfoOf(ix.accounts[i]) == ctx.Fields()[i]
  {
  }

  /** The program account decides the program id and nothing else. */
  lemma RepayProgramAccountOnlyRoutes(ctx: RepayAccounts, program: AccountInfo, liquidityAmount: U64)
    ensures var other := ctx.(kaminoLendingProgram := program);
      && other.CpiAccounts() == ctx.CpiAccounts()
      && RepayInstruction(other, liquidityAmount).accounts == RepayInstruction(ctx, liquidityAmount).accounts
      && RepayInstruction(other, liquidityAmount).data == RepayInstruction(ctx, liquidityAmount).data
      && RepayInstruction(other, liquidityAmount).programId == program.key
  {
  }

  /** Under Anchor's checks the owner signs and the four `mut` accounts are writable. */
  lemma RepayEnforcedFlags(ctx: RepayAccounts, liquidityAmount: U64)
    requires ctx.Declared(false)
    ensures var m := RepayInstruction(ctx, liquidityAmount).accounts;
      m[0].isSigner && m[1].isWritable && m[3].isWritable && m[5].isWritable && m[6].isWritable
  {
  }

  /** With exactly the declared privileges, only meta 0 signs and exactly 1, 3, 5, 6 are writable. */
  lemma RepayExactFlags(ctx: RepayAccounts, liquidityAmount: U64)
    requires ctx.Declared(true)
    ensures var m := RepayInstruction(ctx, liquidityAmount).accounts;
      forall i :: 0 <= i < 9 ==>
        (m[i].isSigner <==> i == 0) &&
        (m[i].isWritable <==> i in {1, 3, 5, 6})
  {
  }
}
