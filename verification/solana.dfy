/**
 * The runtime types the relay reads and builds: account handles, account
 * metas and instructions. Only the fields the relay touches are modelled.
 */
module Solana {
  import opened Borsh
  import Wrappers

  /** A 32-byte account address. */
  type Pubkey = k: seq<Byte> | |k| == 32 witness seq(32, _ => 0)

  /** The part of the runtime's `AccountInfo` the relay reads: key and privilege flags. */
  datatype AccountInfo = AccountInfo(key: Pubkey, isSigner: bool, isWritable: bool)

  /** An account reference inside an instruction. */
  datatype AccountMeta = AccountMeta(pubkey: Pubkey, isSigner: bool, isWritable: bool)

  /** An instruction to another program: its id, its ordered accounts and its data. */
  datatype Instruction = Instruction(programId: Pubkey, accounts: seq<AccountMeta>, data: seq<Byte>)

  /** `AccountMeta::new`: a writable reference. */
  function NewWritable(pubkey: Pubkey, isSigner: bool): AccountMeta
  {
    AccountMeta(pubkey, isSigner, true)
  }

  /** `AccountMeta::new_readonly`: a read-only reference. */
  function NewReadonly(pubkey: Pubkey, isSigner: bool): AccountMeta
  {
    AccountMeta(pubkey, isSigner, false)
  }

  /**
   * The account handle the runtime hands to the callee for a reference in
   * its instruction: same key, same privileges.
   */
  function InfoOf(meta: AccountMeta): AccountInfo
  {
    AccountInfo(meta.pubkey, meta.isSigner, meta.isWritable)
  }

  /**
   * No address occurs twice. The runtime merges the privileges of an
   * address that appears more than once in an instruction, so binding
   * metas position by position is faithful only for distinct addresses.
   */
  predicate DistinctKeys(keys: seq<Pubkey>)
  {
    forall i, j :: 0 <= i < j < |keys| ==> keys[i] != keys[j]
  }

  /** `invoke`: the runtime's cross-program call, which this model does not look inside. */
  type Invoke<E> = (Instruction, seq<AccountInfo>) -> Wrappers.Result<(), E>
}
