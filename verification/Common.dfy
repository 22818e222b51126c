/** The entities of the rollup: accounts and transactions (package `common`). */
module Common {
  import opened Wrappers

  type byte = b: nat | b < 256

  type Idx = nat
  type TokenID = t: nat | t < 0x1_0000_0000
  type EthAddr = a: seq<byte> | |a| == 20 witness [0, 0, 0, 0, 0, 0, 0, 0, 0, 0, 0, 0, 0, 0, 0, 0, 0, 0, 0, 0]
  type BJJ = k: seq<byte> | |k| == 32 
    witness [0, 0, 0, 0, 0, 0, 0, 0, 0, 0, 0, 0, 0, 0, 0, 0,
             0, 0, 0, 0, 0, 0, 0, 0, 0, 0, 0, 0, 0, 0, 0, 0]
  type TxID = nat
  type AtomicGroupID = nat
  type FeeSelector = byte

  const EXIT_IDX: Idx := 1
  const RESERVED_IDX: Idx := 255
  const USER_THRESHOLD: Idx := 256
  const MAX_IDX: Idx := 0xffff_ffff_ffff
  const MAX_NONCE: nat := 0xff_ffff_ffff
  // One more than the greatest balance that fits in 24 bytes.
  const BALANCE_LIMIT: nat := 0x1_0000_0000_0000_0000_0000_0000_0000_0000_0000_0000_0000_0000
  const MAX_FEE_IDX_COORDINATOR: nat := 64
  const NO_GROUP: AtomicGroupID := 0

  const EMPTY_ADDR: EthAddr := [0, 0, 0, 0, 0, 0, 0, 0, 0, 0, 0, 0, 0, 0, 0, 0, 0, 0, 0, 0]
  const FF_ADDR: EthAddr :=
    [255, 255, 255, 255, 255, 255, 255, 255, 255, 255, 255, 255, 255, 255, 255, 255, 255, 255, 255, 255]
  const EMPTY_BJJ: BJJ :=
    [0, 0, 0, 0, 0, 0, 0, 0, 0, 0, 0, 0, 0, 0, 0, 0,
     0, 0, 0, 0, 0, 0, 0, 0, 0, 0, 0, 0, 0, 0, 0, 0]

  datatype TxType =
    | TxTypeExit
    | TxTypeTransfer
    | TxTypeTransferToEthAddr
    | TxTypeTransferToBJJ
    | TxTypeDeposit
    | TxTypeCreateAccountDeposit
    | TxTypeCreateAccountDepositTransfer
    | TxTypeDepositTransfer
    | TxTypeForceTransfer
    | TxTypeForceExit
    | TxTypeNone

  datatype Error =
    | AccountNotFound
    | AccountAlreadyExists
    | IdxNotFound
    | EthAddrNotFound
    | GetIdxNoCase
    | NumOverflow
    | NotEnoughBalance
    | FeeOverflow
    | NoCoordAccount
    | NotEncodable
    | InvalidRqOffset
    | TooManyTxs
    | IndexOutOfRange
    | SynchronizerToIdxZero
    | MalformedTx

  /** A leaf of the state tree. The balance is signed so that staying non-negative is a theorem. */
  datatype Account = Account(
    tokenID: TokenID,
    nonce: nat,
    balance: int,
    bjj: BJJ,
    ethAddr: EthAddr
  )

  datatype L1Tx = L1Tx(
    position: int,
    userOrigin: bool,
    fromIdx: Idx,
    fromEthAddr: EthAddr,
    fromBJJ: BJJ,
    toIdx: Idx,
    tokenID: TokenID,
    amount: nat,
    depositAmount: nat,
    effectiveAmount: Option<nat>,
    effectiveDepositAmount: Option<nat>,
    txType: TxType
  )

  datatype PoolL2Tx = PoolL2Tx(
    txID: TxID,
    fromIdx: Idx,
    toIdx: Idx,
    auxToIdx: Idx,
    toEthAddr: EthAddr,
    toBJJ: BJJ,
    tokenID: TokenID,
    amount: nat,
    fee: FeeSelector,
    nonce: nat,
    maxNumBatch: nat,
    atomicGroupID: AtomicGroupID,
    rqFromIdx: Idx,
    rqToIdx: Idx,
    rqToEthAddr: EthAddr,
    rqToBJJ: BJJ,
    rqTokenID: TokenID,
    rqAmount: Option<nat>,
    rqFee: FeeSelector,
    rqNonce: nat,
    rqOffset: byte,
    absoluteFee: real,
    txType: TxType
  )

  /** A forged L2 tx, restricted to the fields that are published or read back. */
  datatype L2Tx = L2Tx(fromIdx: Idx, toIdx: Idx, amount: nat, fee: FeeSelector, txType: TxType)

  /** The generic view of L1 and L2 txs that the transfer and exit flows work on. */
  datatype Tx = Tx(isL1: bool, fromIdx: Idx, toIdx: Idx, amount: nat, fee: FeeSelector)

  datatype Config = Config(maxFeeTx: nat, maxTx: nat, maxL1Tx: nat, nLevels: nat)

  /** The type every L1 tx gets from its indexes and its deposit amount. */
  function L1Type(tx: L1Tx): Result<TxType, Error> {
    if tx.fromIdx == 0 then
      if tx.toIdx == 0 then Ok(TxTypeCreateAccountDeposit)
      else if tx.toIdx >= USER_THRESHOLD then Ok(TxTypeCreateAccountDepositTransfer)
      else Err(MalformedTx)
    else if tx.fromIdx >= USER_THRESHOLD then
      if tx.toIdx == 0 then Ok(TxTypeDeposit)
      else if tx.toIdx == EXIT_IDX then Ok(TxTypeForceExit)
      else if tx.toIdx >= USER_THRESHOLD then
        if tx.depositAmount == 0 then Ok(TxTypeForceTransfer) else Ok(TxTypeDepositTransfer)
      else Err(MalformedTx)
    else Err(MalformedTx)
  }

  /** The type every pool tx gets from its receiver fields. */
  function PoolL2Type(tx: PoolL2Tx): Result<TxType, Error> {
    if tx.toIdx >= USER_THRESHOLD then Ok(TxTypeTransfer)
    else if tx.toBJJ == EMPTY_BJJ && tx.toEthAddr == EMPTY_ADDR && tx.toIdx == EXIT_IDX then Ok(TxTypeExit)
    else if tx.toIdx == 0 then
      if tx.toBJJ != EMPTY_BJJ && tx.toEthAddr == FF_ADDR then Ok(TxTypeTransferToBJJ)
      else if tx.toEthAddr != FF_ADDR && tx.toEthAddr != EMPTY_ADDR && tx.toBJJ == EMPTY_BJJ then
        Ok(TxTypeTransferToEthAddr)
      else Err(MalformedTx)
    else Err(MalformedTx)
  }

  /** The type a published L2 tx gets back from its receiver index. */
  function L2Type(toIdx: Idx): Result<TxType, Error> {
    if toIdx == EXIT_IDX then Ok(TxTypeExit)
    else if toIdx >= USER_THRESHOLD then Ok(TxTypeTransfer)
    else Err(MalformedTx)
  }

  predicate IsL2Transfer(t: TxType) {
    t == TxTypeTransfer || t == TxTypeTransferToEthAddr || t == TxTypeTransferToBJJ
  }
}
