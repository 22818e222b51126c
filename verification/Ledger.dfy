/**
 The content of a StateDB as a value (db/statedb): the accounts, the last index used, and the
 two lookup tables from an owner to its account. Every operation is total: a failing one
 returns the error together with the state it leaves behind.
 */
module Ledger {
  import opened Wrappers
  import opened Common

  datatype State = State(
    accounts: map<Idx, Account>,
    currentIdx: Idx,
    byEthBJJ: map<(EthAddr, BJJ, TokenID), Idx>,
    byEth: map<(EthAddr, TokenID), Idx>
  )

  /** A state and the error, if any, of the operation that left it. */
  datatype Outcome = Outcome(st: State, err: Option<Error>)

  const EMPTY_STATE := State(map[], RESERVED_IDX, map[], map[])

  /** The account can be written as a leaf: a nonce of 40 bits, a balance of 192 bits. */
  predicate Fits(acc: Account) {
    acc.nonce <= MAX_NONCE && acc.balance < BALANCE_LIMIT
  }

  function GetAccount(st: State, idx: Idx): Result<Account, Error> {
    if idx > MAX_IDX then Err(NumOverflow)
    else if idx in st.accounts then Ok(st.accounts[idx])
    else Err(AccountNotFound)
  }

  function UpdateAccount(st: State, idx: Idx, acc: Account): Outcome {
    if !Fits(acc) || idx > MAX_IDX then Outcome(st, Some(NumOverflow))
    else Outcome(st.(accounts := st.accounts[idx := acc]), None)
  }

  function GetIdxByEthAddr(st: State, addr: EthAddr, token: TokenID): Result<Idx, Error> {
    if (addr, token) in st.byEth then Ok(st.byEth[(addr, token)]) else Err(EthAddrNotFound)
  }

  function GetIdxByEthAddrBJJ(st: State, addr: EthAddr, pk: BJJ, token: TokenID): Result<Idx, Error> {
    if addr == EMPTY_ADDR then Err(GetIdxNoCase)
    else if pk == EMPTY_BJJ then GetIdxByEthAddr(st, addr, token)
    else if (addr, pk, token) in st.byEthBJJ then Ok(st.byEthBJJ[(addr, pk, token)])
    else Err(IdxNotFound)
  }

  /** The first index of an owner wins; a later account of the same owner is not recorded. */
  function SetIdxByEthAddrBJJ(st: State, idx: Idx, acc: Account): State {
    var found := GetIdxByEthAddrBJJ(st, acc.ethAddr, acc.bjj, acc.tokenID);
    if found.Ok? && idx >= found.value then st
    else st.(byEthBJJ := st.byEthBJJ[(acc.ethAddr, acc.bjj, acc.tokenID) := idx],
             byEth := st.byEth[(acc.ethAddr, acc.tokenID) := idx])
  }

  function CreateAccount(st: State, idx: Idx, acc: Account): Outcome {
    if !Fits(acc) || idx > MAX_IDX then Outcome(st, Some(NumOverflow))
    else if idx in st.accounts then Outcome(st, Some(AccountAlreadyExists))
    else Outcome(SetIdxByEthAddrBJJ(st.(accounts := st.accounts[idx := acc]), idx, acc), None)
  }

  /**
   What every reachable StateDB satisfies: indexes run up to `currentIdx`, leaves fit, balances
   are not negative, and both lookup tables point to accounts of the owner and token asked for.
   */
  ghost predicate Valid(st: State) {
    && RESERVED_IDX <= st.currentIdx
    && (forall i :: i in st.accounts ==> USER_THRESHOLD <= i <= st.currentIdx && i <= MAX_IDX)
    && (forall i :: i in st.accounts ==> Fits(st.accounts[i]) && 0 <= st.accounts[i].balance)
    && (forall a, k, t :: (a, k, t) in st.byEthBJJ ==>
          var i := st.byEthBJJ[(a, k, t)];
          && i in st.accounts && st.accounts[i].ethAddr == a
          && st.accounts[i].bjj == k && st.accounts[i].tokenID == t)
    && (forall a, t :: (a, t) in st.byEth ==>
          var i := st.byEth[(a, t)];
          i in st.accounts && st.accounts[i].ethAddr == a && st.accounts[i].tokenID == t)
  }

  /** The two states agree on everything but nonces and balances. */
  ghost predicate SameOwners(s: State, t: State) {
    && s.accounts.Keys == t.accounts.Keys
    && s.currentIdx == t.currentIdx && s.byEthBJJ == t.byEthBJJ && s.byEth == t.byEth
    && (forall i :: i in s.accounts ==> SameOwner(s.accounts[i], t.accounts[i]))
  }

  predicate SameOwner(a: Account, b: Account) {
    a.tokenID == b.tokenID && a.bjj == b.bjj && a.ethAddr == b.ethAddr
  }

  lemma UpdateKeepsValid(st: State, idx: Idx, acc: Account)
    requires Valid(st) && idx in st.accounts && SameOwner(st.accounts[idx], acc) && 0 <= acc.balance
    ensures Valid(UpdateAccount(st, idx, acc).st)
    ensures SameOwners(st, UpdateAccount(st, idx, acc).st)
  {
  }

  lemma CreateKeepsValid(st: State, acc: Account)
    requires Valid(st) && 0 <= acc.balance
    requires CreateAccount(st, st.currentIdx + 1, acc).err == None
    ensures Valid(CreateAccount(st, st.currentIdx + 1, acc).st.(currentIdx := st.currentIdx + 1))
  {
  }

  /** An index found under an address and a key stays the answer whatever accounts are created. */
  lemma LookupIsStable(st: State, acc: Account, a: EthAddr, k: BJJ, t: TokenID)
    requires Valid(st) && k != EMPTY_BJJ
    requires GetIdxByEthAddrBJJ(st, a, k, t).Ok?
    ensures GetIdxByEthAddrBJJ(CreateAccount(st, st.currentIdx + 1, acc).st, a, k, t)
            == GetIdxByEthAddrBJJ(st, a, k, t)
  {
  }
}
