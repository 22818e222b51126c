/** The account store (db/statedb, db/kvdb): a current content and one checkpoint per batch. */
module StateDB {
  import opened Wrappers
  import opened Common
  import Ledger
  import Effects

  /** An in-memory account, shared by reference while a tx is executed. */
  class AccountCell {
    var idx: Idx
    var tokenID: TokenID
    var nonce: nat
    var balance: int
    var bjj: BJJ
    var ethAddr: EthAddr

    constructor (idx: Idx, acc: Account)
      ensures this.idx == idx && Value() == acc
    {
      this.idx := idx;
      tokenID := acc.tokenID;
      nonce := acc.nonce;
      balance := acc.balance;
      bjj := acc.bjj;
      ethAddr := acc.ethAddr;
    }

    function Value(): Account
      reads this
    {
      Account(tokenID, nonce, balance, bjj, ethAddr)
    }
  }

  class StateDB {
    var content: Ledger.State
    var currentBatch: nat
    var checkpoints: map<nat, Ledger.State>

    constructor ()
      ensures content == Ledger.EMPTY_STATE && currentBatch == 0 && checkpoints == map[]
    {
      content := Ledger.EMPTY_STATE;
      currentBatch := 0;
      checkpoints := map[];
    }

    /** Always a new copy of the stored account, with its index set. */
    method GetAccount(idx: Idx) returns (r: Result<AccountCell, Error>)
      ensures r.Ok? == Ledger.GetAccount(content, idx).Ok?
      ensures r.Err? ==> Ledger.GetAccount(content, idx) == Err(r.error)
      ensures r.Ok? ==> fresh(r.value) && r.value.idx == idx
      ensures r.Ok? ==> Ledger.GetAccount(content, idx) == Ok(r.value.Value())
    {
      if idx > MAX_IDX {
        return Err(NumOverflow);
      }
      if idx !in content.accounts {
        return Err(AccountNotFound);
      }
      var acc := new AccountCell(idx, content.accounts[idx]);
      return Ok(acc);
    }

    method UpdateAccount(idx: Idx, acc: AccountCell) returns (err: Option<Error>)
      modifies `content
      ensures Ledger.Outcome(content, err) == Ledger.UpdateAccount(old(content), idx, acc.Value())
    {
      if acc.nonce > MAX_NONCE || acc.balance >= BALANCE_LIMIT || idx > MAX_IDX {
        return Some(NumOverflow);
      }
      content := content.(accounts := content.accounts[idx := acc.Value()]);
      return None;
    }

    method CreateAccount(idx: Idx, acc: AccountCell) returns (err: Option<Error>)
      modifies `content
      ensures Ledger.Outcome(content, err) == Ledger.CreateAccount(old(content), idx, acc.Value())
    {
      if acc.nonce > MAX_NONCE || acc.balance >= BALANCE_LIMIT || idx > MAX_IDX {
        return Some(NumOverflow);
      }
      if idx in content.accounts {
        return Some(AccountAlreadyExists);
      }
      content := content.(accounts := content.accounts[idx := acc.Value()]);
      SetIdxByEthAddrBJJ(idx, acc.ethAddr, acc.bjj, acc.tokenID);
      return None;
    }

    method SetIdxByEthAddrBJJ(idx: Idx, addr: EthAddr, pk: BJJ, token: TokenID)
      modifies `content
      ensures forall acc: Account | acc.ethAddr == addr && acc.bjj == pk && acc.tokenID == token ::
                content == Ledger.SetIdxByEthAddrBJJ(old(content), idx, acc)
    {
      var oldIdx := Ledger.GetIdxByEthAddrBJJ(content, addr, pk, token);
      if oldIdx.Ok? {
        if idx >= oldIdx.value {
          return;
        }
      }
      content := content.(byEthBJJ := content.byEthBJJ[(addr, pk, token) := idx]);
      content := content.(byEth := content.byEth[(addr, token) := idx]);
    }

    /** The account of each token among the given ones; fails if one does not exist. */
    method GetTokenIDsFromIdxs(idxs: seq<Idx>) returns (r: Result<map<TokenID, Idx>, Error>)
      ensures r == Effects.CoordMap(content, idxs)
    {
      var m := map[];
      for i := 0 to |idxs|
        invariant Effects.CoordMap(content, idxs[..i]) == Ok(m)
      {
        assert idxs[..i + 1][..i] == idxs[..i];
        var a := GetAccount(idxs[i]);
        if a.Err? {
          Effects.CoordMapFails(content, idxs, i + 1);
          return Err(a.error);
        }
        m := m[a.value.tokenID := idxs[i]];
      }
      assert idxs[..|idxs|] == idxs;
      return Ok(m);
    }

    method SetCurrentIdx(idx: Idx)
      modifies `content
      ensures content == old(content).(currentIdx := idx)
    {
      content := content.(currentIdx := idx);
    }

    method MakeCheckpoint()
      modifies `currentBatch, `checkpoints
      ensures currentBatch == old(currentBatch) + 1
      ensures checkpoints == old(checkpoints)[currentBatch := content]
    {
      currentBatch := currentBatch + 1;
      checkpoints := checkpoints[currentBatch := content];
    }

    /** What Reset to a batch restores: its checkpoint, or an empty store for batch 0. */
    function Restored(batch: nat): Option<Ledger.State>
      reads this
    {
      if batch == 0 then Some(Ledger.EMPTY_STATE)
      else if batch in checkpoints then Some(checkpoints[batch])
      else None
    }

    /** Goes back to a checkpoint and forgets the later ones; fails if there is no such checkpoint. */
    method Reset(batch: nat) returns (ok: bool)
      modifies this
      ensures ok == old(Restored(batch)).Some?
      ensures ok ==> content == old(Restored(batch)).value && currentBatch == batch
      ensures !ok ==> content == old(content) && currentBatch == old(currentBatch)
      ensures checkpoints == map b | b in old(checkpoints) && b <= batch :: old(checkpoints)[b]
    {
      checkpoints := map b | b in checkpoints && b <= batch :: checkpoints[b];
      if batch == 0 {
        content := Ledger.EMPTY_STATE;
        currentBatch := 0;
        return true;
      }
      if batch !in checkpoints {
        return false;
      }
      content := checkpoints[batch];
      currentBatch := batch;
      return true;
    }
  }
}
