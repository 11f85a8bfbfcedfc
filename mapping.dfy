/**
 * The ERC-721 event indexer of src/mapping.ts: an entity store updated in
 * place by one handler per event kind. Contract reads go to a `Chain`
 * oracle; `probes` records every `supportsInterface` call issued, so that
 * "classification runs at most once per address" can be stated.
 *
 * The effect of `fetchERC721` on the store is first defined on values
 * (`FetchedContract`, `AccountsAfterFetch`, `ContractsAfterFetch`,
 * `ProbesOfFetch`); the methods of `Indexer` are proved against those
 * functions, and the properties of classification are lemmas about them.
 */
module Mapping {
  import opened Wrappers
  import opened Entities

  /**
   * The verdict fetchERC721 acts on for an address without a contract: the
   * recorded one when a detection record exists, else a fresh classification.
   */
  function StoredVerdict(accounts: map<Bytes, Account>, chain: Chain, a: Address): bool {
    if DetectionKey(a) in accounts then accounts[DetectionKey(a)].asERC721.Some? else IsERC721(chain, a)
  }

  /** The result of fetchERC721: the stored contract, else a new one on a positive verdict. */
  function FetchedContract(accounts: map<Bytes, Account>, contracts: map<Address, Contract>,
                           chain: Chain, a: Address): Option<Contract> {
    if a in contracts then Some(contracts[a])
    else if StoredVerdict(accounts, chain, a) then Some(NewContract(chain, a))
    else None
  }

  /** The contract table after fetchERC721: the new contract is saved. */
  function ContractsAfterFetch(accounts: map<Bytes, Account>, contracts: map<Address, Contract>,
                               chain: Chain, a: Address): map<Address, Contract> {
    if a !in contracts && StoredVerdict(accounts, chain, a) then contracts[a := NewContract(chain, a)]
    else contracts
  }

  /**
   * The account table after fetchERC721: a missing detection record is
   * written with the verdict, and on a positive verdict the account of the
   * address is saved with its link to the contract.
   */
  function AccountsAfterFetch(accounts: map<Bytes, Account>, contracts: map<Address, Contract>,
                              chain: Chain, a: Address): map<Bytes, Account> {
    if a in contracts then accounts
    else
      var recorded := if DetectionKey(a) in accounts then accounts
                      else accounts[DetectionKey(a) := Verdict(a, IsERC721(chain, a))];
      if StoredVerdict(accounts, chain, a) then recorded[a := Account(Some(a))] else recorded
  }

  /** The supportsInterface calls fetchERC721 issues, in order. */
  function ProbesOfFetch(accounts: map<Bytes, Account>, contracts: map<Address, Contract>,
                         chain: Chain, a: Address): seq<Probe> {
    if a in contracts then []
    else
      (if DetectionKey(a) in accounts then [] else ClassificationProbes(a))
      + (if StoredVerdict(accounts, chain, a) then [Probe(a, ERC721MetadataId)] else [])
  }

  /**
   * The invariant of the store: a contract is stored exactly for the
   * addresses whose recorded verdict is positive, and carries its own
   * address as id and account link; its account exists.
   */
  ghost predicate ContractsMatchVerdicts(accounts: map<Bytes, Account>, contracts: map<Address, Contract>) {
    && (forall a: Address | a in contracts :: DetectionKey(a) in accounts)
    && (forall a: Address | DetectionKey(a) in accounts ::
          accounts[DetectionKey(a)] == Verdict(a, a in contracts))
    && (forall a | a in contracts :: contracts[a].id == a && contracts[a].asAccount == a && a in accounts)
  }

  /**
   * Classification runs at most once: a second fetchERC721 of the same
   * address issues no probe, changes nothing and returns what the first
   * one returned.
   */
  lemma {:induction false} FetchIdempotent(accounts: map<Bytes, Account>, contracts: map<Address, Contract>,
                                           chain: Chain, a: Address)
    ensures var acc1 := AccountsAfterFetch(accounts, contracts, chain, a);
            var con1 := ContractsAfterFetch(accounts, contracts, chain, a);
            && ProbesOfFetch(acc1, con1, chain, a) == []
            && AccountsAfterFetch(acc1, con1, chain, a) == acc1
            && ContractsAfterFetch(acc1, con1, chain, a) == con1
            && FetchedContract(acc1, con1, chain, a) == FetchedContract(accounts, contracts, chain, a)
  {
    var acc1 := AccountsAfterFetch(accounts, contracts, chain, a);
    if a !in contracts && !StoredVerdict(accounts, chain, a) {
      assert DetectionKey(a) in acc1;
      assert acc1[DetectionKey(a)].asERC721.None?;
    }
  }

  /**
   * A first fetch of an address classifies it: the three probes are
   * issued, the verdict recorded under its detection key is the
   * classification, and a contract results exactly on a positive verdict.
   */
  lemma FirstFetchClassifies(accounts: map<Bytes, Account>, contracts: map<Address, Contract>,
                             chain: Chain, a: Address)
    requires a !in contracts && DetectionKey(a) !in accounts
    ensures ProbesOfFetch(accounts, contracts, chain, a)[..3] == ClassificationProbes(a)
    ensures var acc1 := AccountsAfterFetch(accounts, contracts, chain, a);
            DetectionKey(a) in acc1 && acc1[DetectionKey(a)] == Verdict(a, IsERC721(chain, a))
    ensures FetchedContract(accounts, contracts, chain, a).Some? <==> IsERC721(chain, a)
  {
    DetectionKeyIsNoAddress(a, a);
  }

  /**
   * A new contract carries the address as id and account link, the name
   * and symbol read from the chain (empty on revert) and the metadata probe.
   */
  lemma NewContractFields(accounts: map<Bytes, Account>, contracts: map<Address, Contract>,
                          chain: Chain, a: Address)
    requires a !in contracts
    requires FetchedContract(accounts, contracts, chain, a).Some?
    ensures var c := FetchedContract(accounts, contracts, chain, a).value;
            && c.id == a && c.asAccount == a
            && (chain.name(a).Some? ==> c.name == chain.name(a).value)
            && (chain.name(a).None? ==> c.name == "")
            && (chain.symbol(a).Some? ==> c.symbol == chain.symbol(a).value)
            && (chain.symbol(a).None? ==> c.symbol == "")
            && (c.supportsMetadata <==> chain.supportsInterface(a, ERC721MetadataId) == Some(true))
    ensures ProbesOfFetch(accounts, contracts, chain, a)[|ProbesOfFetch(accounts, contracts, chain, a)| - 1]
         == Probe(a, ERC721MetadataId)
  {
  }

  /**
   * In a consistent store a recorded negative verdict is final: fetching
   * the address again yields no contract, issues no probe and changes nothing.
   */
  lemma NegativeVerdictSticks(accounts: map<Bytes, Account>, contracts: map<Address, Contract>,
                              chain: Chain, a: Address)
    requires ContractsMatchVerdicts(accounts, contracts)
    requires DetectionKey(a) in accounts && a !in contracts
    ensures FetchedContract(accounts, contracts, chain, a) == None
    ensures ProbesOfFetch(accounts, contracts, chain, a) == []
    ensures AccountsAfterFetch(accounts, contracts, chain, a) == accounts
    ensures ContractsAfterFetch(accounts, contracts, chain, a) == contracts
  {
    assert accounts[DetectionKey(a)] == Verdict(a, false);
  }

  /** fetchERC721 keeps the store consistent. */
  lemma FetchKeepsInvariant(accounts: map<Bytes, Account>, contracts: map<Address, Contract>,
                            chain: Chain, a: Address)
    requires ContractsMatchVerdicts(accounts, contracts)
    ensures ContractsMatchVerdicts(AccountsAfterFetch(accounts, contracts, chain, a),
                                   ContractsAfterFetch(accounts, contracts, chain, a))
  {
    if a !in contracts {
      var acc1 := AccountsAfterFetch(accounts, contracts, chain, a);
      var con1 := ContractsAfterFetch(accounts, contracts, chain, a);
      if DetectionKey(a) in accounts {
        NegativeVerdictSticks(accounts, contracts, chain, a);
      } else {
        DetectionKeyIsNoAddress(a, a);
        forall b: Address | DetectionKey(b) in acc1
          ensures acc1[DetectionKey(b)] == Verdict(b, b in con1)
        {
          DetectionKeyIsNoAddress(b, a);
          if DetectionKey(b) == DetectionKey(a) {
            DetectionKeyInjective(a, b);
          }
        }
        forall b: Address | b in con1
          ensures DetectionKey(b) in acc1 && b in acc1
        {
          DetectionKeyIsNoAddress(a, b);
        }
      }
    }
  }

  /** Saving the account of a plain address, whatever its fields, keeps the store consistent. */
  lemma AccountSavedKeepsInvariant(accounts: map<Bytes, Account>, contracts: map<Address, Contract>,
                                   b: Address, account: Account)
    requires ContractsMatchVerdicts(accounts, contracts)
    ensures ContractsMatchVerdicts(accounts[b := account], contracts)
  {
    forall a: Address | DetectionKey(a) in accounts[b := account]
      ensures DetectionKey(a) in accounts && accounts[b := account][DetectionKey(a)] == accounts[DetectionKey(a)]
    {
      DetectionKeyIsNoAddress(a, b);
    }
  }

  /** A second save of the same id replaces the first. */
  lemma SaveOverwritten(accounts: map<Bytes, Account>, k: Bytes, first: Account, second: Account)
    ensures accounts[k := first][k := second] == accounts[k := second]
  {
  }

  /** Saving two accounts again with the same fields changes nothing. */
  lemma PairResaved(accounts: map<Bytes, Account>, a: Address, x: Account, b: Address, y: Account)
    ensures accounts[a := x][b := y][a := x][b := y] == accounts[a := x][b := y]
  {
  }

  /** A save of the zero account followed by saves of from, to and zero is the last three saves. */
  lemma ZeroSaveOverwritten(accounts: map<Bytes, Account>, zero0: Account, from: Address, fromAccount: Account,
                            to: Address, toAccount: Account, zeroAccount: Account)
    ensures accounts[Zero := zero0][from := fromAccount][to := toAccount][Zero := zeroAccount]
         == accounts[from := fromAccount][to := toAccount][Zero := zeroAccount]
  {
  }

  /**
   * The saves of a transfer handler keep the store consistent: the
   * fetchERC721 of the emitter, then the accounts of `from` and `to`, then
   * (when a token was created) the zero account.
   */
  lemma TransferSavesKeepInvariant(accounts: map<Bytes, Account>, contracts: map<Address, Contract>,
                                   chain: Chain, address: Address, from: Address, fromAccount: Account,
                                   to: Address, toAccount: Account, zeroSaved: bool, zeroAccount: Account)
    requires ContractsMatchVerdicts(accounts, contracts)
    ensures var saved := AccountsAfterFetch(accounts, contracts, chain, address)[from := fromAccount][to := toAccount];
            ContractsMatchVerdicts(if zeroSaved then saved[Zero := zeroAccount] else saved,
                                   ContractsAfterFetch(accounts, contracts, chain, address))
  {
    var fetched := AccountsAfterFetch(accounts, contracts, chain, address);
    var stored := ContractsAfterFetch(accounts, contracts, chain, address);
    FetchKeepsInvariant(accounts, contracts, chain, address);
    AccountSavedKeepsInvariant(fetched, stored, from, fromAccount);
    AccountSavedKeepsInvariant(fetched[from := fromAccount], stored, to, toAccount);
    AccountSavedKeepsInvariant(fetched[from := fromAccount][to := toAccount], stored, Zero, zeroAccount);
  }

  /** A metadata event refreshes tokens only of a detected contract that supports metadata. */
  predicate Refreshes(contract: Option<Contract>) {
    contract.Some? && contract.value.supportsMetadata
  }

  class Indexer {
    var accounts: map<Bytes, Account>
    var contracts: map<Address, Contract>
    var tokens: map<TokenKey, Token>
    var operators: map<OperatorKey, Operator>
    var transfers: map<string, TransferLog>
    ghost var probes: seq<Probe>

    ghost predicate Valid()
      reads this
    {
      ContractsMatchVerdicts(accounts, contracts)
    }

    constructor ()
      ensures Valid()
      ensures accounts == map[] && contracts == map[] && tokens == map[]
      ensures operators == map[] && transfers == map[] && probes == []
    {
      accounts, contracts, tokens, operators, transfers := map[], map[], map[], map[], map[];
      probes := [];
    }

    /**
     * fetchAccount: saves an account with id `a` and returns it. A new
     * account has no verdict; nothing is stated about the fields of an
     * account that already existed.
     */
    method FetchAccount(a: Address) returns (account: Account)
      modifies this`accounts
      ensures accounts == old(accounts)[a := account]
      ensures a !in old(accounts) ==> account == Account(None)
    {
      if a in accounts {
        account := accounts[a];
      } else {
        account := Account(None);
      }
      accounts := accounts[a := account];
    }

    /**
     * fetchERC721: the stored contract, else a one-shot classification
     * whose verdict is recorded whatever it is; a contract (and its account
     * link) is built only on a positive verdict.
     */
    method FetchERC721(chain: Chain, a: Address) returns (c: Option<Contract>)
      modifies this`accounts, this`contracts, this`probes
      ensures c == FetchedContract(old(accounts), old(contracts), chain, a)
      ensures accounts == AccountsAfterFetch(old(accounts), old(contracts), chain, a)
      ensures contracts == ContractsAfterFetch(old(accounts), old(contracts), chain, a)
      ensures probes == old(probes) + ProbesOfFetch(old(accounts), old(contracts), chain, a)
      ensures c == if a in contracts then Some(contracts[a]) else None
      ensures old(Valid()) ==> Valid()
    {
      ghost var accounts0, contracts0 := accounts, contracts;
      if Valid() {
        FetchKeepsInvariant(accounts0, contracts0, chain, a);
      }
      if a in contracts {
        return Some(contracts[a]);
      }
      var key := DetectionKey(a);
      var detection: Account;
      if key in accounts {
        detection := accounts[key];
      } else {
        var erc165 := SupportsInterface(chain, a, ERC165Id, true);
        var erc721 := SupportsInterface(chain, a, ERC721Id, true);
        var invalid := SupportsInterface(chain, a, InvalidId, false);
        probes := probes + ClassificationProbes(a);
        var isERC721 := erc165 && erc721 && invalid;
        detection := Account(if isERC721 then Some(a) else None);
        accounts := accounts[key := detection];
      }
      if detection.asERC721.None? {
        return None;
      }
      var name := OrEmpty(chain.name(a));
      var symbol := OrEmpty(chain.symbol(a));
      var supportsMetadata := SupportsInterface(chain, a, ERC721MetadataId, true);
      probes := probes + [Probe(a, ERC721MetadataId)];
      var contract := Contract(a, name, symbol, supportsMetadata, a);
      contracts := contracts[a := contract];
      // fetchAccount's save of the account is overwritten by the save with the link.
      accounts := accounts[a := Account(Some(a))];
      return Some(contract);
    }

    /**
     * fetchERC721Token: the stored token, else a fresh one owned by and
     * approved to the zero address, whose uri is read only when the
     * contract supports metadata. The token is not saved here.
     */
    method FetchERC721Token(chain: Chain, c: Contract, id: int) returns (t: Token)
      modifies this`accounts
      ensures t == ResolveToken(tokens, chain, c, id)
      ensures TokenKey(c.id, id) in tokens ==> t == tokens[TokenKey(c.id, id)] && unchanged(this`accounts)
      ensures TokenKey(c.id, id) !in tokens ==>
        && t.contract == c.id && t.identifier == id
        && t.owner == Zero && t.approval == Zero
        && (t.uri.Some? <==> c.supportsMetadata)
        && (c.supportsMetadata ==> t.uri == Some(TokenURI(chain, c.id, id)))
        && Zero in accounts && accounts == old(accounts)[Zero := accounts[Zero]]
    {
      var key := TokenKey(c.id, id);
      if key in tokens {
        return tokens[key];
      }
      var zero := FetchAccount(Zero);
      var uri := None;
      if c.supportsMetadata {
        uri := Some(OrEmpty(chain.tokenURI(c.id, id)));
      }
      t := Token(c.id, id, Zero, Zero, uri);
    }

    /**
     * fetchERC721Operator: the stored operator record of (contract, owner,
     * operator), else a fresh, unsaved one that is not approved.
     */
    method FetchERC721Operator(c: Contract, owner: Address, operator: Address) returns (op: Operator)
      ensures op == ResolveOperator(operators, c, owner, operator)
      ensures OperatorKey(c.id, owner, operator) in operators ==> op == operators[OperatorKey(c.id, owner, operator)]
      ensures OperatorKey(c.id, owner, operator) !in operators ==>
        op.contract == c.id && op.owner == owner && op.operator == operator && !op.approved
    {
      var key := OperatorKey(c.id, owner, operator);
      if key in operators {
        return operators[key];
      }
      op := Operator(c.id, owner, operator, false);
    }

    /** handleTransfer: owner := to, approval reset, one log under the event's id. */
    method HandleTransfer(chain: Chain, e: Event, from: Address, to: Address, tokenId: int)
      returns (ghost fromAccount: Account, ghost toAccount: Account, ghost zeroAccount: Account)
      modifies this`accounts, this`contracts, this`probes, this`tokens, this`transfers
      ensures contracts == ContractsAfterFetch(old(accounts), old(contracts), chain, e.address)
      ensures probes == old(probes) + ProbesOfFetch(old(accounts), old(contracts), chain, e.address)
      ensures FetchedContract(old(accounts), old(contracts), chain, e.address).None? ==>
        && accounts == AccountsAfterFetch(old(accounts), old(contracts), chain, e.address)
        && unchanged(this`tokens, this`transfers)
      ensures FetchedContract(old(accounts), old(contracts), chain, e.address).Some? ==>
        var c := FetchedContract(old(accounts), old(contracts), chain, e.address).value;
        && accounts == AccountsAfterFetch(old(accounts), old(contracts), chain, e.address)
                         [from := fromAccount][to := toAccount][Zero := zeroAccount]
        && tokens == old(tokens)[TokenKey(c.id, tokenId) := Transferred(ResolveToken(old(tokens), chain, c, tokenId), to)]
        && transfers == old(transfers)[e.id :=
             TransferLog(c.id, e.transaction, e.timestamp, c.id, TokenKey(c.id, tokenId), from, to)]
      ensures old(Valid()) ==> Valid()
    {
      fromAccount, toAccount, zeroAccount := Account(None), Account(None), Account(None);
      var contract := FetchERC721(chain, e.address);
      if contract.None? {
        return;
      }
      var c := contract.value;
      ghost var accounts1, tokens0 := accounts, tokens;
      var token := FetchERC721Token(chain, c, tokenId);
      ghost var accounts2 := accounts;
      fromAccount := FetchAccount(from);
      toAccount := FetchAccount(to);
      token := token.(owner := to);
      zeroAccount := FetchAccount(Zero);
      token := token.(approval := Zero);
      tokens := tokens[TokenKey(c.id, tokenId) := token];
      transfers := transfers[e.id := TransferLog(c.id, e.transaction, e.timestamp, c.id, TokenKey(c.id, tokenId), from, to)];
      if TokenKey(c.id, tokenId) !in tokens0 {
        ZeroSaveOverwritten(accounts1, accounts2[Zero], from, fromAccount, to, toAccount, zeroAccount);
      }
      if old(Valid()) {
        TransferSavesKeepInvariant(old(accounts), old(contracts), chain, e.address,
                                   from, fromAccount, to, toAccount, true, zeroAccount);
      }
    }

    /**
     * handleConsecutiveTransfer: dropped whole when toId - fromId > 5000;
     * otherwise every id fromId..toId is transferred to `to` with its
     * approval reset and gets its own log, none when toId < fromId.
     */
    method HandleConsecutiveTransfer(chain: Chain, e: Event, fromId: int, toId: int, from: Address, to: Address)
      returns (ghost fromAccount: Account, ghost toAccount: Account, ghost zeroAccount: Account)
      modifies this`accounts, this`contracts, this`probes, this`tokens, this`transfers
      ensures toId - fromId > MaxRangeDifference ==>
        unchanged(this`accounts, this`contracts, this`probes, this`tokens, this`transfers)
      ensures toId - fromId <= MaxRangeDifference ==>
        && contracts == ContractsAfterFetch(old(accounts), old(contracts), chain, e.address)
        && probes == old(probes) + ProbesOfFetch(old(accounts), old(contracts), chain, e.address)
      ensures toId - fromId <= MaxRangeDifference && FetchedContract(old(accounts), old(contracts), chain, e.address).None? ==>
        && accounts == AccountsAfterFetch(old(accounts), old(contracts), chain, e.address)
        && unchanged(this`tokens, this`transfers)
      ensures toId - fromId <= MaxRangeDifference && FetchedContract(old(accounts), old(contracts), chain, e.address).Some? ==>
        var c := FetchedContract(old(accounts), old(contracts), chain, e.address).value;
        var saved := AccountsAfterFetch(old(accounts), old(contracts), chain, e.address)[from := fromAccount][to := toAccount];
        && accounts == (if fromId <= toId then saved[Zero := zeroAccount] else saved)
        && RangeTransferred(old(tokens), tokens, chain, c, fromId, toId, to)
        && RangeLogged(old(transfers), transfers, e, c.id, fromId, toId, from, to)
      ensures old(Valid()) ==> Valid()
    {
      fromAccount, toAccount, zeroAccount := Account(None), Account(None), Account(None);
      var bound := RangeCount(fromId, toId);
      if bound.None? {
        return;
      }
      var contract := FetchERC721(chain, e.address);
      if contract.None? {
        return;
      }
      var c := contract.value;
      ghost var tokens0, transfers0 := tokens, transfers;
      fromAccount := FetchAccount(from);
      toAccount := FetchAccount(to);
      var count := bound.value;
      ghost var accounts2 := accounts;
      EmptyRange(tokens0, transfers0, chain, c, e, fromId, fromId - 1, from, to);
      ghost var hi := fromId - 1;
      var index := 0;
      while index <= count
        modifies this`accounts, this`tokens, this`transfers
        invariant 0 <= index <= if count < 0 then 0 else count + 1
        invariant hi == fromId + index - 1
        invariant accounts == if index == 0 then accounts2 else accounts2[Zero := zeroAccount]
        invariant RangeTransferred(tokens0, tokens, chain, c, fromId, hi, to)
        invariant RangeLogged(transfers0, transfers, e, c.id, fromId, hi, from, to)
        decreases count + 1 - index
      {
        var tokenId := fromId + index;
        RangeTransferredStep(tokens0, tokens, chain, c, fromId, hi, tokenId, to);
        RangeLoggedStep(transfers0, transfers, e, c.id, fromId, hi, tokenId, from, to);
        ghost var zero0 := zeroAccount;
        zeroAccount := TransferInRange(chain, c, e, tokenId, from, to);
        if index > 0 {
          SaveOverwritten(accounts2, Zero, zero0, zeroAccount);
        }
        hi := tokenId;
        index := index + 1;
      }
      if count < 0 {
        EmptyRange(tokens0, transfers0, chain, c, e, fromId, toId, from, to);
      } else {
        assert hi == toId;
      }
      if old(Valid()) {
        TransferSavesKeepInvariant(old(accounts), old(contracts), chain, e.address,
                                   from, fromAccount, to, toAccount, count >= 0, zeroAccount);
      }
    }

    /**
     * The body of handleConsecutiveTransfer's loop: token `tokenId` moves to
     * `to` with its approval reset, and is logged under the event's id
     * suffixed with the token id. The zero account is saved whether or not
     * the token existed.
     */
    method TransferInRange(chain: Chain, c: Contract, e: Event, tokenId: int, from: Address, to: Address)
      returns (ghost zeroAccount: Account)
      modifies this`accounts, this`tokens, this`transfers
      ensures accounts == old(accounts)[Zero := zeroAccount]
      ensures tokens == old(tokens)[TokenKey(c.id, tokenId) := Transferred(ResolveToken(old(tokens), chain, c, tokenId), to)]
      ensures transfers == old(transfers)[LogId(e.id, tokenId) :=
        TransferLog(c.id, e.transaction, e.timestamp, c.id, TokenKey(c.id, tokenId), from, to)]
    {
      ghost var accounts0 := accounts;
      var token := FetchERC721Token(chain, c, tokenId);
      ghost var zero0 := if Zero in accounts then accounts[Zero] else Account(None);
      token := token.(owner := to);
      zeroAccount := FetchAccount(Zero);
      token := token.(approval := Zero);
      tokens := tokens[TokenKey(c.id, tokenId) := token];
      transfers := transfers[LogId(e.id, tokenId) :=
        TransferLog(c.id, e.transaction, e.timestamp, c.id, TokenKey(c.id, tokenId), from, to)];
      if accounts0 != accounts {
        SaveOverwritten(accounts0, Zero, zero0, zeroAccount);
      }
    }

    /**
     * handleApproval: owner := the event's owner, approval := approved; no
     * log is emitted. The owner and approved accounts are saved twice, the
     * second time unchanged.
     */
    method HandleApproval(chain: Chain, e: Event, owner: Address, approved: Address, tokenId: int)
      returns (ghost ownerAccount: Account, ghost approvedAccount: Account, ghost zeroAccount: Account)
      modifies this`accounts, this`contracts, this`probes, this`tokens
      ensures contracts == ContractsAfterFetch(old(accounts), old(contracts), chain, e.address)
      ensures probes == old(probes) + ProbesOfFetch(old(accounts), old(contracts), chain, e.address)
      ensures FetchedContract(old(accounts), old(contracts), chain, e.address).None? ==>
        && accounts == AccountsAfterFetch(old(accounts), old(contracts), chain, e.address)
        && unchanged(this`tokens)
      ensures FetchedContract(old(accounts), old(contracts), chain, e.address).Some? ==>
        var c := FetchedContract(old(accounts), old(contracts), chain, e.address).value;
        var fetched := AccountsAfterFetch(old(accounts), old(contracts), chain, e.address);
        && accounts == (if TokenKey(c.id, tokenId) in old(tokens) then fetched else fetched[Zero := zeroAccount])
                         [owner := ownerAccount][approved := approvedAccount]
        && tokens == old(tokens)[TokenKey(c.id, tokenId) :=
             ResolveToken(old(tokens), chain, c, tokenId).(owner := owner, approval := approved)]
      ensures old(Valid()) ==> Valid()
    {
      ownerAccount, approvedAccount, zeroAccount := Account(None), Account(None), Account(None);
      var contract := FetchERC721(chain, e.address);
      if contract.None? {
        return;
      }
      var c := contract.value;
      ghost var accounts1, contracts1 := accounts, contracts;
      ghost var valid1 := ContractsMatchVerdicts(accounts1, contracts1);
      var token := FetchERC721Token(chain, c, tokenId);
      zeroAccount := if Zero in accounts then accounts[Zero] else zeroAccount;
      ghost var accounts2 := accounts;
      var ownerEntity := FetchAccount(owner);
      var approvedEntity := FetchAccount(approved);
      ownerAccount, approvedAccount := ownerEntity, approvedEntity;
      token := token.(owner := owner, approval := approved);
      tokens := tokens[TokenKey(c.id, tokenId) := token];
      accounts := accounts[owner := ownerEntity];
      accounts := accounts[approved := approvedEntity];
      PairResaved(accounts2, owner, ownerAccount, approved, approvedAccount);
      if valid1 {
        if accounts2 != accounts1 {
          AccountSavedKeepsInvariant(accounts1, contracts1, Zero, zeroAccount);
        }
        AccountSavedKeepsInvariant(accounts2, contracts1, owner, ownerAccount);
        AccountSavedKeepsInvariant(accounts2[owner := ownerAccount], contracts1, approved, approvedAccount);
      }
    }

    /** handleApprovalForAll: upserts the operator record with the event's flag; no log. */
    method HandleApprovalForAll(chain: Chain, e: Event, owner: Address, operator: Address, approved: bool)
      returns (ghost ownerAccount: Account, ghost operatorAccount: Account)
      modifies this`accounts, this`contracts, this`probes, this`operators
      ensures contracts == ContractsAfterFetch(old(accounts), old(contracts), chain, e.address)
      ensures probes == old(probes) + ProbesOfFetch(old(accounts), old(contracts), chain, e.address)
      ensures FetchedContract(old(accounts), old(contracts), chain, e.address).None? ==>
        && accounts == AccountsAfterFetch(old(accounts), old(contracts), chain, e.address)
        && unchanged(this`operators)
      ensures FetchedContract(old(accounts), old(contracts), chain, e.address).Some? ==>
        var c := FetchedContract(old(accounts), old(contracts), chain, e.address).value;
        && accounts == AccountsAfterFetch(old(accounts), old(contracts), chain, e.address)
                         [owner := ownerAccount][operator := operatorAccount]
        && operators == old(operators)[OperatorKey(c.id, owner, operator) :=
             ResolveOperator(old(operators), c, owner, operator).(approved := approved)]
      ensures old(Valid()) ==> Valid()
    {
      ownerAccount, operatorAccount := Account(None), Account(None);
      var contract := FetchERC721(chain, e.address);
      if contract.None? {
        return;
      }
      var c := contract.value;
      ghost var accounts1, contracts1 := accounts, contracts;
      ghost var valid1 := ContractsMatchVerdicts(accounts1, contracts1);
      ownerAccount := FetchAccount(owner);
      operatorAccount := FetchAccount(operator);
      var delegation := FetchERC721Operator(c, owner, operator);
      delegation := delegation.(approved := approved);
      operators := operators[OperatorKey(c.id, owner, operator) := delegation];
      if valid1 {
        AccountSavedKeepsInvariant(accounts1, contracts1, owner, ownerAccount);
        AccountSavedKeepsInvariant(accounts1[owner := ownerAccount], contracts1, operator, operatorAccount);
      }
    }

    /**
     * _updateURI: a token whose owner is the zero address (never minted,
     * or burned) is neither saved nor re-read; any other stored token gets
     * the pointer read from the chain.
     */
    method UpdateURI(chain: Chain, c: Contract, tokenId: int) returns (ghost zeroAccount: Account)
      modifies this`accounts, this`tokens
      ensures UrisRefreshed(old(tokens), tokens, chain, c, tokenId, tokenId)
      ensures accounts == if TokenKey(c.id, tokenId) in old(tokens) then old(accounts) else old(accounts)[Zero := zeroAccount]
      ensures old(Valid()) ==> Valid()
    {
      ghost var accounts0 := accounts;
      var token := FetchERC721Token(chain, c, tokenId);
      zeroAccount := if Zero in accounts then accounts[Zero] else Account(None);
      if old(Valid()) && TokenKey(c.id, tokenId) !in tokens {
        AccountSavedKeepsInvariant(accounts0, contracts, Zero, zeroAccount);
      }
      if token.owner == Zero {
        return;
      }
      var uri := OrEmpty(chain.tokenURI(c.id, tokenId));
      token := token.(uri := Some(uri));
      tokens := tokens[TokenKey(c.id, tokenId) := token];
    }

    /** handleMetadataUpdate: a refresh of one token, only for contracts that support metadata. */
    method HandleMetadataUpdate(chain: Chain, e: Event, tokenId: int) returns (ghost zeroAccount: Account)
      modifies this`accounts, this`contracts, this`probes, this`tokens
      ensures contracts == ContractsAfterFetch(old(accounts), old(contracts), chain, e.address)
      ensures probes == old(probes) + ProbesOfFetch(old(accounts), old(contracts), chain, e.address)
      ensures !Refreshes(FetchedContract(old(accounts), old(contracts), chain, e.address)) ==>
        && accounts == AccountsAfterFetch(old(accounts), old(contracts), chain, e.address)
        && unchanged(this`tokens)
      ensures Refreshes(FetchedContract(old(accounts), old(contracts), chain, e.address)) ==>
        var c := FetchedContract(old(accounts), old(contracts), chain, e.address).value;
        var fetched := AccountsAfterFetch(old(accounts), old(contracts), chain, e.address);
        && UrisRefreshed(old(tokens), tokens, chain, c, tokenId, tokenId)
        && accounts == if TokenKey(c.id, tokenId) in old(tokens) then fetched else fetched[Zero := zeroAccount]
      ensures old(Valid()) ==> Valid()
    {
      zeroAccount := Account(None);
      var contract := FetchERC721(chain, e.address);
      if contract.None? || !contract.value.supportsMetadata {
        return;
      }
      zeroAccount := UpdateURI(chain, contract.value, tokenId);
    }

    /**
     * handleBatchMetadataUpdate: dropped whole when toId - fromId > 5000;
     * otherwise a refresh of every id fromId..toId, only for contracts that
     * support metadata.
     */
    method HandleBatchMetadataUpdate(chain: Chain, e: Event, fromId: int, toId: int) returns (ghost zeroAccount: Account)
      modifies this`accounts, this`contracts, this`probes, this`tokens
      ensures toId - fromId > MaxRangeDifference ==>
        unchanged(this`accounts, this`contracts, this`probes, this`tokens)
      ensures toId - fromId <= MaxRangeDifference ==>
        && contracts == ContractsAfterFetch(old(accounts), old(contracts), chain, e.address)
        && probes == old(probes) + ProbesOfFetch(old(accounts), old(contracts), chain, e.address)
      ensures toId - fromId <= MaxRangeDifference && !Refreshes(FetchedContract(old(accounts), old(contracts), chain, e.address)) ==>
        && accounts == AccountsAfterFetch(old(accounts), old(contracts), chain, e.address)
        && unchanged(this`tokens)
      ensures toId - fromId <= MaxRangeDifference && Refreshes(FetchedContract(old(accounts), old(contracts), chain, e.address)) ==>
        var c := FetchedContract(old(accounts), old(contracts), chain, e.address).value;
        var fetched := AccountsAfterFetch(old(accounts), old(contracts), chain, e.address);
        && UrisRefreshed(old(tokens), tokens, chain, c, fromId, toId)
        && accounts == if AllStored(old(tokens), c.id, fromId, toId) then fetched else fetched[Zero := zeroAccount]
      ensures old(Valid()) ==> Valid()
    {
      zeroAccount := Account(None);
      var bound := RangeCount(fromId, toId);
      if bound.None? {
        return;
      }
      var contract := FetchERC721(chain, e.address);
      if contract.None? || !contract.value.supportsMetadata {
        return;
      }
      var c := contract.value;
      var count := bound.value;
      ghost var tokens0, accounts1, contracts1 := tokens, accounts, contracts;
      ghost var valid1 := ContractsMatchVerdicts(accounts1, contracts1);
      ghost var noLogs: map<string, TransferLog> := map[];
      EmptyRange(tokens0, noLogs, chain, c, e, fromId, fromId - 1, Zero, Zero);
      ghost var hi, zeroSaved := fromId - 1, false;
      var index := 0;
      while index <= count
        modifies this`accounts, this`tokens
        invariant 0 <= index <= if count < 0 then 0 else count + 1
        invariant hi == fromId + index - 1
        invariant UrisRefreshed(tokens0, tokens, chain, c, fromId, hi)
        invariant zeroSaved == !AllStored(tokens0, c.id, fromId, hi)
        invariant accounts == if zeroSaved then accounts1[Zero := zeroAccount] else accounts1
        decreases count + 1 - index
      {
        var tokenId := fromId + index;
        AllStoredStep(tokens0, c.id, fromId, hi, tokenId);
        ghost var before, zero0 := tokens, zeroAccount;
        var zero := UpdateURI(chain, c, tokenId);
        UrisRefreshedStep(tokens0, before, tokens, chain, c, fromId, hi, tokenId);
        if TokenKey(c.id, tokenId) !in before {
          zeroAccount := zero;
          if zeroSaved {
            SaveOverwritten(accounts1, Zero, zero0, zero);
          }
          zeroSaved := true;
        }
        hi := tokenId;
        index := index + 1;
      }
      if count < 0 {
        EmptyRange(tokens0, noLogs, chain, c, e, fromId, toId, Zero, Zero);
      } else {
        assert hi == toId;
      }
      if valid1 && zeroSaved {
        AccountSavedKeepsInvariant(accounts1, contracts1, Zero, zeroAccount);
      }
    }
  }
}
