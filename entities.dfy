/**
 * The value side of the ERC-721 event indexer (src/mapping.ts): addresses,
 * interface ids, the entities kept in the store, the contract reads the
 * indexer issues (as an oracle), the range guard of the batch events, the
 * ids of transfer logs, and the predicates that describe the effect of a
 * handler on the token and log tables.
 */
module Entities {
  import opened Wrappers
  import opened Decimal

  newtype byte = x: int | 0 <= x < 256

  type Bytes = seq<byte>

  /** A 20-byte account or contract address. */
  type Address = b: Bytes | |b| == 20 witness [0, 0, 0, 0, 0, 0, 0, 0, 0, 0, 0, 0, 0, 0, 0, 0, 0, 0, 0, 0]

  /** The zero address: the sentinel for "no owner" and "no approval". */
  const Zero: Address := [0, 0, 0, 0, 0, 0, 0, 0, 0, 0, 0, 0, 0, 0, 0, 0, 0, 0, 0, 0]

  type InterfaceId = Bytes

  /** ERC-165 interface ids probed by the classifier. */
  const ERC165Id: InterfaceId := [0x01, 0xff, 0xc9, 0xa7]
  const ERC721Id: InterfaceId := [0x80, 0xac, 0x58, 0xcd]
  const InvalidId: InterfaceId := [0x00, 0x00, 0x00, 0x00]
  const ERC721MetadataId: InterfaceId := [0x5b, 0x5e, 0x13, 0x9f]

  /**
   * The key of the detection record of `a` in the account table: the
   * address followed by the ERC-721 interface id. Its length keeps it apart
   * from every account address, and the address can be read back from it.
   */
  function DetectionKey(a: Address): (k: Bytes)
    ensures |k| == 24 && k[..20] == a
  {
    a + ERC721Id
  }

  lemma DetectionKeyIsNoAddress(a: Address, b: Address)
    ensures DetectionKey(a) != b
  {
  }

  lemma DetectionKeyInjective(a: Address, b: Address)
    requires DetectionKey(a) == DetectionKey(b)
    ensures a == b
  {
    assert a == DetectionKey(a)[..20] == DetectionKey(b)[..20] == b;
  }

  /**
   * An account. A plain account has id = its address; a detection record
   * has id = DetectionKey(address) and `asERC721` holds the verdict.
   */
  datatype Account = Account(asERC721: Option<Address>)

  datatype Contract = Contract(
    id: Address,
    name: string,
    symbol: string,
    supportsMetadata: bool,
    asAccount: Address)

  /** Natural key of a token: contract and token id (the source joins their hex forms with '/'). */
  datatype TokenKey = TokenKey(contract: Address, identifier: int)

  datatype Token = Token(
    contract: Address,
    identifier: int,
    owner: Address,
    approval: Address,
    uri: Option<string>)

  /** Natural key of an operator approval: contract, owner and operator. */
  datatype OperatorKey = OperatorKey(contract: Address, owner: Address, operator: Address)

  datatype Operator = Operator(contract: Address, owner: Address, operator: Address, approved: bool)

  datatype TransferLog = TransferLog(
    emitter: Address,
    transaction: string,
    timestamp: int,
    contract: Address,
    token: TokenKey,
    from: Address,
    to: Address)

  /**
   * What every event carries besides its parameters: the emitting address,
   * the opaque id derived from its position (`events.id(event)`), the id of
   * its transaction (`transactions.log(event).id`) and the block timestamp.
   */
  datatype Event = Event(address: Address, id: string, transaction: string, timestamp: int)

  /**
   * The contract reads of the indexer, answered from the chain state at the
   * event's block. None stands for a reverted call.
   */
  datatype Chain = Chain(
    supportsInterface: (Address, InterfaceId) -> Option<bool>,
    name: Address -> Option<string>,
    symbol: Address -> Option<string>,
    tokenURI: (Address, int) -> Option<string>)

  /** One `supportsInterface` call issued by the indexer. */
  datatype Probe = Probe(target: Address, interfaceId: InterfaceId)

  /**
   * supportsInterface: the probe passes only if the call returns exactly
   * `expected`; a reverted call fails the probe whatever `expected` is.
   */
  function SupportsInterface(chain: Chain, a: Address, id: InterfaceId, expected: bool): (passed: bool)
    ensures passed <==> chain.supportsInterface(a, id) == Some(expected)
    ensures chain.supportsInterface(a, id).None? ==> !passed
  {
    match chain.supportsInterface(a, id)
    case None => false
    case Some(answer) => answer == expected
  }

  /** A reverted string read falls back to the empty string. */
  function OrEmpty(read: Option<string>): string {
    match read
    case Some(s) => s
    case None => ""
  }

  /**
   * The classification verdict: ERC-165 confirmed, ERC-721 confirmed and
   * the invalid id 0x00000000 explicitly denied. A revert fails every
   * probe, the negated one included.
   */
  function IsERC721(chain: Chain, a: Address): (verdict: bool)
    ensures verdict <==>
      && chain.supportsInterface(a, ERC165Id) == Some(true)
      && chain.supportsInterface(a, ERC721Id) == Some(true)
      && chain.supportsInterface(a, InvalidId) == Some(false)
  {
    && SupportsInterface(chain, a, ERC165Id, true)
    && SupportsInterface(chain, a, ERC721Id, true)
    && SupportsInterface(chain, a, InvalidId, false)
  }

  /** The three classification probes, in the order they are issued. */
  function ClassificationProbes(a: Address): seq<Probe> {
    [Probe(a, ERC165Id), Probe(a, ERC721Id), Probe(a, InvalidId)]
  }

  /** The detection record written for `a` after classification. */
  function Verdict(a: Address, positive: bool): Account {
    Account(if positive then Some(a) else None)
  }

  /** The contract entity built for a newly classified address. */
  function NewContract(chain: Chain, a: Address): Contract {
    Contract(a, OrEmpty(chain.name(a)), OrEmpty(chain.symbol(a)),
             SupportsInterface(chain, a, ERC721MetadataId, true), a)
  }

  /** The metadata pointer read for a token, empty on revert. */
  function TokenURI(chain: Chain, contract: Address, id: int): string {
    OrEmpty(chain.tokenURI(contract, id))
  }

  /** The token `fetchERC721Token` yields: the stored one, else a fresh unsaved one. */
  function ResolveToken(tokens: map<TokenKey, Token>, chain: Chain, c: Contract, id: int): Token {
    if TokenKey(c.id, id) in tokens then tokens[TokenKey(c.id, id)]
    else Token(c.id, id, Zero, Zero, if c.supportsMetadata then Some(TokenURI(chain, c.id, id)) else None)
  }

  /** The operator record `fetchERC721Operator` yields: the stored one, else a fresh, unapproved one. */
  function ResolveOperator(operators: map<OperatorKey, Operator>, c: Contract, owner: Address, operator: Address): Operator {
    if OperatorKey(c.id, owner, operator) in operators then operators[OperatorKey(c.id, owner, operator)]
    else Operator(c.id, owner, operator, false)
  }

  /** A transfer to `to`: new owner, and the approval is reset to the zero address. */
  function Transferred(t: Token, to: Address): Token {
    t.(owner := to, approval := Zero)
  }

  /** The largest accepted difference between the last and the first id of a range event. */
  const MaxRangeDifference: int := 5000

  /**
   * The guard of the range events: None when the event is dropped
   * (difference above 5000), otherwise the loop bound `to - from`, which is
   * negative (an empty range) when `to < from`.
   */
  function RangeCount(fromId: int, toId: int): (count: Option<int>)
    ensures count.None? <==> toId - fromId > MaxRangeDifference
    ensures count.Some? ==> count.value == toId - fromId
  {
    if toId - fromId > MaxRangeDifference then None else Some(toId - fromId)
  }

  /** Id of the log of token `tokenId` expanded from a consecutive transfer: event id, '-', decimal id. */
  function LogId(eventId: string, tokenId: int): string {
    eventId + "-" + DecimalString(tokenId)
  }

  lemma LogIdInjective(eventId: string, i: int, j: int)
    requires LogId(eventId, i) == LogId(eventId, j)
    ensures i == j
  {
    var n := |eventId| + 1;
    assert DecimalString(i) == LogId(eventId, i)[n..] == LogId(eventId, j)[n..] == DecimalString(j);
    DecimalStringInjective(i, j);
  }

  predicate InRange(k: TokenKey, contract: Address, lo: int, hi: int) {
    k.contract == contract && lo <= k.identifier <= hi
  }

  /** Every id lo..hi of `contract` has a stored token. */
  predicate AllStored(tokens: map<TokenKey, Token>, contract: Address, lo: int, hi: int) {
    forall i | lo <= i <= hi :: TokenKey(contract, i) in tokens
  }

  lemma AllStoredStep(tokens: map<TokenKey, Token>, contract: Address, lo: int, hi: int, id: int)
    requires lo <= id && id == hi + 1
    ensures AllStored(tokens, contract, lo, id) <==> AllStored(tokens, contract, lo, hi) && TokenKey(contract, id) in tokens
  {
  }

  function RangeKeys(contract: Address, lo: int, hi: int): set<TokenKey> {
    set i | lo <= i <= hi :: TokenKey(contract, i)
  }

  function RangeLogIds(eventId: string, lo: int, hi: int): set<string> {
    set i | lo <= i <= hi :: LogId(eventId, i)
  }

  /**
   * A consecutive transfer of the ids lo..hi emits one log per id: their
   * ids are pairwise distinct, so there are exactly hi - lo + 1 of them
   * (none when hi < lo, 5001 at the largest accepted range).
   */
  lemma {:induction false} RangeLogIdsCount(eventId: string, lo: int, hi: int)
    ensures |RangeLogIds(eventId, lo, hi)| == if hi < lo then 0 else hi - lo + 1
    decreases hi - lo
  {
    if hi < lo {
      assert RangeLogIds(eventId, lo, hi) == {};
    } else {
      RangeLogIdsStep(eventId, lo, hi - 1, hi);
      RangeLogIdsCount(eventId, lo, hi - 1);
    }
  }

  /**
   * At the guard's boundary: a difference of exactly 5000 is accepted and
   * expands to 5001 logs; one more and the event is dropped.
   */
  lemma RangeBoundary(eventId: string, lo: int)
    ensures RangeCount(lo, lo + MaxRangeDifference) == Some(5000)
    ensures |RangeLogIds(eventId, lo, lo + MaxRangeDifference)| == 5001
    ensures RangeCount(lo, lo + MaxRangeDifference + 1) == None
  {
    RangeLogIdsCount(eventId, lo, lo + MaxRangeDifference);
  }

  /**
   * The token table `t1` is `t0` after transferring every id lo..hi of
   * contract `c` to `to`: each such token (stored or freshly resolved) is
   * owned by `to` with the approval reset, and every other token is as it was.
   */
  ghost predicate RangeTransferred(t0: map<TokenKey, Token>, t1: map<TokenKey, Token>,
                                   chain: Chain, c: Contract, lo: int, hi: int, to: Address)
  {
    && t1.Keys == t0.Keys + RangeKeys(c.id, lo, hi)
    && (forall i | lo <= i <= hi ::
          TokenKey(c.id, i) in t1 && t1[TokenKey(c.id, i)] == Transferred(ResolveToken(t0, chain, c, i), to))
    && (forall k | k in t0 && !InRange(k, c.id, lo, hi) :: t1[k] == t0[k])
  }

  /**
   * The log table `l1` is `l0` plus one log per id lo..hi of the consecutive
   * transfer `e` of contract `contract`, each naming that contract as emitter.
   */
  ghost predicate RangeLogged(l0: map<string, TransferLog>, l1: map<string, TransferLog>,
                              e: Event, contract: Address, lo: int, hi: int, from: Address, to: Address)
  {
    && l1.Keys == l0.Keys + RangeLogIds(e.id, lo, hi)
    && (forall i | lo <= i <= hi ::
          LogId(e.id, i) in l1
          && l1[LogId(e.id, i)] == TransferLog(contract, e.transaction, e.timestamp, contract,
                                               TokenKey(contract, i), from, to))
    && (forall id | id in l0 && id !in RangeLogIds(e.id, lo, hi) :: l1[id] == l0[id])
  }

  /**
   * The token table `t1` is `t0` after a metadata refresh of the ids lo..hi
   * of contract `c`: no token is created, a token whose owner is the zero
   * address is left alone, and every other token in the range gets the
   * pointer read from the chain.
   */
  ghost predicate UrisRefreshed(t0: map<TokenKey, Token>, t1: map<TokenKey, Token>,
                                chain: Chain, c: Contract, lo: int, hi: int)
  {
    && t1.Keys == t0.Keys
    && forall k | k in t0 ::
         t1[k] == if InRange(k, c.id, lo, hi) && t0[k].owner != Zero
                  then t0[k].(uri := Some(TokenURI(chain, c.id, k.identifier)))
                  else t0[k]
  }

  lemma EmptyRange(t0: map<TokenKey, Token>, l0: map<string, TransferLog>, chain: Chain, c: Contract,
                   e: Event, lo: int, hi: int, from: Address, to: Address)
    requires hi < lo
    ensures RangeTransferred(t0, t0, chain, c, lo, hi, to)
    ensures RangeLogged(l0, l0, e, c.id, lo, hi, from, to)
    ensures UrisRefreshed(t0, t0, chain, c, lo, hi)
  {
    assert RangeKeys(c.id, lo, hi) == {};
    assert RangeLogIds(e.id, lo, hi) == {};
  }

  /** The keys of lo..id are those of lo..hi and that of id, which is not among them. */
  lemma RangeKeysStep(contract: Address, lo: int, hi: int, id: int)
    requires lo <= id && id == hi + 1
    ensures RangeKeys(contract, lo, id) == RangeKeys(contract, lo, hi) + {TokenKey(contract, id)}
    ensures TokenKey(contract, id) !in RangeKeys(contract, lo, hi)
  {
    forall k | k in RangeKeys(contract, lo, id)
      ensures k in RangeKeys(contract, lo, hi) || k == TokenKey(contract, id)
    {
      if k.identifier < id {
        assert k in RangeKeys(contract, lo, hi);
      }
    }
  }

  /** Transferring the next id extends a range transfer by that id. */
  lemma RangeTransferredStep(t0: map<TokenKey, Token>, t1: map<TokenKey, Token>,
                             chain: Chain, c: Contract, lo: int, hi: int, id: int, to: Address)
    requires lo <= id && id == hi + 1
    requires RangeTransferred(t0, t1, chain, c, lo, hi, to)
    ensures RangeTransferred(t0, t1[TokenKey(c.id, id) := Transferred(ResolveToken(t1, chain, c, id), to)],
                             chain, c, lo, id, to)
  {
    var k := TokenKey(c.id, id);
    RangeKeysStep(c.id, lo, hi, id);
    assert ResolveToken(t1, chain, c, id) == ResolveToken(t0, chain, c, id);
    var t2 := t1[k := Transferred(ResolveToken(t1, chain, c, id), to)];
    assert t2.Keys == t1.Keys + {k};
  }

  /** The log ids of lo..id are those of lo..hi and that of id, which is not among them. */
  lemma RangeLogIdsStep(eventId: string, lo: int, hi: int, id: int)
    requires lo <= id && id == hi + 1
    ensures RangeLogIds(eventId, lo, id) == RangeLogIds(eventId, lo, hi) + {LogId(eventId, id)}
    ensures LogId(eventId, id) !in RangeLogIds(eventId, lo, hi)
  {
    forall x | x in RangeLogIds(eventId, lo, id)
      ensures x in RangeLogIds(eventId, lo, hi) || x == LogId(eventId, id)
    {
      var i :| lo <= i <= id && x == LogId(eventId, i);
      if i < id {
        assert x in RangeLogIds(eventId, lo, hi);
      }
    }
    if LogId(eventId, id) in RangeLogIds(eventId, lo, hi) {
      var i :| lo <= i <= hi && LogId(eventId, i) == LogId(eventId, id);
      LogIdInjective(eventId, i, id);
    }
  }

  /** Logging the next id extends the logs of a range transfer by that id. */
  lemma RangeLoggedStep(l0: map<string, TransferLog>, l1: map<string, TransferLog>,
                        e: Event, contract: Address, lo: int, hi: int, id: int, from: Address, to: Address)
    requires lo <= id && id == hi + 1
    requires RangeLogged(l0, l1, e, contract, lo, hi, from, to)
    ensures RangeLogged(l0, l1[LogId(e.id, id) := TransferLog(contract, e.transaction, e.timestamp, contract,
                                                              TokenKey(contract, id), from, to)],
                        e, contract, lo, id, from, to)
  {
    RangeLogIdsStep(e.id, lo, hi, id);
    var logId := LogId(e.id, id);
    var l2 := l1[logId := TransferLog(contract, e.transaction, e.timestamp, contract, TokenKey(contract, id), from, to)];
    assert l2.Keys == l1.Keys + {logId};
    forall i | lo <= i <= hi
      ensures LogId(e.id, i) in l2 && l2[LogId(e.id, i)] == l1[LogId(e.id, i)]
    {
      assert LogId(e.id, i) in RangeLogIds(e.id, lo, hi);
    }
    forall x | x in l0 && x !in RangeLogIds(e.id, lo, id)
      ensures l2[x] == l0[x]
    {
      assert x != logId;
    }
  }

  /** Refreshing the next id extends a range refresh by that id. */
  lemma UrisRefreshedStep(t0: map<TokenKey, Token>, t1: map<TokenKey, Token>, t2: map<TokenKey, Token>,
                          chain: Chain, c: Contract, lo: int, hi: int, id: int)
    requires lo <= id && id == hi + 1
    requires UrisRefreshed(t0, t1, chain, c, lo, hi)
    requires UrisRefreshed(t1, t2, chain, c, id, id)
    ensures UrisRefreshed(t0, t2, chain, c, lo, id)
  {
  }
}
