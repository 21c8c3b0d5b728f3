/**
 * CLMM position grouping and refresh guard of
 * src/hooks/portfolio/clmm/useClmmBalance.ts.
 *
 * From the owner's token accounts the hook keeps those holding exactly one
 * token (a position NFT), derives one position-account key per NFT, fetches
 * those accounts, and files every decoded position under its pool. A
 * module-level tag decides when a refresh request triggers a refetch.
 *
 * The SDK's account decoding and key derivation are function parameters
 * (`decode`, `pda`): the model only relies on them being functions.
 */
module ClmmBalance {
  import opened Wrappers

  type Mint = string
  type Key = string
  type PoolId = string

  datatype TokenAccount = TokenAccount(mint: Mint, amount: nat)

  /** The decoded fields of a personal-position account. */
  datatype DecodedPosition = DecodedPosition(
    poolId: PoolId,
    nftMint: Mint,
    tickLower: int,
    tickUpper: int,
    liquidity: nat)

  /** A position as filed in the balance map; `key` is set on a pool's first position only. */
  datatype ClmmPosition = ClmmPosition(position: DecodedPosition, key: Option<Key>)

  /** A fetched account; `data` is its raw account data. */
  datatype AccountInfo = AccountInfo(data: seq<bv8>)

  predicate IsPositionNft(acc: TokenAccount)
  {
    acc.amount == 1
  }

  /** `balanceMints`: the token accounts whose amount is exactly 1, in their original order. */
  function BalanceMints(accounts: seq<TokenAccount>): (mints: seq<TokenAccount>)
    ensures |mints| <= |accounts|
    ensures forall acc :: acc in mints <==> acc in accounts && IsPositionNft(acc)
    ensures forall acc :: multiset(mints)[acc] == if IsPositionNft(acc) then multiset(accounts)[acc] else 0
    decreases |accounts|
  {
    if accounts == [] then []
    else
      assert accounts == [accounts[0]] + accounts[1..];
      (if IsPositionNft(accounts[0]) then [accounts[0]] else []) + BalanceMints(accounts[1..])
  }

  /** Filtering distributes over concatenation, so the kept accounts keep their relative order. */
  lemma {:induction false} BalanceMintsAppend(a: seq<TokenAccount>, b: seq<TokenAccount>)
    ensures BalanceMints(a + b) == BalanceMints(a) + BalanceMints(b)
    decreases |a|
  {
    if a == [] {
      assert a + b == b;
    } else {
      assert (a + b)[1..] == a[1..] + b;
      BalanceMintsAppend(a[1..], b);
    }
  }

  /** `programId || CLMM_PROGRAM_ID`: an absent or empty program id falls back to the configured one. */
  function ClmmProgramId(programId: Option<string>, configured: string): (id: string)
    ensures programId.Some? && programId.value != "" ==> id == programId.value
    ensures programId.None? || programId.value == "" ==> id == configured
    ensures id == "" <==> (programId.None? || programId.value == "") && configured == ""
  {
    if programId.Some? && programId.value != "" then programId.value else configured
  }

  /** `allPositionKey`: one derived position key per NFT account, same length and order. */
  function AllPositionKey(programId: string, mints: seq<TokenAccount>, pda: (string, Mint) -> Key): (keys: seq<Key>)
    ensures |keys| == |mints|
    ensures forall i :: 0 <= i < |mints| ==> keys[i] == pda(programId, mints[i].mint)
    decreases |mints|
  {
    if mints == [] then [] else [pda(programId, mints[0].mint)] + AllPositionKey(programId, mints[1..], pda)
  }

  /** `needFetch`: all five conditions must hold for the accounts to be requested. */
  predicate NeedFetch(tokenAccLoaded: bool, clmmProgramId: string, connected: bool,
                      rawInfos: seq<TokenAccount>, keys: seq<Key>)
  {
    tokenAccLoaded && clmmProgramId != "" && connected && |rawInfos| > 0 && |keys| > 0
  }

  /** The request key handed to the fetcher: the key list when fetching is enabled, null otherwise. */
  function FetchKey(tokenAccLoaded: bool, clmmProgramId: string, connected: bool,
                    rawInfos: seq<TokenAccount>, keys: seq<Key>): (k: Option<seq<Key>>)
    ensures k.Some? ==> k.value == keys && |keys| > 0 && |rawInfos| > 0
    ensures k.None? <==> !tokenAccLoaded || clmmProgramId == "" || !connected || rawInfos == [] || keys == []
  {
    if NeedFetch(tokenAccLoaded, clmmProgramId, connected, rawInfos, keys) then Some(keys) else None
  }

  /**
   * With the program id resolved as the hook does and the keys derived from
   * the accounts themselves, the request is made exactly when the store is
   * loaded, some program id (the caller's or the configured one) and a
   * connection exist, and at least one account holds a position NFT; the
   * separate non-empty check on the raw accounts is then implied.
   */
  lemma NeedFetchIffSomePositionNft(tokenAccLoaded: bool, programId: Option<string>, configured: string,
                                    connected: bool, rawInfos: seq<TokenAccount>, pda: (string, Mint) -> Key)
    ensures var clmmProgramId := ClmmProgramId(programId, configured);
      (NeedFetch(tokenAccLoaded, clmmProgramId, connected, rawInfos,
                 AllPositionKey(clmmProgramId, BalanceMints(rawInfos), pda))
       <==> tokenAccLoaded && ((programId.Some? && programId.value != "") || configured != "") && connected
            && (exists i :: 0 <= i < |rawInfos| && IsPositionNft(rawInfos[i])))
  {
    var mints := BalanceMints(rawInfos);
    if |mints| > 0 {
      assert mints[0] in mints;
      var i :| 0 <= i < |rawInfos| && rawInfos[i] == mints[0];
      assert IsPositionNft(rawInfos[i]);
    }
    if exists i :: 0 <= i < |rawInfos| && IsPositionNft(rawInfos[i]) {
      var i :| 0 <= i < |rawInfos| && IsPositionNft(rawInfos[i]);
      assert rawInfos[i] in mints;
    }
  }

  /** `data || []`: an undefined fetch result is an empty list of responses. */
  function Responses(data: Option<seq<Option<AccountInfo>>>): seq<Option<AccountInfo>>
  {
    if data.Some? then data.value else []
  }

  /** The pool a response is filed under, or None for a null response. */
  function PoolOf(responses: seq<Option<AccountInfo>>, decode: seq<bv8> -> DecodedPosition, i: nat): Option<PoolId>
    requires i < |responses|
  {
    match responses[i]
    case None => None
    case Some(info) => Some(decode(info.data).poolId)
  }

  /** The indices below `n` whose response decodes to a position of `pool`. */
  function FiledUnder(responses: seq<Option<AccountInfo>>, decode: seq<bv8> -> DecodedPosition,
                      pool: PoolId, n: nat): (ix: seq<nat>)
    requires n <= |responses|
    ensures forall k :: 0 <= k < |ix| ==> ix[k] < n && PoolOf(responses, decode, ix[k]) == Some(pool)
    ensures forall k, k' :: 0 <= k < k' < |ix| ==> ix[k] < ix[k']
    ensures forall i :: 0 <= i < n && PoolOf(responses, decode, i) == Some(pool) ==> i in ix
    decreases n
  {
    if n == 0 then []
    else
      FiledUnder(responses, decode, pool, n - 1)
        + (if PoolOf(responses, decode, n - 1) == Some(pool) then [n - 1] else [])
  }

  /** `allPositionKey[idx]`, which is undefined past the end of the key list. */
  function KeyAt(keys: seq<Key>, i: nat): Option<Key>
  {
    if i < |keys| then Some(keys[i]) else None
  }

  /** The list a pool should hold: its positions in index order, the first one keyed. */
  function PoolList(responses: seq<Option<AccountInfo>>, keys: seq<Key>,
                    decode: seq<bv8> -> DecodedPosition, ix: seq<nat>): (ps: seq<ClmmPosition>)
    requires forall k :: 0 <= k < |ix| ==> ix[k] < |responses| && responses[ix[k]].Some?
    ensures |ps| == |ix|
    ensures forall k :: 0 <= k < |ix| ==> ps[k].position == decode(responses[ix[k]].value.data)
    ensures |ix| > 0 ==> ps[0].key == KeyAt(keys, ix[0])
    ensures forall k :: 0 < k < |ix| ==> ps[k].key == None
  {
    seq(|ix|, k requires 0 <= k < |ix| =>
      ClmmPosition(decode(responses[ix[k]].value.data), if k == 0 then KeyAt(keys, ix[0]) else None))
  }

  /** Seen from `pool`, `positionMap` is the grouping of the first `n` responses. */
  ghost predicate GroupedAt(positionMap: map<PoolId, seq<ClmmPosition>>, responses: seq<Option<AccountInfo>>,
                            keys: seq<Key>, decode: seq<bv8> -> DecodedPosition, n: nat, pool: PoolId)
    requires n <= |responses|
  {
    && (pool in positionMap <==> FiledUnder(responses, decode, pool, n) != [])
    && (pool in positionMap ==>
          positionMap[pool] == PoolList(responses, keys, decode, FiledUnder(responses, decode, pool, n)))
  }

  /**
   * `positionMap` is the grouping of the first `n` responses: a pool is a key
   * exactly when some of them is filed under it, and then holds its `PoolList`.
   */
  ghost predicate GroupedAs(positionMap: map<PoolId, seq<ClmmPosition>>, responses: seq<Option<AccountInfo>>,
                            keys: seq<Key>, decode: seq<bv8> -> DecodedPosition, n: nat)
    requires n <= |responses|
  {
    forall pool :: GroupedAt(positionMap, responses, keys, decode, n, pool)
  }

  lemma PoolListSnoc(responses: seq<Option<AccountInfo>>, keys: seq<Key>,
                     decode: seq<bv8> -> DecodedPosition, ix: seq<nat>, i: nat)
    requires forall k :: 0 <= k < |ix| ==> ix[k] < |responses| && responses[ix[k]].Some?
    requires ix != [] && i < |responses| && responses[i].Some?
    ensures PoolList(responses, keys, decode, ix + [i])
         == PoolList(responses, keys, decode, ix) + [ClmmPosition(decode(responses[i].value.data), None)]
  {
  }

  /** What one fold step does to the list of one pool. */
  lemma FoldStepAt(positionMap: map<PoolId, seq<ClmmPosition>>, next: map<PoolId, seq<ClmmPosition>>,
                   responses: seq<Option<AccountInfo>>, keys: seq<Key>,
                   decode: seq<bv8> -> DecodedPosition, idx: nat, pool: PoolId)
    requires idx < |responses|
    requires responses[idx].None? ==> next == positionMap
    requires responses[idx].Some? ==>
      var position := decode(responses[idx].value.data);
      next == if position.poolId !in positionMap
              then positionMap[position.poolId := [ClmmPosition(position, KeyAt(keys, idx))]]
              else positionMap[position.poolId := positionMap[position.poolId] + [ClmmPosition(position, None)]]
    ensures PoolOf(responses, decode, idx) != Some(pool) ==>
      (pool in next <==> pool in positionMap) && (pool in next ==> next[pool] == positionMap[pool])
    ensures PoolOf(responses, decode, idx) == Some(pool) ==>
      var position := decode(responses[idx].value.data);
      && pool in next
      && next[pool] == if pool !in positionMap then [ClmmPosition(position, KeyAt(keys, idx))]
                       else positionMap[pool] + [ClmmPosition(position, None)]
  {
  }

  /** The fold step for one response, seen from one pool. */
  lemma GroupedStepAt(positionMap: map<PoolId, seq<ClmmPosition>>, next: map<PoolId, seq<ClmmPosition>>,
                      responses: seq<Option<AccountInfo>>, keys: seq<Key>,
                      decode: seq<bv8> -> DecodedPosition, idx: nat, pool: PoolId)
    requires idx < |responses|
    requires GroupedAt(positionMap, responses, keys, decode, idx, pool)
    requires PoolOf(responses, decode, idx) != Some(pool) ==>
      (pool in next <==> pool in positionMap) && (pool in next ==> next[pool] == positionMap[pool])
    requires PoolOf(responses, decode, idx) == Some(pool) ==>
      var position := decode(responses[idx].value.data);
      && pool in next
      && next[pool] == if pool !in positionMap then [ClmmPosition(position, KeyAt(keys, idx))]
                       else positionMap[pool] + [ClmmPosition(position, None)]
    ensures GroupedAt(next, responses, keys, decode, idx + 1, pool)
  {
    var before := FiledUnder(responses, decode, pool, idx);
    if PoolOf(responses, decode, idx) == Some(pool) {
      assert FiledUnder(responses, decode, pool, idx + 1) == before + [idx];
      if pool in positionMap {
        PoolListSnoc(responses, keys, decode, before, idx);
      }
    } else {
      assert FiledUnder(responses, decode, pool, idx + 1) == before;
    }
  }

  /** One step of the grouping fold extends the grouping of the first `idx` responses to `idx + 1`. */
  lemma GroupedStep(positionMap: map<PoolId, seq<ClmmPosition>>, next: map<PoolId, seq<ClmmPosition>>,
                    responses: seq<Option<AccountInfo>>, keys: seq<Key>,
                    decode: seq<bv8> -> DecodedPosition, idx: nat)
    requires idx < |responses|
    requires GroupedAs(positionMap, responses, keys, decode, idx)
    requires responses[idx].None? ==> next == positionMap
    requires responses[idx].Some? ==>
      var position := decode(responses[idx].value.data);
      next == if position.poolId !in positionMap
              then positionMap[position.poolId := [ClmmPosition(position, KeyAt(keys, idx))]]
              else positionMap[position.poolId := positionMap[position.poolId] + [ClmmPosition(position, None)]]
    ensures GroupedAs(next, responses, keys, decode, idx + 1)
  {
    var n := idx + 1;
    forall pool
      ensures GroupedAt(next, responses, keys, decode, n, pool)
    {
      FoldStepAt(positionMap, next, responses, keys, decode, idx, pool);
      GroupedStepAt(positionMap, next, responses, keys, decode, idx, pool);
    }
  }

  /**
   * `balanceData`: null responses are skipped; each other response is decoded
   * and appended to its pool's list, the first one of a pool carrying the key
   * derived at the same index.
   */
  method BalanceData(data: Option<seq<Option<AccountInfo>>>, keys: seq<Key>, decode: seq<bv8> -> DecodedPosition)
    returns (positionMap: map<PoolId, seq<ClmmPosition>>)
    ensures data.None? ==> positionMap == map[]
    ensures GroupedAs(positionMap, Responses(data), keys, decode, |Responses(data)|)
  {
    var responses := Responses(data);
    positionMap := map[];
    for idx := 0 to |responses|
      invariant GroupedAs(positionMap, responses, keys, decode, idx)
      invariant idx == 0 ==> positionMap == map[]
    {
      var next := positionMap;
      if responses[idx].Some? {
        var position := decode(responses[idx].value.data);
        var pool := position.poolId;
        if pool !in positionMap {
          next := positionMap[pool := [ClmmPosition(position, KeyAt(keys, idx))]];
        } else {
          next := positionMap[pool := positionMap[pool] + [ClmmPosition(position, None)]];
        }
      }
      GroupedStep(positionMap, next, responses, keys, decode, idx);
      positionMap := next;
    }
  }

  /**
   * Every non-null response is filed under its own decoded pool and under no
   * other; a null response is filed nowhere.
   */
  lemma ResponseFiledOnce(responses: seq<Option<AccountInfo>>, decode: seq<bv8> -> DecodedPosition,
                          i: nat, pool: PoolId)
    requires i < |responses|
    ensures i in FiledUnder(responses, decode, pool, |responses|)
        <==> responses[i].Some? && decode(responses[i].value.data).poolId == pool
  {
    var ix := FiledUnder(responses, decode, pool, |responses|);
    if i in ix {
      var k :| 0 <= k < |ix| && ix[k] == i;
    }
  }

  // ---------------------------------------------------------------------
  // The refresh guard
  // ---------------------------------------------------------------------

  /** The tags, in order, for which the effect calls `mutate()`, starting from `last`. */
  function Refetches(last: int, tags: seq<int>): (r: seq<int>)
    ensures |r| <= |tags|
    ensures forall t :: t in r ==> t in tags
    decreases |tags|
  {
    if tags == [] then []
    else (if tags[0] != last then [tags[0]] else []) + Refetches(tags[0], tags[1..])
  }

  /** A refetch happens only on a change of tag: never for the stored tag, never twice in a row for one tag. */
  lemma {:induction false} RefetchesOnlyOnChange(last: int, tags: seq<int>)
    ensures var r := Refetches(last, tags);
      && (r != [] ==> r[0] != last)
      && (forall k :: 0 <= k < |r| - 1 ==> r[k] != r[k + 1])
    decreases |tags|
  {
    if tags != [] {
      RefetchesOnlyOnChange(tags[0], tags[1..]);
    }
  }

  /** Repeated runs with one tag trigger at most one refetch, and none if it is already stored. */
  lemma {:induction false} SameTagRefetchesAtMostOnce(last: int, tag: int, tags: seq<int>)
    requires forall k :: 0 <= k < |tags| ==> tags[k] == tag
    ensures |Refetches(last, tags)| <= 1
    ensures last == tag ==> Refetches(last, tags) == []
    decreases |tags|
  {
    if tags != [] {
      SameTagRefetchesAtMostOnce(tag, tag, tags[1..]);
    }
  }

  /** The stored tag after the effect has run for `tags`, starting from `last`. */
  function LastTag(last: int, tags: seq<int>): int
  {
    if tags == [] then last else tags[|tags| - 1]
  }

  /** One more effect run extends the refetch list by what that run alone does from the stored tag. */
  lemma {:induction false} RefetchesSnoc(last: int, tags: seq<int>, t: int)
    ensures Refetches(last, tags + [t]) == Refetches(last, tags) + Refetches(LastTag(last, tags), [t])
    decreases |tags|
  {
    if tags == [] {
      assert tags + [t] == [t];
    } else {
      var head := if tags[0] != last then [tags[0]] else [];
      assert (tags + [t])[0] == tags[0] && (tags + [t])[1..] == tags[1..] + [t];
      assert Refetches(last, tags + [t]) == head + Refetches(tags[0], tags[1..] + [t]);
      assert Refetches(last, tags) == head + Refetches(tags[0], tags[1..]);
      assert LastTag(tags[0], tags[1..]) == LastTag(last, tags);
      RefetchesSnoc(tags[0], tags[1..], t);
    }
  }

  /**
   * The module-level `lastRefreshTag` and the refetches its effect has
   * triggered; `history` is every tag the effect has run for, since the
   * guard started at `initialTag`.
   */
  class RefreshGuard {
    var lastRefreshTag: int
    ghost var refetches: seq<int>
    ghost var initialTag: int
    ghost var history: seq<int>

    /** The stored tag and the refetch log are those of `Refetches` over the whole history. */
    ghost predicate Valid()
      reads this
    {
      && lastRefreshTag == LastTag(initialTag, history)
      && refetches == Refetches(initialTag, history)
    }

    constructor (initialTag: int)
      ensures Valid()
      ensures lastRefreshTag == initialTag && refetches == []
      ensures this.initialTag == initialTag && history == []
    {
      lastRefreshTag := initialTag;
      refetches := [];
      this.initialTag := initialTag;
      history := [];
    }

    /** One run of the effect for the store's current `refreshClmmPositionTag`. */
    method OnRefreshTag(tag: int)
      requires Valid()
      modifies this
      ensures Valid()
      ensures initialTag == old(initialTag) && history == old(history) + [tag]
      ensures lastRefreshTag == tag
      ensures refetches == old(refetches) + Refetches(old(lastRefreshTag), [tag])
    {
      RefetchesSnoc(initialTag, history, tag);
      history := history + [tag];
      if lastRefreshTag == tag {
        return;
      }
      lastRefreshTag := tag;
      refetches := refetches + [tag];  // mutate()
    }
  }
}
