/** The multi-slot storage proof compressor and MultiStorageSlotProver.getProofData
    (packages/client/src/provers/multistorage.ts).

    A storage-slot proof is a concatenation of RLP-encoded trie nodes. The prover
    splits each proof into its nodes, collects the distinct nodes in first-seen
    order, and rewrites every proof as the list of positions of its nodes in that
    list. The on-chain verifier rebuilds each proof by indexing back into it. */
module MultiStorage {
  import opened Errors
  import StorageSlots

  newtype byte = x: int | 0 <= x < 256

  type Bytes = seq<byte>

  const RlpDecodeError: string := "invalid RLP encoding"

  // ---------------------------------------------------------------------
  // Splitting a proof into its nodes.
  //
  // `itemLength(s)` is the length of the RLP item at the head of `s`, as
  // `RLP.decode(s, true)` finds it; the decoder outside the model fails on any
  // `s` for which that is not between 1 and |s|. Re-encoding the decoded item
  // (`RLP.encode(data)`) reproduces the item's bytes, as it does for the
  // canonical encodings the decoder accepts.

  function Concat(nodes: seq<Bytes>): Bytes {
    if nodes == [] then [] else nodes[0] + Concat(nodes[1..])
  }

  /** The position in the proof at which node `i` starts. */
  function Offset(nodes: seq<Bytes>, i: nat): nat
    requires i <= |nodes|
  {
    |Concat(nodes[..i])|
  }

  /** Node `i` is exactly the RLP item the decoder finds where that node starts. */
  predicate IsItemAt(itemLength: Bytes -> int, proof: Bytes, nodes: seq<Bytes>, i: nat)
    requires i < |nodes|
  {
    Offset(nodes, i) <= |proof| &&
    var rest := proof[Offset(nodes, i)..];
    0 <= itemLength(rest) <= |rest| && nodes[i] == rest[..itemLength(rest)]
  }

  /** The nodes of one slot proof: the effect of the source's split loop. */
  function SplitNodes(itemLength: Bytes -> int, proof: Bytes): (r: Result<seq<Bytes>>)
    ensures r.Err? ==> r.error == Fault(RlpDecodeError)
    ensures r.Ok? ==> Concat(r.value) == proof
    ensures r.Ok? ==> forall i :: 0 <= i < |r.value| ==> |r.value[i]| > 0
    ensures r.Ok? ==> forall i :: 0 <= i < |r.value| ==> IsItemAt(itemLength, proof, r.value, i)
    decreases |proof|
  {
    if |proof| == 0 then Ok([])
    else
      var n := itemLength(proof);
      if !(1 <= n <= |proof|) then Err(Fault(RlpDecodeError))
      else
        match SplitNodes(itemLength, proof[n..])
        case Err(e) => Err(e)
        case Ok(rest) =>
          var nodes := [proof[..n]] + rest;
          assert nodes[1..] == rest;
          assert forall i :: 0 <= i < |nodes| ==> IsItemAt(itemLength, proof, nodes, i) by {
            forall i | 0 <= i < |nodes| ensures IsItemAt(itemLength, proof, nodes, i) {
              if i > 0 {
                OffsetCons(proof[..n], rest, i);
                assert IsItemAt(itemLength, proof[n..], rest, i - 1);
                assert proof[n..][Offset(rest, i - 1)..] == proof[Offset(nodes, i)..];
              }
            }
          }
          Ok(nodes)
  }

  lemma OffsetCons(head: Bytes, rest: seq<Bytes>, i: nat)
    requires 0 < i <= |rest| + 1
    ensures Offset([head] + rest, i) == |head| + Offset(rest, i - 1)
  {
    var nodes := [head] + rest;
    assert nodes[..i] == [head] + rest[..i - 1];
    assert nodes[..i][1..] == rest[..i - 1];
  }

  /** `Prepend(done, r)`: the items already produced followed by those still to come. */
  function Prepend<T>(done: seq<T>, r: Result<seq<T>>): Result<seq<T>> {
    match r
    case Ok(rest) => Ok(done + rest)
    case Err(e) => Err(e)
  }

  lemma PrependNil<T>(r: Result<seq<T>>)
    ensures Prepend([], r) == r
  {
    if r.Ok? {
      assert [] + r.value == r.value;
    }
  }

  lemma PrependSnoc<T>(done: seq<T>, x: T, r: Result<seq<T>>)
    ensures Prepend(done, Prepend([x], r)) == Prepend(done + [x], r)
  {
    if r.Ok? {
      assert done + ([x] + r.value) == (done + [x]) + r.value;
    }
  }

  /** The source's split loop over one slot proof: decode one item, push its
      re-encoding, continue with the remainder until it is empty. */
  method SplitSlotProof(itemLength: Bytes -> int, slotProof: Bytes) returns (r: Result<seq<Bytes>>)
    ensures r == SplitNodes(itemLength, slotProof)
  {
    var result: seq<Bytes> := [];
    var remaining := slotProof;
    PrependNil(SplitNodes(itemLength, slotProof));
    while |remaining| > 0
      invariant SplitNodes(itemLength, slotProof) == Prepend(result, SplitNodes(itemLength, remaining))
      decreases |remaining|
    {
      var n := itemLength(remaining);
      if !(1 <= n <= |remaining|) {
        return Err(Fault(RlpDecodeError));
      }
      assert SplitNodes(itemLength, remaining) == Prepend([remaining[..n]], SplitNodes(itemLength, remaining[n..]));
      PrependSnoc(result, remaining[..n], SplitNodes(itemLength, remaining[n..]));
      result := result + [remaining[..n]];
      remaining := remaining[n..];
    }
    assert SplitNodes(itemLength, remaining) == Ok([]);
    assert result + [] == result;
    return Ok(result);
  }

  /** The `map` of the split loop over the fetched proofs, in slot order. */
  function SplitAll(itemLength: Bytes -> int, proofs: seq<Bytes>): (r: Result<seq<seq<Bytes>>>)
    ensures r.Ok? ==> |r.value| == |proofs|
    ensures r.Ok? ==> forall i :: 0 <= i < |proofs| ==> SplitNodes(itemLength, proofs[i]) == Ok(r.value[i])
    ensures r.Err? <==> exists i :: 0 <= i < |proofs| && SplitNodes(itemLength, proofs[i]).Err?
  {
    if proofs == [] then Ok([])
    else
      match SplitNodes(itemLength, proofs[0])
      case Err(e) => Err(e)
      case Ok(first) =>
        match SplitAll(itemLength, proofs[1..])
        case Err(e) => Err(e)
        case Ok(rest) =>
          assert forall i :: 1 <= i < |proofs| ==> proofs[1..][i - 1] == proofs[i];
          Ok([first] + rest)
  }

  method SplitProofs(itemLength: Bytes -> int, proofs: seq<Bytes>) returns (r: Result<seq<seq<Bytes>>>)
    ensures r == SplitAll(itemLength, proofs)
  {
    var splits: seq<seq<Bytes>> := [];
    assert proofs[0..] == proofs;
    PrependNil(SplitAll(itemLength, proofs));
    for i := 0 to |proofs|
      invariant SplitAll(itemLength, proofs) == Prepend(splits, SplitAll(itemLength, proofs[i..]))
    {
      var nodes := SplitSlotProof(itemLength, proofs[i]);
      assert proofs[i..][0] == proofs[i] && proofs[i..][1..] == proofs[i + 1..];
      if nodes.Err? {
        return Err(nodes.error);
      }
      assert SplitAll(itemLength, proofs[i..]) == Prepend([nodes.value], SplitAll(itemLength, proofs[i + 1..]));
      PrependSnoc(splits, nodes.value, SplitAll(itemLength, proofs[i + 1..]));
      splits := splits + [nodes.value];
    }
    assert proofs[|proofs|..] == [];
    assert splits + [] == splits;
    return Ok(splits);
  }

  // ---------------------------------------------------------------------
  // The distinct nodes, in first-seen order: `Array.from(new Set([].concat(...splitProofs)))`.

  function Flatten<T>(xss: seq<seq<T>>): seq<T> {
    if xss == [] then [] else xss[0] + Flatten(xss[1..])
  }

  predicate NoDuplicates<T(==)>(s: seq<T>) {
    forall i, j :: 0 <= i < j < |s| ==> s[i] != s[j]
  }

  /** The elements of `s` with every repeat dropped: a JavaScript `Set` keeps
      its elements in insertion order and ignores a second insertion. */
  function Dedup<T(==)>(s: seq<T>): (d: seq<T>)
    ensures NoDuplicates(d)
    ensures forall i :: 0 <= i < |d| ==> d[i] in s
    ensures forall i :: 0 <= i < |s| ==> s[i] in d
  {
    if s == [] then []
    else
      var d := Dedup(s[..|s| - 1]);
      if s[|s| - 1] in d then d else d + [s[|s| - 1]]
  }

  /** `Array.prototype.indexOf`: the first position of `x` in `s`, or -1. */
  function IndexOf<T(==)>(s: seq<T>, x: T): (i: int)
    ensures x in s ==> 0 <= i < |s| && s[i] == x && x !in s[..i]
    ensures x !in s ==> i == -1
  {
    if s == [] then -1
    else if s[0] == x then 0
    else
      var j := IndexOf(s[1..], x);
      if j < 0 then -1
      else
        assert s[..j + 1] == [s[0]] + s[1..][..j];
        j + 1
  }

  /** The first occurrence of an element of a prefix is found within the prefix. */
  lemma IndexOfPrefix<T>(s: seq<T>, k: nat, x: T)
    requires k <= |s| && x in s[..k]
    ensures IndexOf(s, x) == IndexOf(s[..k], x)
  {
    var a, b := IndexOf(s, x), IndexOf(s[..k], x);
    assert s[..k][..b] == s[..b];
    assert a == b;
  }

  /** The distinct nodes of `splits`, in the order they are first seen when the
      proofs are read in slot order and each proof root to leaf. */
  function NodeSet<T(==)>(splits: seq<seq<T>>): seq<T> {
    Dedup(Flatten(splits))
  }

  /** The node set lists nodes in first-seen order: an earlier entry first occurs
      earlier in the concatenated proofs. */
  lemma {:induction false} DedupFirstSeenOrder<T>(s: seq<T>, i: int, j: int)
    requires 0 <= i < j < |Dedup(s)|
    ensures IndexOf(s, Dedup(s)[i]) < IndexOf(s, Dedup(s)[j])
  {
    var init, last := s[..|s| - 1], s[|s| - 1];
    var d0 := Dedup(init);
    var d := Dedup(s);
    assert s == init + [last];
    if last in d0 {
      DedupFirstSeenOrder(init, i, j);
      IndexOfPrefix(s, |s| - 1, d[i]);
      IndexOfPrefix(s, |s| - 1, d[j]);
    } else if j < |d0| {
      DedupFirstSeenOrder(init, i, j);
      IndexOfPrefix(s, |s| - 1, d[i]);
      IndexOfPrefix(s, |s| - 1, d[j]);
    } else {
      assert d[j] == last && last !in init;
      IndexOfPrefix(s, |s| - 1, d[i]);
      assert IndexOf(s, last) == |s| - 1 by {
        assert s[..|s| - 1] == init;
      }
    }
  }

  lemma {:induction false} FlattenMembers<T>(xss: seq<seq<T>>, x: T)
    ensures x in Flatten(xss) <==> exists i, j :: 0 <= i < |xss| && 0 <= j < |xss[i]| && xss[i][j] == x
  {
    if xss != [] {
      FlattenMembers(xss[1..], x);
      if x in Flatten(xss) && x !in xss[0] {
        var i, j :| 0 <= i < |xss[1..]| && 0 <= j < |xss[1..][i]| && xss[1..][i][j] == x;
        assert xss[i + 1][j] == x;
      }
      if exists i, j :: 0 <= i < |xss| && 0 <= j < |xss[i]| && xss[i][j] == x {
        var i, j :| 0 <= i < |xss| && 0 <= j < |xss[i]| && xss[i][j] == x;
        if i > 0 {
          assert xss[1..][i - 1][j] == x;
        }
      }
    }
  }

  /** The node set covers exactly the nodes of the split proofs. */
  lemma NodeSetCovers<T>(splits: seq<seq<T>>, x: T)
    ensures x in NodeSet(splits) <==> exists i, j :: 0 <= i < |splits| && 0 <= j < |splits[i]| && splits[i][j] == x
  {
    FlattenMembers(splits, x);
  }

  // ---------------------------------------------------------------------
  // Index compression: `proof.map((node) => nodeSet.indexOf(node))` for every proof.

  function Compress<T(==)>(nodeSet: seq<T>, splits: seq<seq<T>>): (idx: seq<seq<int>>)
    ensures |idx| == |splits|
    ensures forall i :: 0 <= i < |splits| ==> |idx[i]| == |splits[i]|
  {
    seq(|splits|, i requires 0 <= i < |splits| =>
      seq(|splits[i]|, j requires 0 <= j < |splits[i]| => IndexOf(nodeSet, splits[i][j])))
  }

  predicate IndicesInRange<T>(nodeSet: seq<T>, idx: seq<int>) {
    forall k :: 0 <= k < |idx| ==> 0 <= idx[k] < |nodeSet|
  }

  /** What the verifier does with one index list: look each index up in the node
      set and concatenate the nodes. */
  function Expand(nodeSet: seq<Bytes>, idx: seq<int>): Bytes
    requires IndicesInRange(nodeSet, idx)
  {
    Concat(seq(|idx|, k requires 0 <= k < |idx| => nodeSet[idx[k]]))
  }

  /** Index round trip: every index of every proof points into the node set at
      exactly the node it replaced, and equal nodes get equal indices. */
  lemma CompressRoundTrip<T>(splits: seq<seq<T>>)
    ensures var ns := NodeSet(splits); var idx := Compress(ns, splits);
      forall i, j :: 0 <= i < |splits| && 0 <= j < |splits[i]| ==>
        0 <= idx[i][j] < |ns| && ns[idx[i][j]] == splits[i][j]
  {
    var ns := NodeSet(splits);
    forall i, j | 0 <= i < |splits| && 0 <= j < |splits[i]|
      ensures splits[i][j] in ns
    {
      NodeSetCovers(splits, splits[i][j]);
    }
  }

  /** Nodes shared between two proofs, or repeated in one, are given the same index. */
  lemma SharedNodesShareIndices<T>(splits: seq<seq<T>>, a: nat, j: nat, b: nat, k: nat)
    requires a < |splits| && j < |splits[a]| && b < |splits| && k < |splits[b]|
    requires splits[a][j] == splits[b][k]
    ensures Compress(NodeSet(splits), splits)[a][j] == Compress(NodeSet(splits), splits)[b][k]
  {
  }

  /** Decompression reproduces every proof byte for byte. */
  lemma DecompressRoundTrip(splits: seq<seq<Bytes>>, i: nat)
    requires i < |splits|
    ensures var ns := NodeSet(splits); var idx := Compress(ns, splits);
      IndicesInRange(ns, idx[i]) && Expand(ns, idx[i]) == Concat(splits[i])
  {
    var ns := NodeSet(splits);
    var idx := Compress(ns, splits);
    CompressRoundTrip(splits);
    assert seq(|idx[i]|, k requires 0 <= k < |idx[i]| => ns[idx[i][k]]) == splits[i];
  }

  // ---------------------------------------------------------------------
  // The expected-value check.

  /** Entry `i` of `expected` is undefined, or matches the fetched value. */
  predicate ExpectedHolds(values: seq<int>, expected: seq<Option<int>>, i: nat)
    requires i < |expected|
  {
    expected[i].None? || (i < |values| && values[i] == expected[i].value)
  }

  /** The error the check raises at the entry `i` that does not hold: a
      mismatch, or reading `slotValue` of a proof that was never fetched. */
  function ExpectedFailure(values: seq<int>, expected: seq<Option<int>>, i: nat): Error
    requires i < |expected| && expected[i].Some?
  {
    if i < |values| then SlotValueMismatch(values[i], expected[i].value)
    else Fault("Cannot read properties of undefined (reading 'slotValue')")
  }

  /** `e` is the error raised at the first entry of `expected` that does not hold. */
  predicate IsFirstFailure(values: seq<int>, expected: seq<Option<int>>, e: Error) {
    exists i ::
      && 0 <= i < |expected|
      && !ExpectedHolds(values, expected, i)
      && (forall k :: 0 <= k < i ==> ExpectedHolds(values, expected, k))
      && e == ExpectedFailure(values, expected, i)
  }

  /** The check stops at one definite entry, so the error it raises is
      determined by the values and the expectations. */
  lemma FirstFailureUnique(values: seq<int>, expected: seq<Option<int>>, e1: Error, e2: Error)
    requires IsFirstFailure(values, expected, e1) && IsFirstFailure(values, expected, e2)
    ensures e1 == e2
  {
    var i :| 0 <= i < |expected| && !ExpectedHolds(values, expected, i)
      && (forall k :: 0 <= k < i ==> ExpectedHolds(values, expected, k))
      && e1 == ExpectedFailure(values, expected, i);
    var j :| 0 <= j < |expected| && !ExpectedHolds(values, expected, j)
      && (forall k :: 0 <= k < j ==> ExpectedHolds(values, expected, k))
      && e2 == ExpectedFailure(values, expected, j);
    assert i == j;
  }

  predicate AllExpectedHold(values: seq<int>, expected: Option<seq<Option<int>>>) {
    expected.Some? ==> forall i :: 0 <= i < |expected.value| ==> ExpectedHolds(values, expected.value, i)
  }

  /** The loop over `expected`: it stops at the first defined entry that differs
      from the fetched slot value. */
  method CheckExpected(values: seq<int>, expected: Option<seq<Option<int>>>) returns (r: Outcome)
    ensures r.Pass? <==> AllExpectedHold(values, expected)
    ensures r.Fail? ==> expected.Some? && IsFirstFailure(values, expected.value, r.error)
  {
    if expected.None? {
      return Pass;
    }
    var exp := expected.value;
    for i := 0 to |exp|
      invariant forall k :: 0 <= k < i ==> ExpectedHolds(values, exp, k)
    {
      if exp[i].Some? {
        if i >= |values| {
          assert !ExpectedHolds(values, exp, i);
          return Fail(ExpectedFailure(values, exp, i));
        }
        var outcome := StorageSlots.AssertSlotValue(values[i], exp[i].value);
        if outcome.Fail? {
          assert !ExpectedHolds(values, exp, i);
          return outcome;
        }
      }
    }
    return Pass;
  }

  // ---------------------------------------------------------------------
  // The part of getProofData that both multi-slot provers share.

  datatype StorageSlotProof = StorageSlotProof(slot: int, slotValue: int, slotProof: Bytes)

  /** The compressed slot proofs: the node set (concatenated when ABI-encoded)
      and one index list per slot (RLP-encoded when ABI-encoded). */
  datatype Compressed = Compressed(nodeSet: seq<Bytes>, slotProofs: seq<seq<int>>)

  function SlotValues(proofs: seq<StorageSlotProof>): (vs: seq<int>)
    ensures |vs| == |proofs| && forall i :: 0 <= i < |proofs| ==> vs[i] == proofs[i].slotValue
  {
    seq(|proofs|, i requires 0 <= i < |proofs| => proofs[i].slotValue)
  }

  function SlotProofBytes(proofs: seq<StorageSlotProof>): (ps: seq<Bytes>)
    ensures |ps| == |proofs| && forall i :: 0 <= i < |proofs| ==> ps[i] == proofs[i].slotProof
  {
    seq(|proofs|, i requires 0 <= i < |proofs| => proofs[i].slotProof)
  }

  /** `c` is a faithful compression of the proofs: one index list per proof,
      a duplicate-free node set, and every proof rebuilt exactly from its list. */
  predicate Decompresses(proofs: seq<StorageSlotProof>, c: Compressed) {
    && |c.slotProofs| == |proofs|
    && NoDuplicates(c.nodeSet)
    && forall i :: 0 <= i < |proofs| ==>
         IndicesInRange(c.nodeSet, c.slotProofs[i]) && Expand(c.nodeSet, c.slotProofs[i]) == proofs[i].slotProof
  }

  /** The expected-value check, then the split, dedup and index steps. */
  method CompressSlotProofs(itemLength: Bytes -> int, proofs: seq<StorageSlotProof>, expected: Option<seq<Option<int>>>)
    returns (r: Result<Compressed>)
    ensures !AllExpectedHold(SlotValues(proofs), expected) ==>
      r.Err? && expected.Some? && IsFirstFailure(SlotValues(proofs), expected.value, r.error)
    ensures AllExpectedHold(SlotValues(proofs), expected) ==>
      match SplitAll(itemLength, SlotProofBytes(proofs))
      case Err(e) => r == Err(e)
      case Ok(splits) => r == Ok(Compressed(NodeSet(splits), Compress(NodeSet(splits), splits)))
    ensures r.Ok? ==> AllExpectedHold(SlotValues(proofs), expected) && Decompresses(proofs, r.value)
  {
    var check := CheckExpected(SlotValues(proofs), expected);
    if check.Fail? {
      return Err(check.error);
    }
    var split := SplitProofs(itemLength, SlotProofBytes(proofs));
    if split.Err? {
      return Err(split.error);
    }
    var splits := split.value;
    var nodeSet := NodeSet(splits);
    var c := Compressed(nodeSet, Compress(nodeSet, splits));
    forall i | 0 <= i < |proofs|
      ensures IndicesInRange(c.nodeSet, c.slotProofs[i]) && Expand(c.nodeSet, c.slotProofs[i]) == proofs[i].slotProof
    {
      DecompressRoundTrip(splits, i);
    }
    return Ok(c);
  }

  // ---------------------------------------------------------------------
  // MultiStorageSlotProver.getProofData

  /** The fields of the account proof the provers read. */
  datatype AccountProof = AccountProof(
    blockNum: int, account: string, accountProof: string, header: string, blockProof: string, storageHash: int)

  datatype MultiStorageSlotParams = MultiStorageSlotParams(
    block: int, account: string, includeHeader: Option<bool>, slots: seq<int>,
    expected: Option<seq<Option<int>>>)

  /** The arguments `utils.storageSlotSigData` is called with; the ABI encoding
      of the fact signature is outside the model. */
  datatype SigData = StorageSlotSigData(slot: int, blockNum: int)

  /** The values ABI-encoded into MultiStorageSlotProver's calldata, in order. */
  datatype MultiStorageProof = MultiStorageProof(
    account: string, accountProof: string, header: string, blockProof: string,
    proofNodes: seq<Bytes>, slots: seq<int>, slotProofs: seq<seq<int>>, includeHeader: bool)

  datatype BatchProofData<+P> = BatchProofData(proof: P, sigDatas: seq<SigData>)

  /** `params.slots.map((s) => api.storageSlotProof(block, account, s))`; the
      API is the parameter `fetchSlot`. */
  function FetchAll(fetchSlot: int -> StorageSlotProof, slots: seq<int>): (ps: seq<StorageSlotProof>)
    ensures |ps| == |slots| && forall i :: 0 <= i < |slots| ==> ps[i] == fetchSlot(slots[i])
  {
    seq(|slots|, i requires 0 <= i < |slots| => fetchSlot(slots[i]))
  }

  /** One fact signature per fetched slot proof, in slot order. */
  function SigDatas(proofs: seq<StorageSlotProof>, blockNum: int): (ss: seq<SigData>)
    ensures |ss| == |proofs|
    ensures forall i :: 0 <= i < |proofs| ==> ss[i] == StorageSlotSigData(proofs[i].slot, blockNum)
  {
    seq(|proofs|, i requires 0 <= i < |proofs| => StorageSlotSigData(proofs[i].slot, blockNum))
  }

  /** `params.includeHeader || false`. */
  function IncludeHeaderFlag(includeHeader: Option<bool>): bool {
    includeHeader == Some(true)
  }

  /** `getProofData` once the account proof `accProof` and the slot proofs are
      fetched. A failing expected value rejects the batch before any proof data is
      built; otherwise the calldata carries the account proof's fields, the
      deduplicated nodes and one index list per slot that rebuilds that slot's
      proof, and there is one fact signature per slot. */
  method GetProofData(
    itemLength: Bytes -> int, accProof: AccountProof, fetchSlot: int -> StorageSlotProof,
    params: MultiStorageSlotParams)
    returns (r: Result<BatchProofData<MultiStorageProof>>)
    ensures var proofs := FetchAll(fetchSlot, params.slots);
      && (!AllExpectedHold(SlotValues(proofs), params.expected) ==>
            r.Err? && params.expected.Some? && IsFirstFailure(SlotValues(proofs), params.expected.value, r.error))
      && (AllExpectedHold(SlotValues(proofs), params.expected) && SplitAll(itemLength, SlotProofBytes(proofs)).Err? ==>
            r == Err(SplitAll(itemLength, SlotProofBytes(proofs)).error))
      && (r.Err? <==>
            !AllExpectedHold(SlotValues(proofs), params.expected) || SplitAll(itemLength, SlotProofBytes(proofs)).Err?)
      && (r.Ok? ==>
            var out := r.value.proof;
            && out.account == accProof.account && out.accountProof == accProof.accountProof
            && out.header == accProof.header && out.blockProof == accProof.blockProof
            && out.slots == params.slots
            && out.includeHeader == IncludeHeaderFlag(params.includeHeader)
            && Decompresses(proofs, Compressed(out.proofNodes, out.slotProofs))
            && out.proofNodes == NodeSet(SplitAll(itemLength, SlotProofBytes(proofs)).value)
            && out.slotProofs == Compress(out.proofNodes, SplitAll(itemLength, SlotProofBytes(proofs)).value)
            && r.value.sigDatas == SigDatas(proofs, accProof.blockNum))
  {
    var proofs := FetchAll(fetchSlot, params.slots);
    var compressed := CompressSlotProofs(itemLength, proofs, params.expected);
    if compressed.Err? {
      return Err(compressed.error);
    }
    var c := compressed.value;
    var proofData := MultiStorageProof(
      accProof.account, accProof.accountProof, accProof.header, accProof.blockProof,
      c.nodeSet, params.slots, c.slotProofs, IncludeHeaderFlag(params.includeHeader));
    return Ok(BatchProofData(proofData, SigDatas(proofs, accProof.blockNum)));
  }
}
