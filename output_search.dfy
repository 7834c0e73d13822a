/** Locating a coin output inside a block or a transaction by its ID
    (`findOutputBlock` and `findOutputTransaction` in hashpage.go).

    The ledger derives every output ID from the output's position; those
    derivations are hashes computed by the Sia library, so the model takes
    them as the uninterpreted functions of an `IdScheme` and assumes nothing
    about them (in particular, no injectivity). */
module OutputSearch {
  import opened SiaTypes

  /** The four ID derivations the search compares against:
      `Block.MinerPayoutID(i)`, `Transaction.SiacoinOutputID(i)`,
      `Transaction.FileContractID(i)` and
      `FileContractID.StorageProofOutputID(proofKind, j)`. */
  datatype IdScheme = IdScheme(
    minerPayoutID: (Block, nat) -> Hash,
    siacoinOutputID: (Transaction, nat) -> Hash,
    fileContractID: (Transaction, nat) -> Hash,
    storageProofOutputID: (Hash, bool, nat) -> Hash)

  const NotFoundInBlock := Error("output not found in block")
  const NotFoundInTransaction := Error("output not found in transaction")

  // ---------------------------------------------------------------------
  // Blocks: miner payouts only
  // ---------------------------------------------------------------------

  /** The payout search from index `i` on: the first payout at or after `i`
      whose derived ID is `oID`. */
  function PayoutSearch(s: IdScheme, oID: Hash, b: Block, i: nat): Result<SiacoinOutput>
    requires i <= |b.minerPayouts|
    decreases |b.minerPayouts| - i
  {
    if i == |b.minerPayouts| then Err(NotFoundInBlock)
    else if s.minerPayoutID(b, i) == oID then Ok(b.minerPayouts[i])
    else PayoutSearch(s, oID, b, i + 1)
  }

  /** What `findOutputBlock` computes. */
  function FindInBlock(s: IdScheme, oID: Hash, b: Block): Result<SiacoinOutput>
  {
    PayoutSearch(s, oID, b, 0)
  }

  /** `i` is the smallest payout index whose derived ID is `oID`. */
  ghost predicate LeastPayoutMatch(s: IdScheme, oID: Hash, b: Block, i: nat)
  {
    && i < |b.minerPayouts|
    && s.minerPayoutID(b, i) == oID
    && forall k: nat :: k < i ==> s.minerPayoutID(b, k) != oID
  }

  lemma {:induction false} PayoutSearchSpec(s: IdScheme, oID: Hash, b: Block, i: nat)
    requires i <= |b.minerPayouts|
    requires forall k: nat :: k < i ==> s.minerPayoutID(b, k) != oID
    ensures PayoutSearch(s, oID, b, i).Err? ==>
              PayoutSearch(s, oID, b, i).error == NotFoundInBlock
              && forall k: nat :: k < |b.minerPayouts| ==> s.minerPayoutID(b, k) != oID
    ensures PayoutSearch(s, oID, b, i).Ok? ==>
              exists k: nat :: LeastPayoutMatch(s, oID, b, k)
                          && PayoutSearch(s, oID, b, i).value == b.minerPayouts[k]
    decreases |b.minerPayouts| - i
  {
    if i < |b.minerPayouts| {
      if s.minerPayoutID(b, i) == oID {
        assert LeastPayoutMatch(s, oID, b, i);
      } else {
        PayoutSearchSpec(s, oID, b, i + 1);
      }
    }
  }

  /** `findOutputBlock` returns the payout at the smallest matching index,
      and fails with "output not found in block" exactly when no payout
      index derives `oID`. */
  lemma FindInBlockCorrect(s: IdScheme, oID: Hash, b: Block)
    ensures FindInBlock(s, oID, b).Ok? <==> exists i: nat :: LeastPayoutMatch(s, oID, b, i)
    ensures forall i: nat :: LeastPayoutMatch(s, oID, b, i) ==>
              FindInBlock(s, oID, b) == Ok(b.minerPayouts[i])
    ensures FindInBlock(s, oID, b).Err? ==> FindInBlock(s, oID, b).error == NotFoundInBlock
  {
    PayoutSearchSpec(s, oID, b, 0);
    forall i: nat | LeastPayoutMatch(s, oID, b, i)
      ensures FindInBlock(s, oID, b) == Ok(b.minerPayouts[i])
    {
      assert FindInBlock(s, oID, b).Ok?;
      var k: nat :| LeastPayoutMatch(s, oID, b, k) && FindInBlock(s, oID, b).value == b.minerPayouts[k];
      assert k < i ==> s.minerPayoutID(b, k) != oID;
      assert i < k ==> s.minerPayoutID(b, i) != oID;
    }
  }

  /** `findOutputBlock`: scan the miner payouts in order, returning the
      first whose derived ID is `oID`. */
  method FindOutputBlock(s: IdScheme, oID: Hash, b: Block) returns (r: Result<SiacoinOutput>)
    ensures r == FindInBlock(s, oID, b)
  {
    for i := 0 to |b.minerPayouts|
      invariant PayoutSearch(s, oID, b, 0) == PayoutSearch(s, oID, b, i)
    {
      if oID == s.minerPayoutID(b, i) {
        return Ok(b.minerPayouts[i]);
      }
    }
    return Err(NotFoundInBlock);
  }

  // ---------------------------------------------------------------------
  // Transactions: standard outputs, contract proof outputs, revision proof
  // outputs
  // ---------------------------------------------------------------------

  /** Where an output can sit inside a transaction. `valid` is the proof-kind
      tag: true for a valid-proof output, false for a missed-proof output. */
  datatype Location =
    | Standard(index: nat)
    | ContractProof(contract: nat, valid: bool, index: nat)
    | RevisionProof(revision: nat, valid: bool, index: nat)

  function ProofOutputs(fc: FileContract, valid: bool): seq<SiacoinOutput>
  {
    if valid then fc.validProofOutputs else fc.missedProofOutputs
  }

  function RevisionOutputs(rev: FileContractRevision, valid: bool): seq<SiacoinOutput>
  {
    if valid then rev.newValidProofOutputs else rev.newMissedProofOutputs
  }

  /** The location exists in `tx`. */
  predicate ValidLocation(tx: Transaction, loc: Location)
  {
    match loc
    case Standard(i) => i < |tx.siacoinOutputs|
    case ContractProof(k, v, j) =>
      k < |tx.fileContracts| && j < |ProofOutputs(tx.fileContracts[k], v)|
    case RevisionProof(k, v, j) =>
      k < |tx.fileContractRevisions| && j < |RevisionOutputs(tx.fileContractRevisions[k], v)|
  }

  /** The output stored at `loc`, if the location exists. */
  function OutputAt(tx: Transaction, loc: Location): Option<SiacoinOutput>
  {
    if !ValidLocation(tx, loc) then None
    else match loc
      case Standard(i) => Some(tx.siacoinOutputs[i])
      case ContractProof(k, v, j) => Some(ProofOutputs(tx.fileContracts[k], v)[j])
      case RevisionProof(k, v, j) => Some(RevisionOutputs(tx.fileContractRevisions[k], v)[j])
  }

  /** The ID the ledger derives for `loc`: a contract's proof outputs hang
      off the transaction-indexed contract ID, a revision's off the
      revision's `parentID`. */
  function DerivedID(s: IdScheme, tx: Transaction, loc: Location): Option<Hash>
  {
    if !ValidLocation(tx, loc) then None
    else match loc
      case Standard(i) => Some(s.siacoinOutputID(tx, i))
      case ContractProof(k, v, j) => Some(s.storageProofOutputID(s.fileContractID(tx, k), v, j))
      case RevisionProof(k, v, j) =>
        Some(s.storageProofOutputID(tx.fileContractRevisions[k].parentID, v, j))
  }

  /** The search order: standard outputs first, then the contracts in order
      (each contract's valid-proof outputs before its missed-proof
      outputs), then the revisions in the same way; indexes ascending. */
  predicate Before(a: Location, b: Location)
  {
    match (a, b)
    case (Standard(i), Standard(i')) => i < i'
    case (Standard(_), _) => true
    case (ContractProof(k, v, j), ContractProof(k', v', j')) => LexBefore(k, v, j, k', v', j')
    case (ContractProof(_, _, _), RevisionProof(_, _, _)) => true
    case (RevisionProof(k, v, j), RevisionProof(k', v', j')) => LexBefore(k, v, j, k', v', j')
    case _ => false
  }

  predicate LexBefore(k: nat, v: bool, j: nat, k': nat, v': bool, j': nat)
  {
    k < k' || (k == k' && ((v && !v') || (v == v' && j < j')))
  }

  lemma BeforeIsStrictTotal(a: Location, b: Location)
    ensures !Before(a, a)
    ensures Before(a, b) ==> !Before(b, a)
    ensures a != b ==> Before(a, b) || Before(b, a)
  {
  }

  // The search order as a sequence of locations, built from suffixes so
  // that each loop step of the method peels off one element.

  function StandardFrom(tx: Transaction, i: nat): seq<Location>
    decreases |tx.siacoinOutputs| - i
  {
    if i >= |tx.siacoinOutputs| then [] else [Standard(i)] + StandardFrom(tx, i + 1)
  }

  function ContractProofFrom(k: nat, v: bool, n: nat, j: nat): seq<Location>
    decreases n - j
  {
    if j >= n then [] else [ContractProof(k, v, j)] + ContractProofFrom(k, v, n, j + 1)
  }

  /** The proof-output locations of contract `k`: valid-proof outputs first. */
  function ContractLocations(tx: Transaction, k: nat): seq<Location>
    requires k < |tx.fileContracts|
  {
    var fc := tx.fileContracts[k];
    ContractProofFrom(k, true, |fc.validProofOutputs|, 0)
    + ContractProofFrom(k, false, |fc.missedProofOutputs|, 0)
  }

  function ContractsFrom(tx: Transaction, k: nat): seq<Location>
    decreases |tx.fileContracts| - k
  {
    if k >= |tx.fileContracts| then [] else ContractLocations(tx, k) + ContractsFrom(tx, k + 1)
  }

  function RevisionProofFrom(k: nat, v: bool, n: nat, j: nat): seq<Location>
    decreases n - j
  {
    if j >= n then [] else [RevisionProof(k, v, j)] + RevisionProofFrom(k, v, n, j + 1)
  }

  /** The proof-output locations of revision `k`: new valid-proof outputs first. */
  function RevisionLocations(tx: Transaction, k: nat): seq<Location>
    requires k < |tx.fileContractRevisions|
  {
    var rev := tx.fileContractRevisions[k];
    RevisionProofFrom(k, true, |rev.newValidProofOutputs|, 0)
    + RevisionProofFrom(k, false, |rev.newMissedProofOutputs|, 0)
  }

  function RevisionsFrom(tx: Transaction, k: nat): seq<Location>
    decreases |tx.fileContractRevisions| - k
  {
    if k >= |tx.fileContractRevisions| then [] else RevisionLocations(tx, k) + RevisionsFrom(tx, k + 1)
  }

  function Order(tx: Transaction): seq<Location>
  {
    StandardFrom(tx, 0) + (ContractsFrom(tx, 0) + RevisionsFrom(tx, 0))
  }

  /** The output at the first location of `locs` whose derived ID is `oID`. */
  function FirstMatch(s: IdScheme, tx: Transaction, locs: seq<Location>, oID: Hash): Option<SiacoinOutput>
  {
    if locs == [] then None
    else if DerivedID(s, tx, locs[0]) == Some(oID) then OutputAt(tx, locs[0])
    else FirstMatch(s, tx, locs[1..], oID)
  }

  /** What `findOutputTransaction` computes. */
  function FindInTransaction(s: IdScheme, oID: Hash, tx: Transaction): Result<SiacoinOutput>
  {
    match FirstMatch(s, tx, Order(tx), oID)
    case Some(o) => Ok(o)
    case None => Err(NotFoundInTransaction)
  }

  /** `loc` exists, derives `oID`, and no location earlier in the search
      order does. */
  ghost predicate LeastMatch(s: IdScheme, oID: Hash, tx: Transaction, loc: Location)
  {
    && ValidLocation(tx, loc)
    && DerivedID(s, tx, loc) == Some(oID)
    && forall l :: ValidLocation(tx, l) && Before(l, loc) ==> DerivedID(s, tx, l) != Some(oID)
  }

  // ----- membership: Order(tx) lists exactly the valid locations -----

  lemma {:induction false} StandardFromMembers(tx: Transaction, i: nat, l: Location)
    ensures l in StandardFrom(tx, i) <==> l.Standard? && i <= l.index < |tx.siacoinOutputs|
    decreases |tx.siacoinOutputs| - i
  {
    if i < |tx.siacoinOutputs| { StandardFromMembers(tx, i + 1, l); }
  }

  lemma {:induction false} ContractProofFromMembers(k: nat, v: bool, n: nat, j: nat, l: Location)
    ensures l in ContractProofFrom(k, v, n, j) <==> l == ContractProof(k, v, l.index) && j <= l.index < n
    decreases n - j
  {
    if j < n { ContractProofFromMembers(k, v, n, j + 1, l); }
  }

  lemma {:induction false} RevisionProofFromMembers(k: nat, v: bool, n: nat, j: nat, l: Location)
    ensures l in RevisionProofFrom(k, v, n, j) <==> l == RevisionProof(k, v, l.index) && j <= l.index < n
    decreases n - j
  {
    if j < n { RevisionProofFromMembers(k, v, n, j + 1, l); }
  }

  lemma ContractLocationsMembers(tx: Transaction, k: nat, l: Location)
    requires k < |tx.fileContracts|
    ensures l in ContractLocations(tx, k) <==> l.ContractProof? && l.contract == k && ValidLocation(tx, l)
  {
    var fc := tx.fileContracts[k];
    ContractProofFromMembers(k, true, |fc.validProofOutputs|, 0, l);
    ContractProofFromMembers(k, false, |fc.missedProofOutputs|, 0, l);
  }

  lemma {:induction false} ContractsFromMembers(tx: Transaction, k: nat, l: Location)
    ensures l in ContractsFrom(tx, k) <==> l.ContractProof? && k <= l.contract && ValidLocation(tx, l)
    decreases |tx.fileContracts| - k
  {
    if k < |tx.fileContracts| {
      ContractLocationsMembers(tx, k, l);
      ContractsFromMembers(tx, k + 1, l);
    }
  }

  lemma RevisionLocationsMembers(tx: Transaction, k: nat, l: Location)
    requires k < |tx.fileContractRevisions|
    ensures l in RevisionLocations(tx, k) <==> l.RevisionProof? && l.revision == k && ValidLocation(tx, l)
  {
    var rev := tx.fileContractRevisions[k];
    RevisionProofFromMembers(k, true, |rev.newValidProofOutputs|, 0, l);
    RevisionProofFromMembers(k, false, |rev.newMissedProofOutputs|, 0, l);
  }

  lemma {:induction false} RevisionsFromMembers(tx: Transaction, k: nat, l: Location)
    ensures l in RevisionsFrom(tx, k) <==> l.RevisionProof? && k <= l.revision && ValidLocation(tx, l)
    decreases |tx.fileContractRevisions| - k
  {
    if k < |tx.fileContractRevisions| {
      RevisionLocationsMembers(tx, k, l);
      RevisionsFromMembers(tx, k + 1, l);
    }
  }

  /** Every location the search visits exists, and every existing location
      is visited. */
  lemma OrderMembers(tx: Transaction, l: Location)
    ensures l in Order(tx) <==> ValidLocation(tx, l)
  {
    StandardFromMembers(tx, 0, l);
    ContractsFromMembers(tx, 0, l);
    RevisionsFromMembers(tx, 0, l);
  }

  // ----- sortedness: Order(tx) follows Before -----

  ghost predicate Sorted(locs: seq<Location>)
  {
    forall i, j :: 0 <= i < j < |locs| ==> Before(locs[i], locs[j])
  }

  lemma SortedConcat(a: seq<Location>, b: seq<Location>)
    requires Sorted(a) && Sorted(b)
    requires forall x, y :: x in a && y in b ==> Before(x, y)
    ensures Sorted(a + b)
  {
    forall i, j | 0 <= i < j < |a + b| ensures Before((a + b)[i], (a + b)[j]) {
      if j < |a| {
        assert (a + b)[i] == a[i] && (a + b)[j] == a[j];
      } else if i < |a| {
        assert (a + b)[i] in a && (a + b)[j] in b;
      } else {
        assert (a + b)[i] == b[i - |a|] && (a + b)[j] == b[j - |a|];
      }
    }
  }

  /** In a sorted sequence, an element that comes before another in the
      order also sits at a smaller index. */
  lemma SortedBackwards(locs: seq<Location>, i: int, j: int)
    requires Sorted(locs)
    requires 0 <= i < |locs| && 0 <= j < |locs|
    requires Before(locs[j], locs[i])
    ensures j < i
  {
    BeforeIsStrictTotal(locs[i], locs[j]);
  }

  lemma SortedCons(x: Location, rest: seq<Location>)
    requires Sorted(rest)
    requires forall y :: y in rest ==> Before(x, y)
    ensures Sorted([x] + rest)
  {
    SortedConcat([x], rest);
  }

  lemma {:induction false} StandardFromSorted(tx: Transaction, i: nat)
    ensures Sorted(StandardFrom(tx, i))
    decreases |tx.siacoinOutputs| - i
  {
    if i < |tx.siacoinOutputs| {
      StandardFromSorted(tx, i + 1);
      forall y | y in StandardFrom(tx, i + 1) ensures Before(Standard(i), y) {
        StandardFromMembers(tx, i + 1, y);
      }
      SortedCons(Standard(i), StandardFrom(tx, i + 1));
    }
  }

  lemma {:induction false} ContractProofFromSorted(k: nat, v: bool, n: nat, j: nat)
    ensures Sorted(ContractProofFrom(k, v, n, j))
    decreases n - j
  {
    if j < n {
      ContractProofFromSorted(k, v, n, j + 1);
      forall y | y in ContractProofFrom(k, v, n, j + 1) ensures Before(ContractProof(k, v, j), y) {
        ContractProofFromMembers(k, v, n, j + 1, y);
      }
      SortedCons(ContractProof(k, v, j), ContractProofFrom(k, v, n, j + 1));
    }
  }

  lemma {:induction false} RevisionProofFromSorted(k: nat, v: bool, n: nat, j: nat)
    ensures Sorted(RevisionProofFrom(k, v, n, j))
    decreases n - j
  {
    if j < n {
      RevisionProofFromSorted(k, v, n, j + 1);
      forall y | y in RevisionProofFrom(k, v, n, j + 1) ensures Before(RevisionProof(k, v, j), y) {
        RevisionProofFromMembers(k, v, n, j + 1, y);
      }
      SortedCons(RevisionProof(k, v, j), RevisionProofFrom(k, v, n, j + 1));
    }
  }

  lemma ContractLocationsSorted(tx: Transaction, k: nat)
    requires k < |tx.fileContracts|
    ensures Sorted(ContractLocations(tx, k))
  {
    var fc := tx.fileContracts[k];
    var valid := ContractProofFrom(k, true, |fc.validProofOutputs|, 0);
    var missed := ContractProofFrom(k, false, |fc.missedProofOutputs|, 0);
    ContractProofFromSorted(k, true, |fc.validProofOutputs|, 0);
    ContractProofFromSorted(k, false, |fc.missedProofOutputs|, 0);
    forall x, y | x in valid && y in missed ensures Before(x, y) {
      ContractProofFromMembers(k, true, |fc.validProofOutputs|, 0, x);
      ContractProofFromMembers(k, false, |fc.missedProofOutputs|, 0, y);
    }
    SortedConcat(valid, missed);
  }

  lemma {:induction false} ContractsFromSorted(tx: Transaction, k: nat)
    ensures Sorted(ContractsFrom(tx, k))
    decreases |tx.fileContracts| - k
  {
    if k < |tx.fileContracts| {
      ContractLocationsSorted(tx, k);
      ContractsFromSorted(tx, k + 1);
      forall x, y | x in ContractLocations(tx, k) && y in ContractsFrom(tx, k + 1) ensures Before(x, y) {
        ContractLocationsMembers(tx, k, x);
        ContractsFromMembers(tx, k + 1, y);
      }
      SortedConcat(ContractLocations(tx, k), ContractsFrom(tx, k + 1));
    }
  }

  lemma RevisionLocationsSorted(tx: Transaction, k: nat)
    requires k < |tx.fileContractRevisions|
    ensures Sorted(RevisionLocations(tx, k))
  {
    var rev := tx.fileContractRevisions[k];
    var valid := RevisionProofFrom(k, true, |rev.newValidProofOutputs|, 0);
    var missed := RevisionProofFrom(k, false, |rev.newMissedProofOutputs|, 0);
    RevisionProofFromSorted(k, true, |rev.newValidProofOutputs|, 0);
    RevisionProofFromSorted(k, false, |rev.newMissedProofOutputs|, 0);
    forall x, y | x in valid && y in missed ensures Before(x, y) {
      RevisionProofFromMembers(k, true, |rev.newValidProofOutputs|, 0, x);
      RevisionProofFromMembers(k, false, |rev.newMissedProofOutputs|, 0, y);
    }
    SortedConcat(valid, missed);
  }

  lemma {:induction false} RevisionsFromSorted(tx: Transaction, k: nat)
    ensures Sorted(RevisionsFrom(tx, k))
    decreases |tx.fileContractRevisions| - k
  {
    if k < |tx.fileContractRevisions| {
      RevisionLocationsSorted(tx, k);
      RevisionsFromSorted(tx, k + 1);
      forall x, y | x in RevisionLocations(tx, k) && y in RevisionsFrom(tx, k + 1) ensures Before(x, y) {
        RevisionLocationsMembers(tx, k, x);
        RevisionsFromMembers(tx, k + 1, y);
      }
      SortedConcat(RevisionLocations(tx, k), RevisionsFrom(tx, k + 1));
    }
  }

  lemma OrderSorted(tx: Transaction)
    ensures Sorted(Order(tx))
  {
    StandardFromSorted(tx, 0);
    ContractsFromSorted(tx, 0);
    RevisionsFromSorted(tx, 0);
    forall x, y | x in ContractsFrom(tx, 0) && y in RevisionsFrom(tx, 0) ensures Before(x, y) {
      ContractsFromMembers(tx, 0, x);
      RevisionsFromMembers(tx, 0, y);
    }
    SortedConcat(ContractsFrom(tx, 0), RevisionsFrom(tx, 0));
    forall x, y | x in StandardFrom(tx, 0) && y in ContractsFrom(tx, 0) + RevisionsFrom(tx, 0)
      ensures Before(x, y)
    {
      StandardFromMembers(tx, 0, x);
      ContractsFromMembers(tx, 0, y);
      RevisionsFromMembers(tx, 0, y);
    }
    SortedConcat(StandardFrom(tx, 0), ContractsFrom(tx, 0) + RevisionsFrom(tx, 0));
  }

  // ----- FirstMatch over a sequence -----

  lemma {:induction false} FirstMatchSome(s: IdScheme, tx: Transaction, locs: seq<Location>, oID: Hash)
    requires FirstMatch(s, tx, locs, oID).Some?
    ensures exists i :: 0 <= i < |locs|
              && DerivedID(s, tx, locs[i]) == Some(oID)
              && OutputAt(tx, locs[i]) == FirstMatch(s, tx, locs, oID)
              && forall j :: 0 <= j < i ==> DerivedID(s, tx, locs[j]) != Some(oID)
  {
    if DerivedID(s, tx, locs[0]) != Some(oID) {
      FirstMatchSome(s, tx, locs[1..], oID);
      var i :| 0 <= i < |locs[1..]|
              && DerivedID(s, tx, locs[1..][i]) == Some(oID)
              && OutputAt(tx, locs[1..][i]) == FirstMatch(s, tx, locs[1..], oID)
              && forall j :: 0 <= j < i ==> DerivedID(s, tx, locs[1..][j]) != Some(oID);
      assert DerivedID(s, tx, locs[i + 1]) == Some(oID);
      forall j | 0 <= j < i + 1 ensures DerivedID(s, tx, locs[j]) != Some(oID) {
        if j > 0 { assert locs[j] == locs[1..][j - 1]; }
      }
    } else {
      assert 0 < |locs|;
    }
  }

  lemma {:induction false} FirstMatchNone(s: IdScheme, tx: Transaction, locs: seq<Location>, oID: Hash)
    ensures FirstMatch(s, tx, locs, oID).None? <==>
              forall l :: l in locs ==> DerivedID(s, tx, l) != Some(oID) || OutputAt(tx, l).None?
  {
    if locs != [] {
      FirstMatchNone(s, tx, locs[1..], oID);
      assert forall l :: l in locs <==> l == locs[0] || l in locs[1..];
    }
  }

  /** A derived ID exists exactly where an output does. */
  lemma DerivedIDExists(s: IdScheme, tx: Transaction, l: Location)
    ensures DerivedID(s, tx, l).Some? <==> ValidLocation(tx, l)
    ensures OutputAt(tx, l).Some? <==> ValidLocation(tx, l)
  {
  }

  // ----- the reference characterisation -----

  /** The location where the search stops is the least match. */
  lemma SearchStopsAtLeastMatch(s: IdScheme, oID: Hash, tx: Transaction)
    requires FindInTransaction(s, oID, tx).Ok?
    ensures exists loc :: LeastMatch(s, oID, tx, loc)
                          && OutputAt(tx, loc) == Some(FindInTransaction(s, oID, tx).value)
  {
    var locs := Order(tx);
    OrderSorted(tx);
    FirstMatchSome(s, tx, locs, oID);
    var i :| 0 <= i < |locs|
            && DerivedID(s, tx, locs[i]) == Some(oID)
            && OutputAt(tx, locs[i]) == FirstMatch(s, tx, locs, oID)
            && forall j :: 0 <= j < i ==> DerivedID(s, tx, locs[j]) != Some(oID);
    var loc := locs[i];
    forall l | ValidLocation(tx, l) && Before(l, loc) ensures DerivedID(s, tx, l) != Some(oID) {
      OrderMembers(tx, l);
      var j :| 0 <= j < |locs| && locs[j] == l;
      SortedBackwards(locs, i, j);
    }
    assert LeastMatch(s, oID, tx, loc);
  }

  /** Two least matches are the same location. */
  lemma LeastMatchUnique(s: IdScheme, oID: Hash, tx: Transaction, a: Location, b: Location)
    requires LeastMatch(s, oID, tx, a) && LeastMatch(s, oID, tx, b)
    ensures a == b
  {
    BeforeIsStrictTotal(a, b);
  }

  /** `findOutputTransaction` returns the output at the earliest location
      (in search order) whose derived ID is `oID`: standard outputs win over
      contract proof outputs, which win over revision proof outputs; within
      a contract or revision, valid-proof outputs win over missed-proof
      outputs. */
  lemma FindInTransactionIsLeastMatch(s: IdScheme, oID: Hash, tx: Transaction, o: SiacoinOutput)
    ensures FindInTransaction(s, oID, tx) == Ok(o) <==>
              exists loc :: LeastMatch(s, oID, tx, loc) && OutputAt(tx, loc) == Some(o)
  {
    if FindInTransaction(s, oID, tx) == Ok(o) {
      SearchStopsAtLeastMatch(s, oID, tx);
    }
    if exists loc :: LeastMatch(s, oID, tx, loc) && OutputAt(tx, loc) == Some(o) {
      var loc :| LeastMatch(s, oID, tx, loc) && OutputAt(tx, loc) == Some(o);
      OrderMembers(tx, loc);
      FirstMatchNone(s, tx, Order(tx), oID);
      SearchStopsAtLeastMatch(s, oID, tx);
      var first :| LeastMatch(s, oID, tx, first)
                   && OutputAt(tx, first) == Some(FindInTransaction(s, oID, tx).value);
      LeastMatchUnique(s, oID, tx, loc, first);
    }
  }

  /** `findOutputTransaction` fails, with "output not found in transaction",
      exactly when no location of the transaction derives `oID`. */
  lemma FindInTransactionNotFound(s: IdScheme, oID: Hash, tx: Transaction)
    ensures FindInTransaction(s, oID, tx).Err? ==> FindInTransaction(s, oID, tx).error == NotFoundInTransaction
    ensures FindInTransaction(s, oID, tx).Err? <==>
              forall loc :: ValidLocation(tx, loc) ==> DerivedID(s, tx, loc) != Some(oID)
  {
    FirstMatchNone(s, tx, Order(tx), oID);
    forall loc ensures loc in Order(tx) <==> ValidLocation(tx, loc) {
      OrderMembers(tx, loc);
    }
  }

  // ----- consequences -----

  /** Round trip: the ID derived for standard output `i`, looked up in the
      same transaction, finds that output, provided no earlier standard
      output derives the same ID (the search defends against collisions
      only by its order). */
  lemma StandardOutputRoundTrip(s: IdScheme, tx: Transaction, i: nat)
    requires i < |tx.siacoinOutputs|
    requires forall k: nat :: k < i ==> s.siacoinOutputID(tx, k) != s.siacoinOutputID(tx, i)
    ensures FindInTransaction(s, s.siacoinOutputID(tx, i), tx) == Ok(tx.siacoinOutputs[i])
  {
    var oID := s.siacoinOutputID(tx, i);
    assert LeastMatch(s, oID, tx, Standard(i));
    FindInTransactionIsLeastMatch(s, oID, tx, tx.siacoinOutputs[i]);
  }

  /** Round trip for miner payouts, under the same proviso. */
  lemma MinerPayoutRoundTrip(s: IdScheme, b: Block, i: nat)
    requires i < |b.minerPayouts|
    requires forall k: nat :: k < i ==> s.minerPayoutID(b, k) != s.minerPayoutID(b, i)
    ensures FindInBlock(s, s.minerPayoutID(b, i), b) == Ok(b.minerPayouts[i])
  {
    assert LeastPayoutMatch(s, s.minerPayoutID(b, i), b, i);
    FindInBlockCorrect(s, s.minerPayoutID(b, i), b);
  }

  /** A transaction with no standard outputs and one file contract: a
      missed-proof output is found only once the contract's valid-proof
      outputs and the earlier missed-proof outputs have all failed to
      match. */
  lemma MissedProofFoundAfterValidProofs(s: IdScheme, tx: Transaction, j: nat)
    requires |tx.siacoinOutputs| == 0 && |tx.fileContracts| == 1
    requires j < |tx.fileContracts[0].missedProofOutputs|
    requires forall k: nat :: k < |tx.fileContracts[0].validProofOutputs| ==>
               s.storageProofOutputID(s.fileContractID(tx, 0), true, k)
               != s.storageProofOutputID(s.fileContractID(tx, 0), false, j)
    requires forall k: nat :: k < j ==>
               s.storageProofOutputID(s.fileContractID(tx, 0), false, k)
               != s.storageProofOutputID(s.fileContractID(tx, 0), false, j)
    ensures FindInTransaction(s, s.storageProofOutputID(s.fileContractID(tx, 0), false, j), tx)
            == Ok(tx.fileContracts[0].missedProofOutputs[j])
  {
    var oID := s.storageProofOutputID(s.fileContractID(tx, 0), false, j);
    var loc := ContractProof(0, false, j);
    forall l | ValidLocation(tx, l) && Before(l, loc) ensures DerivedID(s, tx, l) != Some(oID) {
      assert l.ContractProof? && l.contract == 0;
    }
    assert LeastMatch(s, oID, tx, loc);
    FindInTransactionIsLeastMatch(s, oID, tx, tx.fileContracts[0].missedProofOutputs[j]);
  }

  lemma {:induction false} FirstMatchSameIDs(s: IdScheme, s': IdScheme, tx: Transaction, locs: seq<Location>, oID: Hash)
    requires forall l :: l in locs ==> DerivedID(s, tx, l) == DerivedID(s', tx, l)
    ensures FirstMatch(s, tx, locs, oID) == FirstMatch(s', tx, locs, oID)
  {
    if locs != [] {
      assert locs[0] in locs;
      assert forall l :: l in locs[1..] ==> l in locs;
      FirstMatchSameIDs(s, s', tx, locs[1..], oID);
    }
  }

  /** A revision's proof outputs are identified through the revision's
      `parentID` alone: the search over them does not depend on how the
      transaction derives its own contracts' IDs. */
  lemma RevisionSearchIgnoresContractIDs(s: IdScheme, s': IdScheme, tx: Transaction, k: nat, oID: Hash)
    requires k < |tx.fileContractRevisions|
    requires s.storageProofOutputID == s'.storageProofOutputID
    ensures FirstMatch(s, tx, RevisionLocations(tx, k), oID) == FirstMatch(s', tx, RevisionLocations(tx, k), oID)
  {
    forall l | l in RevisionLocations(tx, k) ensures DerivedID(s, tx, l) == DerivedID(s', tx, l) {
      RevisionLocationsMembers(tx, k, l);
    }
    FirstMatchSameIDs(s, s', tx, RevisionLocations(tx, k), oID);
  }

  // ----- the imperative search -----

  lemma {:induction false} FirstMatchAppend(s: IdScheme, tx: Transaction, a: seq<Location>, b: seq<Location>, oID: Hash)
    ensures FirstMatch(s, tx, a + b, oID)
            == if FirstMatch(s, tx, a, oID).Some? then FirstMatch(s, tx, a, oID) else FirstMatch(s, tx, b, oID)
  {
    if a == [] {
      assert a + b == b;
    } else {
      assert (a + b)[0] == a[0];
      assert (a + b)[1..] == a[1..] + b;
      FirstMatchAppend(s, tx, a[1..], b, oID);
    }
  }

  lemma FirstMatchSkip(s: IdScheme, tx: Transaction, x: Location, a: seq<Location>, oID: Hash)
    requires DerivedID(s, tx, x) != Some(oID)
    ensures FirstMatch(s, tx, [x] + a, oID) == FirstMatch(s, tx, a, oID)
  {
    assert ([x] + a)[1..] == a;
  }

  /** The two inner loops of `findOutputTransaction` for file contract `k`:
      its valid-proof outputs, then its missed-proof outputs, with IDs
      derived from `Transaction.FileContractID(k)`. */
  method ScanContract(s: IdScheme, oID: Hash, tx: Transaction, k: nat) returns (found: Option<SiacoinOutput>)
    requires k < |tx.fileContracts|
    ensures found == FirstMatch(s, tx, ContractLocations(tx, k), oID)
  {
    var fcid := s.fileContractID(tx, k);
    var fc := tx.fileContracts[k];
    ghost var valid := ContractProofFrom(k, true, |fc.validProofOutputs|, 0);
    ghost var missed := ContractProofFrom(k, false, |fc.missedProofOutputs|, 0);
    FirstMatchAppend(s, tx, valid, missed, oID);
    for j := 0 to |fc.validProofOutputs|
      invariant FirstMatch(s, tx, valid, oID) == FirstMatch(s, tx, ContractProofFrom(k, true, |fc.validProofOutputs|, j), oID)
    {
      if oID == s.storageProofOutputID(fcid, true, j) {
        return Some(fc.validProofOutputs[j]);
      }
      FirstMatchSkip(s, tx, ContractProof(k, true, j), ContractProofFrom(k, true, |fc.validProofOutputs|, j + 1), oID);
    }
    for j := 0 to |fc.missedProofOutputs|
      invariant FirstMatch(s, tx, missed, oID) == FirstMatch(s, tx, ContractProofFrom(k, false, |fc.missedProofOutputs|, j), oID)
    {
      if oID == s.storageProofOutputID(fcid, false, j) {
        return Some(fc.missedProofOutputs[j]);
      }
      FirstMatchSkip(s, tx, ContractProof(k, false, j), ContractProofFrom(k, false, |fc.missedProofOutputs|, j + 1), oID);
    }
    return None;
  }

  /** The two inner loops of `findOutputTransaction` for revision `k`: its
      new valid-proof outputs, then its new missed-proof outputs, with IDs
      derived from the revision's `parentID`. */
  method ScanRevision(s: IdScheme, oID: Hash, tx: Transaction, k: nat) returns (found: Option<SiacoinOutput>)
    requires k < |tx.fileContractRevisions|
    ensures found == FirstMatch(s, tx, RevisionLocations(tx, k), oID)
  {
    var revision := tx.fileContractRevisions[k];
    var fcid := revision.parentID;
    ghost var valid := RevisionProofFrom(k, true, |revision.newValidProofOutputs|, 0);
    ghost var missed := RevisionProofFrom(k, false, |revision.newMissedProofOutputs|, 0);
    FirstMatchAppend(s, tx, valid, missed, oID);
    for j := 0 to |revision.newValidProofOutputs|
      invariant FirstMatch(s, tx, valid, oID)
                == FirstMatch(s, tx, RevisionProofFrom(k, true, |revision.newValidProofOutputs|, j), oID)
    {
      if oID == s.storageProofOutputID(fcid, true, j) {
        return Some(revision.newValidProofOutputs[j]);
      }
      FirstMatchSkip(s, tx, RevisionProof(k, true, j),
                     RevisionProofFrom(k, true, |revision.newValidProofOutputs|, j + 1), oID);
    }
    for j := 0 to |revision.newMissedProofOutputs|
      invariant FirstMatch(s, tx, missed, oID)
                == FirstMatch(s, tx, RevisionProofFrom(k, false, |revision.newMissedProofOutputs|, j), oID)
    {
      if oID == s.storageProofOutputID(fcid, false, j) {
        return Some(revision.newMissedProofOutputs[j]);
      }
      FirstMatchSkip(s, tx, RevisionProof(k, false, j),
                     RevisionProofFrom(k, false, |revision.newMissedProofOutputs|, j + 1), oID);
    }
    return None;
  }

  /** The loop of `findOutputTransaction` over the file contracts, each
      scanned by `ScanContract`. */
  method ScanContracts(s: IdScheme, oID: Hash, tx: Transaction) returns (found: Option<SiacoinOutput>)
    ensures found == FirstMatch(s, tx, ContractsFrom(tx, 0), oID)
  {
    ghost var contracts := ContractsFrom(tx, 0);
    for i := 0 to |tx.fileContracts|
      invariant FirstMatch(s, tx, contracts, oID) == FirstMatch(s, tx, ContractsFrom(tx, i), oID)
    {
      FirstMatchAppend(s, tx, ContractLocations(tx, i), ContractsFrom(tx, i + 1), oID);
      found := ScanContract(s, oID, tx, i);
      if found.Some? {
        return;
      }
    }
    return None;
  }

  /** The loop of `findOutputTransaction` over the file contract revisions,
      each scanned by `ScanRevision`. */
  method ScanRevisions(s: IdScheme, oID: Hash, tx: Transaction) returns (found: Option<SiacoinOutput>)
    ensures found == FirstMatch(s, tx, RevisionsFrom(tx, 0), oID)
  {
    ghost var revisions := RevisionsFrom(tx, 0);
    for i := 0 to |tx.fileContractRevisions|
      invariant FirstMatch(s, tx, revisions, oID) == FirstMatch(s, tx, RevisionsFrom(tx, i), oID)
    {
      FirstMatchAppend(s, tx, RevisionLocations(tx, i), RevisionsFrom(tx, i + 1), oID);
      found := ScanRevision(s, oID, tx, i);
      if found.Some? {
        return;
      }
    }
    return None;
  }

  /** `findOutputTransaction`: scan the standard outputs, then each file
      contract's proof outputs, then each revision's proof outputs,
      returning the first output whose derived ID is `oID`. */
  method FindOutputTransaction(s: IdScheme, oID: Hash, tx: Transaction) returns (r: Result<SiacoinOutput>)
    ensures r == FindInTransaction(s, oID, tx)
  {
    ghost var standard := StandardFrom(tx, 0);
    ghost var contracts := ContractsFrom(tx, 0);
    ghost var revisions := RevisionsFrom(tx, 0);
    FirstMatchAppend(s, tx, standard, contracts + revisions, oID);
    FirstMatchAppend(s, tx, contracts, revisions, oID);
    for i := 0 to |tx.siacoinOutputs|
      invariant FirstMatch(s, tx, standard, oID) == FirstMatch(s, tx, StandardFrom(tx, i), oID)
    {
      if oID == s.siacoinOutputID(tx, i) {
        return Ok(tx.siacoinOutputs[i]);
      }
      FirstMatchSkip(s, tx, Standard(i), StandardFrom(tx, i + 1), oID);
    }
    var found := ScanContracts(s, oID, tx);
    if found.None? {
      found := ScanRevisions(s, oID, tx);
    }
    if found.Some? {
      return Ok(found.value);
    }
    return Err(NotFoundInTransaction);
  }
}
