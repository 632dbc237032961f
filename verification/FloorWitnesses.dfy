/** Deploy-floor witnesses: how a stream of results for one address settles into one stored verdict. */
module FloorWitnesses {
  import opened Common

  const RETRY_BASE := 600
  const RETRY_CAP := 86400
  const MAX_EXPONENT := 8

  /** `CursorConflict` is only ever read back from rows written before. */
  datatype Outcome = Proven | PriorIncarnation | Failed | CursorConflict

  /** A result as the indexer reports it. */
  datatype Finding = Finding(outcome: Outcome, block: Option<int>, seed: Option<int>, at: real)

  datatype Row = Row(outcome: Outcome, block: Option<int>, seed: Option<int>, attempts: nat, nextAttempt: Option<real>)

  /** The delay the worker computes. */
  function RetryDelay(prior: int): nat {
    Min(RETRY_BASE * Pow2(Min(Max(0, prior), MAX_EXPONENT)), RETRY_CAP)
  }

  /** The delay the upsert computes from the stored count. */
  function StoredDelay(attempts: nat): nat {
    Min(RETRY_BASE * Pow2(Min(attempts, MAX_EXPONENT)), RETRY_CAP)
  }

  predicate Retryable(o: Outcome) {
    o == Failed || o == CursorConflict
  }

  /** A proof without its block is refused. */
  predicate Refused(f: Finding) {
    f.outcome == Proven && f.block.None?
  }

  function SeedOf(f: Finding): Option<int> {
    if f.outcome == Proven && f.seed.None? then f.block else f.seed
  }

  /** The row a finding inserts for an address that has none. */
  function Inserted(f: Finding): Row {
    Row(f.outcome, if f.outcome == Proven then f.block else None, SeedOf(f), if f.outcome == Failed then 1 else 0,
        if f.outcome == Failed then Some(f.at + RetryDelay(0) as real) else None)
  }

  /** The row a finding leaves where one is stored. */
  function Updated(row: Row, f: Finding): Row {
    match f.outcome
    case Failed =>
      if Retryable(row.outcome)
      then Row(Failed, None, f.seed, row.attempts + 1, Some(f.at + StoredDelay(row.attempts) as real)) else row
    case Proven =>
      if row.outcome == PriorIncarnation && row.seed == SeedOf(f) then row else Row(Proven, f.block, SeedOf(f), 0, None)
    case _ => Row(f.outcome, None, f.seed, 0, None)
  }

  function Recorded(row: Option<Row>, f: Finding): Option<Row> {
    if Refused(f) then row else Some(if row.None? then Inserted(f) else Updated(row.value, f))
  }

  /** The row after a whole stream of findings. */
  function Final(row: Option<Row>, findings: seq<Finding>): Option<Row> {
    if findings == [] then row else Recorded(Final(row, findings[..|findings| - 1]), findings[|findings| - 1])
  }

  /** Findings the indexer can report. */
  predicate Reportable(findings: seq<Finding>) {
    forall i | 0 <= i < |findings| :: findings[i].outcome != CursorConflict
  }

  predicate Decides(f: Finding) {
    !Refused(f) && f.outcome != Failed
  }

  lemma {:induction false} CapIsReached(n: nat)
    requires n >= MAX_EXPONENT
    ensures RETRY_BASE * Pow2(n) >= RETRY_CAP
  {
    if n == MAX_EXPONENT {
      assert Pow2(8) == 2 * Pow2(7) && Pow2(7) == 2 * Pow2(6) && Pow2(6) == 2 * Pow2(5) && Pow2(5) == 2 * Pow2(4);
      assert Pow2(4) == 2 * Pow2(3) && Pow2(3) == 2 * Pow2(2) && Pow2(2) == 2 * Pow2(1) && Pow2(1) == 2;
    } else {
      CapIsReached(n - 1);
    }
  }

  /** The two delays agree for every count, and capping the exponent never changes them. */
  lemma DelaysAgree(prior: int)
    ensures RetryDelay(prior) == StoredDelay(Max(0, prior)) == Min(RETRY_BASE * Pow2(Max(0, prior)), RETRY_CAP)
  {
    if prior > MAX_EXPONENT {
      CapIsReached(prior);
      CapIsReached(MAX_EXPONENT);
    }
  }

  /** A prior incarnation was seen at `i`, and everything decided since was a proof about that very seed. */
  predicate PriorAt(findings: seq<Finding>, i: int) {
    && 0 <= i < |findings| && findings[i].outcome == PriorIncarnation
    && forall k | i < k < |findings| && Decides(findings[k]) :: findings[k].outcome == Proven
        && SeedOf(findings[k]) == SeedOf(findings[i])
  }

  /** The last finding that decided anything was this proof. */
  predicate LastProof(findings: seq<Finding>, i: int) {
    && 0 <= i < |findings| && findings[i].outcome == Proven && !Refused(findings[i])
    && forall k | i < k < |findings| :: !Decides(findings[k])
  }

  /** The row is the proof that decided last. */
  ghost predicate ProofStands(findings: seq<Finding>, row: Row) {
    exists i :: LastProof(findings, i) && row.block == findings[i].block && row.seed == SeedOf(findings[i])
  }

  ghost predicate PriorStands(findings: seq<Finding>, seed: Option<int>) {
    exists i :: PriorAt(findings, i) && SeedOf(findings[i]) == seed
  }

  ghost predicate Undecided(findings: seq<Finding>) {
    forall i | 0 <= i < |findings| :: !Decides(findings[i])
  }

  lemma PriorAfter(findings: seq<Finding>, f: Finding, seed: Option<int>)
    requires f.outcome != CursorConflict
    ensures PriorStands(findings + [f], seed) <==>
      || (f.outcome == PriorIncarnation && SeedOf(f) == seed)
      || (PriorStands(findings, seed) && (Decides(f) ==> f.outcome == Proven && SeedOf(f) == seed))
  {
    var more := findings + [f];
    var n := |findings|;
    assert more[n] == f;
    if PriorStands(more, seed) {
      var i :| PriorAt(more, i) && SeedOf(more[i]) == seed;
      if i < n {
        assert forall k | i < k < n :: more[k] == findings[k];
        assert PriorAt(findings, i) && SeedOf(findings[i]) == seed;
      }
    }
    if f.outcome == PriorIncarnation && SeedOf(f) == seed {
      assert PriorAt(more, n);
    } else if PriorStands(findings, seed) && (Decides(f) ==> f.outcome == Proven && SeedOf(f) == seed) {
      var i :| PriorAt(findings, i) && SeedOf(findings[i]) == seed;
      assert PriorAt(more, i) && SeedOf(more[i]) == seed;
    }
  }

  /** Counting the failures among the findings. */
  function Failures(findings: seq<Finding>): nat {
    if findings == [] then 0
    else Failures(findings[..|findings| - 1]) + if findings[|findings| - 1].outcome == Failed then 1 else 0
  }

  /**
   The stored row told by its history: a prior incarnation stands exactly if one was seen and nothing since
   disputed its seed; a row is undecided exactly if every finding failed, and then it counts them; any other
   row is the proof that decided last.
   */
  lemma {:induction false} HistoryDecidesRow(findings: seq<Finding>)
    requires Reportable(findings)
    ensures
      var row := Final(None, findings);
      && (forall seed :: PriorStands(findings, seed) <==>
          row.Some? && row.value.outcome == PriorIncarnation && row.value.seed == seed)
      && (Undecided(findings) <==> row.None? || row.value.outcome == Failed)
      && (Undecided(findings) ==>
          if row.None? then Failures(findings) == 0 else row.value.attempts == Failures(findings) > 0)
      && (row.Some? && row.value.outcome != Failed ==> row.value.attempts == 0 && row.value.nextAttempt.None?)
      && (row.Some? && row.value.outcome != PriorIncarnation && row.value.outcome != Failed ==>
          row.value.outcome == Proven && ProofStands(findings, row.value))
  {
    if findings != [] {
      var n := |findings| - 1;
      var before, f := findings[..n], findings[n];
      HistoryDecidesRow(before);
      assert findings == before + [f];
      UndecidedAfter(before, f);
      ProofAfter(Final(None, before), before, f);
      forall seed ensures PriorStands(findings, seed) <==>
        Final(None, findings).Some? && Final(None, findings).value.outcome == PriorIncarnation
            && Final(None, findings).value.seed == seed
      {
        PriorAfter(before, f, seed);
        RowAfter(Final(None, before), f, seed);
      }
    }
  }

  lemma ProofAfter(row: Option<Row>, findings: seq<Finding>, f: Finding)
    requires f.outcome != CursorConflict
    requires row.Some? && row.value.outcome == Proven ==> ProofStands(findings, row.value)
    ensures Recorded(row, f).Some? && Recorded(row, f).value.outcome == Proven ==>
        ProofStands(findings + [f], Recorded(row, f).value)
  {
    var more := findings + [f];
    assert more[|findings|] == f;
    if Decides(f) && f.outcome == Proven {
      assert LastProof(more, |findings|);
    } else if row.Some? && row.value.outcome == Proven && !Decides(f) {
      var i :| LastProof(findings, i) && row.value.block == findings[i].block && row.value.seed == SeedOf(findings[i]);
      assert more[i] == findings[i] && LastProof(more, i);
    }
  }

  lemma UndecidedAfter(findings: seq<Finding>, f: Finding)
    ensures Undecided(findings + [f]) <==> Undecided(findings) && !Decides(f)
  {
    var more := findings + [f];
    assert more[|findings|] == f;
    assert forall i | 0 <= i < |findings| :: more[i] == findings[i];
  }

  /** One finding's effect on a standing prior-incarnation verdict. */
  lemma RowAfter(row: Option<Row>, f: Finding, seed: Option<int>)
    requires f.outcome != CursorConflict
    ensures
      var was := row.Some? && row.value.outcome == PriorIncarnation && row.value.seed == seed;
      var stands := Recorded(row, f).Some? && Recorded(row, f).value.outcome == PriorIncarnation
          && Recorded(row, f).value.seed == seed;
      stands <==>
        || (f.outcome == PriorIncarnation && SeedOf(f) == seed)
        || (was && (Decides(f) ==> f.outcome == Proven && SeedOf(f) == seed))
  {}

  /** A stored proof is the last one reported, with its block and with the seed it named or else its block. */
  lemma ProofsNameTheirSeed(findings: seq<Finding>) returns (i: int)
    requires Reportable(findings)
    requires Final(None, findings).Some? && Final(None, findings).value.outcome == Proven
    ensures LastProof(findings, i)
    ensures
      var row, f := Final(None, findings).value, findings[i];
      row.block.Some? && row.block == f.block && row.seed == if f.seed.Some? then f.seed else f.block
  {
    HistoryDecidesRow(findings);
    var row := Final(None, findings).value;
    i :| LastProof(findings, i) && row.block == findings[i].block && row.seed == SeedOf(findings[i]);
  }

  /** A decided row is never replaced by failures, and whatever is stored then is still what decided it. */
  lemma {:induction false} FailuresKeepDecisions(row: Row, findings: seq<Finding>)
    requires !Retryable(row.outcome) && forall i | 0 <= i < |findings| :: findings[i].outcome == Failed
    ensures Final(Some(row), findings) == Some(row)
  {
    if findings != [] {
      FailuresKeepDecisions(row, findings[..|findings| - 1]);
    }
  }

  /** While a row is undecided, whatever it started from, every failure adds one to its attempts. */
  lemma {:induction false} AttemptsCountFailures(row: Row, findings: seq<Finding>)
    requires Retryable(row.outcome) && Undecided(findings)
    ensures Final(Some(row), findings).Some? && Retryable(Final(Some(row), findings).value.outcome)
    ensures Final(Some(row), findings).value.attempts == row.attempts + Failures(findings)
  {
    if findings != [] {
      var n := |findings| - 1;
      assert forall i | 0 <= i < n :: findings[..n][i] == findings[i];
      AttemptsCountFailures(row, findings[..n]);
    }
  }

  /** The latest failure. */
  predicate LastFailure(findings: seq<Finding>, i: int) {
    && 0 <= i < |findings| && findings[i].outcome == Failed
    && forall k | i < k < |findings| :: findings[k].outcome != Failed
  }

  /** An undecided row is retried when its latest failure, and the delay of the failures before that one, say so. */
  lemma {:induction false} RetryFollowsLastFailure(findings: seq<Finding>) returns (i: int)
    requires Reportable(findings) && Undecided(findings) && Final(None, findings).Some?
    ensures LastFailure(findings, i)
    ensures Failures(findings) > 0
    ensures
      var delay := Min(RETRY_BASE * Pow2(Failures(findings) - 1), RETRY_CAP);
      Final(None, findings).value.nextAttempt == Some(findings[i].at + delay as real)
  {
    var n := |findings| - 1;
    var before := findings[..n];
    assert forall k | 0 <= k < n :: before[k] == findings[k];
    HistoryDecidesRow(findings);
    HistoryDecidesRow(before);
    if findings[n].outcome == Failed {
      i := n;
      DelaysAgree(Failures(before));
    } else {
      i := RetryFollowsLastFailure(before);
      assert findings[i] == before[i];
    }
  }

  /** If all decided findings name one seed, a prior-incarnation verdict stays for good. */
  lemma {:induction false} OneSeedPriorStays(row: Row, findings: seq<Finding>)
    requires row.outcome == PriorIncarnation && Reportable(findings)
    requires forall i | 0 <= i < |findings| && Decides(findings[i]) :: SeedOf(findings[i]) == row.seed
    ensures Final(Some(row), findings).Some? && Final(Some(row), findings).value.outcome == PriorIncarnation
    ensures Final(Some(row), findings).value.seed == row.seed
  {
    if findings != [] {
      OneSeedPriorStays(row, findings[..|findings| - 1]);
    }
  }

  /** With two seeds it need not: a proof about another seed replaces it. */
  lemma OtherSeedReplacesPrior(row: Row, f: Finding)
    requires row.outcome == PriorIncarnation && f.outcome == Proven && !Refused(f)
    ensures Updated(row, f).outcome == PriorIncarnation <==> SeedOf(f) == row.seed
  {}

  /** The witness table, keyed by chain and lower-cased address. */
  class Witnesses {
    const lower: string -> string
    var rows: map<(int, string), Row>

    constructor (lower: string -> string)
      ensures rows == map[] && this.lower == lower
    {
      this.lower, rows := lower, map[];
    }

    /** Upsert one result and read back the outcome and count now stored; nothing for a proof without its block. */
    method Record(chain: int, address: string, f: Finding) returns (stored: Option<(Outcome, nat)>)
      modifies this
      ensures stored.None? <==> Refused(f)
      ensures
        var key := (chain, lower(address));
        var was := if key in old(rows) then Some(old(rows)[key]) else None;
        var stands := if key in rows then Some(rows[key]) else None;
        && stands == Recorded(was, f) && (forall k | k != key :: k in rows <==> k in old(rows))
        && (forall k | k != key && k in rows :: rows[k] == old(rows)[k])
        && (stored.Some? ==> stands.Some? && stored.value == (stands.value.outcome, stands.value.attempts))
    {
      var proven := f.outcome == Proven;
      if proven && f.block.None? {
        return None;
      }
      var seed := if proven && f.seed.None? then f.block else f.seed;
      var key := (chain, lower(address));
      if key !in rows {
        var failed := f.outcome == Failed;
        rows := rows[key := Row(f.outcome, if proven then f.block else None, seed, if failed then 1 else 0,
                                if failed then Some(f.at + RetryDelay(0) as real) else None)];
      } else {
        var row := rows[key];
        if f.outcome == Failed {
          if Retryable(row.outcome) {
            rows := rows[key := Row(Failed, None, seed, row.attempts + 1,
                Some(f.at + StoredDelay(row.attempts) as real))];
          }
        } else if !proven || !(row.outcome == PriorIncarnation && row.seed == seed) {
          rows := rows[key := Row(f.outcome, if proven then f.block else None, seed, 0, None)];
        }
      }
      return Some((rows[key].outcome, rows[key].attempts));
    }
  }
}
