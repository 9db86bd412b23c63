/** The location evaluator of `process_location_data`: for every location
    of the layout table it compares the masked bytes of the current
    snapshot with those of the previous one and decides whether the location
    is reported, and whether as fully or as partially checked. */
module Evaluator {
  import opened Wrappers
  import opened MapElements
  import opened Layout

  /** Every pair addresses a byte of `data`. */
  predicate Covers(pairs: seq<Read>, data: seq<bv8>) {
    forall i :: 0 <= i < |pairs| ==> pairs[i].addr < |data|
  }

  /** The bits of the pair's mask in the byte it addresses. */
  function Masked(data: seq<bv8>, p: Read): bv8
    requires p.addr < |data|
  {
    data[p.addr] & p.mask
  }

  /** The pair's masked byte reaches its full mask. */
  predicate Full(p: Read, data: seq<bv8>)
    requires p.addr < |data|
  {
    Masked(data, p) == p.mask
  }

  /** The pair's masked byte differs between the two snapshots. */
  predicate Differs(p: Read, current: seq<bv8>, previous: seq<bv8>)
    requires p.addr < |current| && p.addr < |previous|
  {
    Masked(current, p) != Masked(previous, p)
  }

  predicate AllChecked(pairs: seq<Read>, current: seq<bv8>)
    requires Covers(pairs, current)
  {
    forall i :: 0 <= i < |pairs| ==> Full(pairs[i], current)
  }

  predicate AnyChecked(pairs: seq<Read>, current: seq<bv8>)
    requires Covers(pairs, current)
  {
    exists i :: 0 <= i < |pairs| && Full(pairs[i], current)
  }

  predicate Changed(pairs: seq<Read>, current: seq<bv8>, previous: seq<bv8>)
    requires Covers(pairs, current) && Covers(pairs, previous)
  {
    exists i :: 0 <= i < |pairs| && Differs(pairs[i], current, previous)
  }

  /** The three accumulators of one location after its pairs are scanned. */
  datatype Outcome = Outcome(anyChecked: bool, allChecked: bool, changed: bool)

  /** The report rule: some masked byte changed and a pair reached its full
      mask (`all_locs_checked or any_locs_checked`). */
  predicate Reported(o: Outcome) {
    o.changed && (o.allChecked || o.anyChecked)
  }

  /** How a reported location's underworld icon is shown: the "disabled"
      texture when fully checked, the "todo" texture otherwise. An overworld
      icon is hidden either way. */
  datatype Mark = FullyChecked | PartiallyChecked

  function MarkOf(o: Outcome): Option<Mark> {
    if !Reported(o) then None
    else if o.allChecked then Some(FullyChecked)
    else Some(PartiallyChecked)
  }

  /** What scanning the pairs of one location yields. */
  function Evaluate(pairs: seq<Read>, current: seq<bv8>, previous: seq<bv8>): Outcome
    requires Covers(pairs, current) && Covers(pairs, previous)
  {
    Outcome(AnyChecked(pairs, current), AllChecked(pairs, current), Changed(pairs, current, previous))
  }

  /** Every location of the table, evaluated. */
  function EvaluateTable(current: seq<bv8>, previous: seq<bv8>): map<MapElementKind, Outcome>
    requires |current| >= SnapshotSize && |previous| >= SnapshotSize
  {
    TableCovers(current);
    TableCovers(previous);
    map k | k in Table :: Evaluate(Table[k], current, previous)
  }

  /** Every address of the table indexes a snapshot of full size. */
  lemma TableCovers(data: seq<bv8>)
    requires |data| >= SnapshotSize
    ensures forall k :: k in Table ==> Covers(Table[k], data)
  {
    TableWellFormed();
  }

  // The accumulators of the scan as folds over the first `n` pairs.

  predicate AllFullUpTo(pairs: seq<Read>, n: nat, data: seq<bv8>)
    requires n <= |pairs| && Covers(pairs, data)
  {
    n == 0 || (AllFullUpTo(pairs, n - 1, data) && Full(pairs[n - 1], data))
  }

  predicate AnyFullUpTo(pairs: seq<Read>, n: nat, data: seq<bv8>)
    requires n <= |pairs| && Covers(pairs, data)
  {
    n > 0 && (AnyFullUpTo(pairs, n - 1, data) || Full(pairs[n - 1], data))
  }

  predicate AnyDiffersUpTo(pairs: seq<Read>, n: nat, current: seq<bv8>, previous: seq<bv8>)
    requires n <= |pairs| && Covers(pairs, current) && Covers(pairs, previous)
  {
    n > 0 && (AnyDiffersUpTo(pairs, n - 1, current, previous) || Differs(pairs[n - 1], current, previous))
  }

  /** The folds agree with the quantified definitions on every prefix. */
  lemma {:induction false} FoldsMatchDefinitions(pairs: seq<Read>, n: nat, current: seq<bv8>, previous: seq<bv8>)
    requires n <= |pairs| && Covers(pairs, current) && Covers(pairs, previous)
    ensures AllFullUpTo(pairs, n, current) <==> forall j :: 0 <= j < n ==> Full(pairs[j], current)
    ensures AnyFullUpTo(pairs, n, current) <==> exists j :: 0 <= j < n && Full(pairs[j], current)
    ensures AnyDiffersUpTo(pairs, n, current, previous) <==> exists j :: 0 <= j < n && Differs(pairs[j], current, previous)
  {
    if n > 0 {
      FoldsMatchDefinitions(pairs, n - 1, current, previous);
    }
  }

  /** The inner loop of `process_location_data`: the three accumulators
      start at `all = true`, `any = false`, `changed = false` and are
      updated pair by pair. */
  method EvaluateLocation(pairs: seq<Read>, current: seq<bv8>, previous: seq<bv8>) returns (o: Outcome)
    requires Covers(pairs, current) && Covers(pairs, previous)
    ensures o == Evaluate(pairs, current, previous)
  {
    var allLocsChecked := true;
    var anyLocsChecked := false;
    var wasAnyChange := false;
    for i := 0 to |pairs|
      invariant allLocsChecked == AllFullUpTo(pairs, i, current)
      invariant anyLocsChecked == AnyFullUpTo(pairs, i, current)
      invariant wasAnyChange == AnyDiffersUpTo(pairs, i, current, previous)
    {
      var mask := pairs[i].mask;
      var newValue := Masked(current, pairs[i]);
      var oldValue := Masked(previous, pairs[i]);
      wasAnyChange := wasAnyChange || newValue != oldValue;
      anyLocsChecked := anyLocsChecked || newValue == mask;
      allLocsChecked := allLocsChecked && newValue == mask;
    }
    FoldsMatchDefinitions(pairs, |pairs|, current, previous);
    o := Outcome(anyLocsChecked, allLocsChecked, wasAnyChange);
  }

  /** The outer loop of `process_location_data`, over the table's entries in
      whatever order the table yields them. */
  method EvaluateLocations(current: seq<bv8>, previous: seq<bv8>) returns (outcomes: map<MapElementKind, Outcome>)
    requires |current| >= SnapshotSize && |previous| >= SnapshotSize
    ensures outcomes == EvaluateTable(current, previous)
  {
    TableCovers(current);
    TableCovers(previous);
    outcomes := map[];
    var remaining := Table.Keys;
    while remaining != {}
      invariant remaining <= Table.Keys
      invariant outcomes.Keys == Table.Keys - remaining
      invariant forall k :: k in outcomes ==> outcomes[k] == Evaluate(Table[k], current, previous)
      decreases remaining
    {
      var loc :| loc in remaining;
      var o := EvaluateLocation(Table[loc], current, previous);
      outcomes := outcomes[loc := o];
      remaining := remaining - {loc};
    }
  }

  // ---- Properties of the report rule ----

  /** For a location with at least one pair, "all checked" implies "any
      checked". */
  lemma AllImpliesAny(pairs: seq<Read>, current: seq<bv8>)
    requires |pairs| > 0 && Covers(pairs, current)
    ensures AllChecked(pairs, current) ==> AnyChecked(pairs, current)
  {
    if AllChecked(pairs, current) {
      assert Full(pairs[0], current);
    }
  }

  /** A location is reported exactly when some masked byte changed and some
      pair reaches its full mask; the `all_locs_checked` disjunct of the
      rule never decides anything. */
  lemma ReportedIffChangedAndAny(pairs: seq<Read>, current: seq<bv8>, previous: seq<bv8>)
    requires Covers(pairs, current) && Covers(pairs, previous)
    ensures Reported(Evaluate(pairs, current, previous))
        <==> Changed(pairs, current, previous) && AnyChecked(pairs, current)
  {
    if Changed(pairs, current, previous) {
      AllImpliesAny(pairs, current);
    }
  }

  /** A reported location is shown fully checked exactly when every pair
      reaches its full mask, and partially checked otherwise. */
  lemma MarkChoice(pairs: seq<Read>, current: seq<bv8>, previous: seq<bv8>)
    requires Covers(pairs, current) && Covers(pairs, previous)
    ensures MarkOf(Evaluate(pairs, current, previous)) == Some(FullyChecked)
        <==> Changed(pairs, current, previous) && |pairs| > 0 && AllChecked(pairs, current)
    ensures MarkOf(Evaluate(pairs, current, previous)) == Some(PartiallyChecked)
        <==> Changed(pairs, current, previous) && AnyChecked(pairs, current) && !AllChecked(pairs, current)
  {
    ReportedIffChangedAndAny(pairs, current, previous);
    if |pairs| > 0 {
      AllImpliesAny(pairs, current);
    }
  }

  /** Comparing a snapshot with itself reports no location. */
  lemma SelfDiffReportsNothing(data: seq<bv8>)
    requires |data| >= SnapshotSize
    ensures forall k :: k in EvaluateTable(data, data) ==> !Reported(EvaluateTable(data, data)[k])
  {
  }

  /** A snapshot of zero bytes, the baseline of the first evaluation. */
  function Zeros(n: nat): (z: seq<bv8>)
    ensures |z| == n && forall i :: 0 <= i < n ==> z[i] == 0
  {
    seq(n, _ => 0)
  }

  /** Against the all-zero baseline, a location with non-zero masks is
      reported exactly when some pair reaches its full mask: the first
      evaluation reports every location already checked in the game. */
  lemma BaselineReportsChecked(pairs: seq<Read>, current: seq<bv8>)
    requires Covers(pairs, current)
    requires forall i :: 0 <= i < |pairs| ==> pairs[i].mask != 0
    ensures Covers(pairs, Zeros(|current|))
    ensures Reported(Evaluate(pairs, current, Zeros(|current|))) <==> AnyChecked(pairs, current)
  {
    var z := Zeros(|current|);
    ReportedIffChangedAndAny(pairs, current, z);
    if AnyChecked(pairs, current) {
      var i :| 0 <= i < |pairs| && Full(pairs[i], current);
      assert z[pairs[i].addr] & pairs[i].mask == 0;
      assert Differs(pairs[i], current, z);
    }
  }

  /** The first evaluation of the whole table reports exactly the locations
      that have some pair at its full mask in the snapshot. */
  lemma BaselineTable(current: seq<bv8>)
    requires |current| >= SnapshotSize
    ensures forall k :: k in EvaluateTable(current, Zeros(|current|)) ==>
      var o := EvaluateTable(current, Zeros(|current|))[k];
      Reported(o) <==> o.anyChecked
  {
    TableCovers(current);
    TableWellFormed();
    forall k | k in Table
      ensures Reported(EvaluateTable(current, Zeros(|current|))[k]) <==> AnyChecked(Table[k], current)
    {
      BaselineReportsChecked(Table[k], current);
    }
  }

  /** A single-pair location whose bits become fully set is reported fully
      checked. */
  lemma SinglePairBecomesChecked(p: Read, current: seq<bv8>, previous: seq<bv8>)
    requires p.addr < |current| && p.addr < |previous|
    requires Full(p, current) && !Full(p, previous)
    ensures MarkOf(Evaluate([p], current, previous)) == Some(FullyChecked)
  {
    assert Differs([p][0], current, previous);
    assert Full([p][0], current);
  }

  /** The hookshot location: byte 0x078 going from 0x00 to 0xF0 reports it
      fully checked. */
  lemma HookshotScenario(current: seq<bv8>, previous: seq<bv8>)
    requires |current| >= SnapshotSize && |previous| >= SnapshotSize
    requires previous[0x078] == 0x00 && current[0x078] == 0xF0
    ensures MarkOf(EvaluateTable(current, previous)[HOOKSHOT]) == Some(FullyChecked)
  {
    SinglePairBecomesChecked(Read(0x078, 0xF0), current, previous);
  }

  /** Sahasrahla: only the second of its two pairs at full mask, with a
      change, is reported as partially checked. */
  lemma SahaScenario(current: seq<bv8>, previous: seq<bv8>)
    requires |current| >= SnapshotSize && |previous| >= SnapshotSize
    requires current[0x20A] & 0x70 != 0x70 && current[0x410] & 0x10 == 0x10
    requires previous[0x410] & 0x10 == 0
    ensures MarkOf(EvaluateTable(current, previous)[SAHA]) == Some(PartiallyChecked)
  {
    var pairs := [Read(0x20A, 0x70), Read(0x410, 0x10)];
    assert Differs(pairs[1], current, previous);
    assert Full(pairs[1], current);
    assert !Full(pairs[0], current);
  }
}
