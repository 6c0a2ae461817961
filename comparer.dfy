/** The reconciliation engine (comparer.py): both vendor lists are indexed by record
    id, the ids are split into shared, Excel-only and QuickBooks-only, shared ids are
    counted as matches or reported as mismatches, one-sided vendors are collected, and
    the report is shaped into the JSON document that is written out. */
module Comparer {
  import opened Wrappers
  import opened Models
  import opened Json

  // ------------------------------------------------------------------ indexing

  /** The record ids occurring in `vs`. */
  function Ids(vs: seq<Vendor>): set<string> {
    set v | v in vs :: v.recordId
  }

  /** The record ids of `vs`, position by position. */
  function IdSeq(vs: seq<Vendor>): (ids: seq<string>)
    ensures |ids| == |vs| && forall i :: 0 <= i < |vs| ==> ids[i] == vs[i].recordId
  {
    seq(|vs|, i requires 0 <= i < |vs| => vs[i].recordId)
  }

  predicate DistinctIds(vs: seq<Vendor>) {
    forall i, j :: 0 <= i < j < |vs| ==> vs[i].recordId != vs[j].recordId
  }

  predicate Distinct(ks: seq<string>) {
    forall i, j :: 0 <= i < j < |ks| ==> ks[i] != ks[j]
  }

  /** `{v.record_id: v for v in vs}`: a later record replaces an earlier one with the same id. */
  function IndexById(vs: seq<Vendor>): (m: map<string, Vendor>)
    ensures m.Keys == Ids(vs)
    ensures forall id :: id in m ==> m[id].recordId == id && m[id] in vs
  {
    if vs == [] then map[]
    else
      var init, v := vs[..|vs| - 1], vs[|vs| - 1];
      assert vs == init + [v];
      assert Ids(vs) == Ids(init) + {v.recordId};
      IndexById(init)[v.recordId := v]
  }

  /** The keys of `IndexById(vs)` in dict order: each id where it first occurs. */
  function IndexKeys(vs: seq<Vendor>): (ks: seq<string>)
    ensures (set k | k in ks) == Ids(vs)
    ensures Distinct(ks)
  {
    if vs == [] then []
    else
      var init, v := vs[..|vs| - 1], vs[|vs| - 1];
      assert vs == init + [v];
      assert Ids(vs) == Ids(init) + {v.recordId};
      var ks := IndexKeys(init);
      if v.recordId in ks then ks else ks + [v.recordId]
  }

  /** On duplicate ids the last record wins. */
  lemma {:induction false} IndexLastWins(vs: seq<Vendor>, i: nat)
    requires i < |vs|
    requires forall j :: i < j < |vs| ==> vs[j].recordId != vs[i].recordId
    ensures IndexById(vs)[vs[i].recordId] == vs[i]
    decreases |vs|
  {
    if i < |vs| - 1 {
      IndexLastWins(vs[..|vs| - 1], i);
    }
  }

  /** Keys follow first occurrence: the keys of the index of the first `n` records are
      a prefix of the keys of the whole index. */
  lemma {:induction false} IndexKeysFollowFirstOccurrence(vs: seq<Vendor>, n: nat)
    requires n <= |vs|
    ensures IndexKeys(vs[..n]) <= IndexKeys(vs)
    decreases |vs|
  {
    if n < |vs| {
      var init := vs[..|vs| - 1];
      assert init[..n] == vs[..n];
      IndexKeysFollowFirstOccurrence(init, n);
    } else {
      assert vs[..n] == vs;
    }
  }

  /** With unique ids the index keeps every record, and its keys are the ids in input order. */
  lemma DistinctIndex(vs: seq<Vendor>)
    requires DistinctIds(vs)
    ensures IndexKeys(vs) == IdSeq(vs)
    ensures forall i :: 0 <= i < |vs| ==> IndexById(vs)[vs[i].recordId] == vs[i]
  {
    DistinctIndexKeys(vs);
    forall i | 0 <= i < |vs|
      ensures IndexById(vs)[vs[i].recordId] == vs[i]
    {
      IndexLastWins(vs, i);
    }
  }

  lemma {:induction false} DistinctIndexKeys(vs: seq<Vendor>)
    requires DistinctIds(vs)
    ensures IndexKeys(vs) == IdSeq(vs)
    decreases |vs|
  {
    if vs != [] {
      var init, v := vs[..|vs| - 1], vs[|vs| - 1];
      assert DistinctIds(init);
      DistinctIndexKeys(init);
      var ks := IdSeq(init);
      assert v.recordId !in ks by {
        forall j | 0 <= j < |ks| ensures ks[j] != v.recordId {
          assert ks[j] == vs[j].recordId;
        }
      }
      assert IdSeq(vs) == ks + [v.recordId];
    }
  }

  lemma {:induction false} DistinctIdsCount(vs: seq<Vendor>)
    requires DistinctIds(vs)
    ensures |Ids(vs)| == |vs|
    decreases |vs|
  {
    if vs != [] {
      var init, v := vs[..|vs| - 1], vs[|vs| - 1];
      DistinctIdsCount(init);
      assert vs == init + [v];
      assert Ids(vs) == Ids(init) + {v.recordId};
    }
  }

  // ----------------------------------------------------------- the three groups

  function SharedIds(e: map<string, Vendor>, q: map<string, Vendor>): set<string> {
    e.Keys * q.Keys
  }

  /** The ids of `ids` on both sides whose names are equal. */
  function SameIn(ids: set<string>, e: map<string, Vendor>, q: map<string, Vendor>): set<string> {
    set id | id in ids && id in e && id in q && e[id].name == q[id].name
  }

  /** The ids of `ids` on both sides whose names differ. */
  function DifferIn(ids: set<string>, e: map<string, Vendor>, q: map<string, Vendor>): set<string> {
    set id | id in ids && id in e && id in q && e[id].name != q[id].name
  }

  function MismatchConflict(id: string, e: map<string, Vendor>, q: map<string, Vendor>): Conflict
    requires id in e && id in q
  {
    Conflict(id, Some(e[id].name), Some(q[id].name), DataMismatch)
  }

  /** Every shared id is either counted as a match or reported as a mismatch: never
      both, never neither. Names are compared exactly, with no normalisation. */
  lemma SharedIdsPartition(e: map<string, Vendor>, q: map<string, Vendor>)
    ensures SameIn(SharedIds(e, q), e, q) !! DifferIn(SharedIds(e, q), e, q)
    ensures SameIn(SharedIds(e, q), e, q) + DifferIn(SharedIds(e, q), e, q) == SharedIds(e, q)
    ensures |SameIn(SharedIds(e, q), e, q)| + |DifferIn(SharedIds(e, q), e, q)| == |SharedIds(e, q)|
  {
    var s := SharedIds(e, q);
    assert SameIn(s, e, q) + DifferIn(s, e, q) == s;
  }

  function ConflictIds(cs: seq<Conflict>): set<string> {
    set c | c in cs :: c.recordId
  }

  /** `cs` reports each shared id whose names differ exactly once, as a data_mismatch
      conflict carrying both names; the order is any order of the shared-id set. */
  predicate IsMismatchBlock(cs: seq<Conflict>, e: map<string, Vendor>, q: map<string, Vendor>) {
    IsMismatchBlockOf(cs, DifferIn(SharedIds(e, q), e, q), e, q)
  }

  /** The vendors of `idx`, in `keys` order, whose id is not a key of `other`. */
  function OnlyIn(keys: seq<string>, idx: map<string, Vendor>, other: map<string, Vendor>): seq<Vendor>
    requires forall k :: k in keys ==> k in idx
  {
    if keys == [] then []
    else
      var init, k := keys[..|keys| - 1], keys[|keys| - 1];
      OnlyIn(init, idx, other) + (if k in other then [] else [idx[k]])
  }

  function MissingConflict(v: Vendor): Conflict {
    Conflict(v.recordId, None, Some(v.name), MissingInExcel)
  }

  /** One missing_in_excel conflict per vendor, in order. */
  function MissingConflicts(vs: seq<Vendor>): seq<Conflict> {
    if vs == [] then [] else MissingConflicts(vs[..|vs| - 1]) + [MissingConflict(vs[|vs| - 1])]
  }

  lemma {:induction false} MissingConflictsAt(vs: seq<Vendor>, i: nat)
    requires i < |vs|
    ensures |MissingConflicts(vs)| == |vs| && MissingConflicts(vs)[i] == MissingConflict(vs[i])
    decreases |vs|
  {
    var init := vs[..|vs| - 1];
    MissingConflictsLength(init);
    if i < |vs| - 1 {
      MissingConflictsAt(init, i);
    }
  }

  lemma {:induction false} MissingConflictsLength(vs: seq<Vendor>)
    ensures |MissingConflicts(vs)| == |vs|
    decreases |vs|
  {
    if vs != [] {
      MissingConflictsLength(vs[..|vs| - 1]);
    }
  }

  /** What a one-sided list holds: vendors of `idx` whose ids are the keys absent from
      `other`, each once, each the record the index holds for its id. */
  lemma OnlyInContents(keys: seq<string>, idx: map<string, Vendor>, other: map<string, Vendor>)
    requires forall k :: k in keys ==> k in idx
    requires forall k :: k in idx ==> idx[k].recordId == k
    requires Distinct(keys)
    ensures var r := OnlyIn(keys, idx, other);
      && Ids(r) == (set k | k in keys) - other.Keys
      && DistinctIds(r)
      && (forall i :: 0 <= i < |r| ==> r[i].recordId in idx && r[i] == idx[r[i].recordId])
  {
    OnlyInIds(keys, idx, other);
    OnlyInDistinct(keys, idx, other);
  }

  lemma OnlyInIds(keys: seq<string>, idx: map<string, Vendor>, other: map<string, Vendor>)
    requires forall k :: k in keys ==> k in idx
    requires forall k :: k in idx ==> idx[k].recordId == k
    ensures Ids(OnlyIn(keys, idx, other)) == (set k | k in keys) - other.Keys
    ensures forall v :: v in OnlyIn(keys, idx, other) ==> v.recordId in idx && v == idx[v.recordId]
  {
    OnlyInIdSet(keys, idx, other);
    OnlyInRecords(keys, idx, other);
  }

  lemma {:induction false} OnlyInIdSet(keys: seq<string>, idx: map<string, Vendor>, other: map<string, Vendor>)
    requires forall k :: k in keys ==> k in idx
    requires forall k :: k in idx ==> idx[k].recordId == k
    ensures Ids(OnlyIn(keys, idx, other)) == (set k | k in keys) - other.Keys
    decreases |keys|
  {
    if keys != [] {
      var init, k := keys[..|keys| - 1], keys[|keys| - 1];
      OnlyInIdSet(init, idx, other);
      assert keys == init + [k];
      assert (set x | x in keys) == (set x | x in init) + {k};
      var r0 := OnlyIn(init, idx, other);
      if k !in other {
        assert OnlyIn(keys, idx, other) == r0 + [idx[k]];
        IdsSnoc(r0, idx[k]);
      } else {
        assert OnlyIn(keys, idx, other) == r0;
      }
    }
  }

  lemma IdsSnoc(vs: seq<Vendor>, v: Vendor)
    ensures Ids(vs + [v]) == Ids(vs) + {v.recordId}
  {
    assert forall w :: w in vs + [v] <==> w in vs || w == v;
  }

  lemma {:induction false} OnlyInRecords(keys: seq<string>, idx: map<string, Vendor>, other: map<string, Vendor>)
    requires forall k :: k in keys ==> k in idx
    requires forall k :: k in idx ==> idx[k].recordId == k
    ensures forall v :: v in OnlyIn(keys, idx, other) ==> v.recordId in idx && v == idx[v.recordId]
    decreases |keys|
  {
    if keys != [] {
      var init, k := keys[..|keys| - 1], keys[|keys| - 1];
      OnlyInRecords(init, idx, other);
    }
  }

  lemma {:induction false} OnlyInDistinct(keys: seq<string>, idx: map<string, Vendor>, other: map<string, Vendor>)
    requires forall k :: k in keys ==> k in idx
    requires forall k :: k in idx ==> idx[k].recordId == k
    requires Distinct(keys)
    ensures DistinctIds(OnlyIn(keys, idx, other))
    decreases |keys|
  {
    if keys != [] {
      var init, k := keys[..|keys| - 1], keys[|keys| - 1];
      assert Distinct(init);
      OnlyInDistinct(init, idx, other);
      OnlyInIds(init, idx, other);
      var r0 := OnlyIn(init, idx, other);
      if k !in other {
        assert k !in (set x | x in init);
        assert k !in Ids(r0);
        var r := r0 + [idx[k]];
        forall i, j | 0 <= i < j < |r| ensures r[i].recordId != r[j].recordId {
          if j == |r0| {
            assert r[i] in r0;
          }
        }
      }
    }
  }

  /** `excel_only` (and likewise `qb_only`) has one vendor per id present on its own side
      only: its length is the size of that id difference. */
  lemma OnlyInCount(vs: seq<Vendor>, other: map<string, Vendor>)
    ensures var r := OnlyIn(IndexKeys(vs), IndexById(vs), other);
      Ids(r) == Ids(vs) - other.Keys && |r| == |Ids(vs) - other.Keys|
  {
    var r := OnlyIn(IndexKeys(vs), IndexById(vs), other);
    OnlyInContents(IndexKeys(vs), IndexById(vs), other);
    DistinctIdsCount(r);
  }

  // ------------------------------------------------------------------ the engine

  /** `report` is a comparison of the two lists: the match count, a mismatch block in one
      order of the shared ids, then the one-sided lists in key order with one missing_in_excel
      conflict per QuickBooks-only vendor; every conflict is about a QuickBooks id and has
      the shape of its reason. */
  predicate IsComparisonOf(excelTerms: seq<Vendor>, qbTerms: seq<Vendor>, report: ComparisonReport) {
    var e := IndexById(excelTerms);
    var q := IndexById(qbTerms);
    var k := |DifferIn(SharedIds(e, q), e, q)|;
    && report.sameVendors == |SameIn(SharedIds(e, q), e, q)|
    && report.sameVendors + k == |SharedIds(e, q)|
    && report.excelOnly == OnlyIn(IndexKeys(excelTerms), e, q)
    && report.qbOnly == OnlyIn(IndexKeys(qbTerms), q, e)
    && |report.conflicts| == k + |report.qbOnly|
    && IsMismatchBlock(report.conflicts[..k], e, q)
    && report.conflicts[k..] == MissingConflicts(report.qbOnly)
    && (forall i :: 0 <= i < |report.conflicts| ==>
          report.conflicts[i].recordId in q && WellFormedConflict(report.conflicts[i]))
  }

  /** `compare_vendor_terms` up to the JSON document: the shared ids are visited in an
      arbitrary order (Python set order), then Excel ids, then QuickBooks ids, each in
      dict order. */
  method CompareVendorTerms(excelTerms: seq<Vendor>, qbTerms: seq<Vendor>) returns (report: ComparisonReport)
    ensures IsComparisonOf(excelTerms, qbTerms, report)
  {
    var e := IndexById(excelTerms);
    var q := IndexById(qbTerms);
    report := NewReport();
    // 1) shared ids: a match or a data_mismatch conflict
    var same, mismatches := CompareShared(e, q);
    report := report.(sameVendors := same, conflicts := mismatches);
    // 2) Excel only: collected, no conflict
    var excelOnly := CollectExcelOnly(IndexKeys(excelTerms), e, q);
    report := report.(excelOnly := excelOnly);
    // 3) QuickBooks only: collected, each with a missing_in_excel conflict
    var qbOnly, missing := CollectQbOnly(IndexKeys(qbTerms), q, e);
    report := report.(qbOnly := qbOnly, conflicts := report.conflicts + missing);
    MismatchBlockComplete(mismatches, e, q);
    SharedIdsPartition(e, q);
    ConflictsWellFormed(mismatches, qbOnly, IndexKeys(qbTerms), e, q);
    MissingConflictsLength(qbOnly);
    assert report.conflicts[..|mismatches|] == mismatches;
  }

  /** The shared-id loop: each id on both sides adds one to the match count when the names
      are equal and one data_mismatch conflict when they differ. */
  method CompareShared(e: map<string, Vendor>, q: map<string, Vendor>) returns (same: int, mismatches: seq<Conflict>)
    ensures same == |SameIn(SharedIds(e, q), e, q)|
    ensures IsMismatchBlock(mismatches, e, q)
  {
    same, mismatches := 0, [];
    var shared := e.Keys * q.Keys;
    var remaining := shared;
    while remaining != {}
      invariant remaining <= shared
      invariant same == |SameIn(shared - remaining, e, q)|
      invariant IsMismatchBlockOf(mismatches, DifferIn(shared - remaining, e, q), e, q)
      decreases |remaining|
    {
      var rid :| rid in remaining;
      var ev, qv := e[rid], q[rid];
      SharedStep(shared, remaining, rid, e, q);
      if ev.name == qv.name {
        same := same + 1;
      } else {
        MismatchStep(mismatches, DifferIn(shared - remaining, e, q), rid, e, q);
        mismatches := mismatches + [Conflict(rid, Some(ev.name), Some(qv.name), DataMismatch)];
      }
      remaining := remaining - {rid};
    }
    assert shared - remaining == SharedIds(e, q);
  }

  /** The Excel-only loop: the vendors of `e`, in key order, whose id `q` lacks. */
  method CollectExcelOnly(keys: seq<string>, e: map<string, Vendor>, q: map<string, Vendor>) returns (excelOnly: seq<Vendor>)
    requires forall k :: k in keys ==> k in e
    ensures excelOnly == OnlyIn(keys, e, q)
  {
    excelOnly := [];
    for i := 0 to |keys|
      invariant excelOnly == OnlyIn(keys[..i], e, q)
    {
      var rid := keys[i];
      OnlyInStep(keys, i, e, q);
      if rid !in q {
        excelOnly := excelOnly + [e[rid]];
      }
    }
    assert keys[..|keys|] == keys;
  }

  /** The QuickBooks-only loop: the vendors of `q`, in key order, whose id `e` lacks, and
      one missing_in_excel conflict for each of them. */
  method CollectQbOnly(keys: seq<string>, q: map<string, Vendor>, e: map<string, Vendor>)
    returns (qbOnly: seq<Vendor>, missing: seq<Conflict>)
    requires forall k :: k in keys ==> k in q
    requires forall k :: k in q ==> q[k].recordId == k
    ensures qbOnly == OnlyIn(keys, q, e)
    ensures missing == MissingConflicts(qbOnly)
  {
    qbOnly, missing := [], [];
    for i := 0 to |keys|
      invariant qbOnly == OnlyIn(keys[..i], q, e)
      invariant missing == MissingConflicts(qbOnly)
    {
      var rid := keys[i];
      OnlyInStep(keys, i, q, e);
      if rid !in e {
        var v := q[rid];
        MissingConflictsStep(qbOnly, v);
        qbOnly := qbOnly + [v];
        missing := missing + [Conflict(rid, None, Some(v.name), MissingInExcel)];
      }
    }
    assert keys[..|keys|] == keys;
  }

  /** One more key extends the one-sided list by that key's vendor when `other` lacks it. */
  lemma OnlyInStep(keys: seq<string>, i: nat, idx: map<string, Vendor>, other: map<string, Vendor>)
    requires i < |keys| && forall k :: k in keys ==> k in idx
    ensures forall k :: k in keys[..i + 1] ==> k in idx
    ensures OnlyIn(keys[..i + 1], idx, other)
         == OnlyIn(keys[..i], idx, other) + (if keys[i] in other then [] else [idx[keys[i]]])
  {
    assert keys[..i + 1][..i] == keys[..i];
  }

  lemma MissingConflictsStep(vs: seq<Vendor>, v: Vendor)
    ensures MissingConflicts(vs + [v]) == MissingConflicts(vs) + [MissingConflict(v)]
  {
    assert (vs + [v])[..|vs|] == vs;
  }

  /** The invariant of the shared-id loop: the conflicts so far report each id of `differ`
      once, as a data_mismatch conflict with both names, and those names differ. */
  predicate IsMismatchBlockOf(cs: seq<Conflict>, differ: set<string>, e: map<string, Vendor>, q: map<string, Vendor>) {
    && ConflictIds(cs) == differ
    && |cs| == |differ|
    && (forall i, j :: 0 <= i < j < |cs| ==> cs[i].recordId != cs[j].recordId)
    && (forall i :: 0 <= i < |cs| ==>
          cs[i].recordId in e && cs[i].recordId in q && cs[i] == MismatchConflict(cs[i].recordId, e, q)
          && e[cs[i].recordId].name != q[cs[i].recordId].name)
  }

  /** Visiting one more shared id adds it to exactly one of the two groups. */
  lemma SharedStep(shared: set<string>, remaining: set<string>, rid: string, e: map<string, Vendor>, q: map<string, Vendor>)
    requires remaining <= shared && rid in remaining && shared == e.Keys * q.Keys
    ensures var done := shared - remaining;
      var next := shared - (remaining - {rid});
      && rid in e && rid in q
      && SameIn(next, e, q) == SameIn(done, e, q) + (if e[rid].name == q[rid].name then {rid} else {})
      && DifferIn(next, e, q) == DifferIn(done, e, q) + (if e[rid].name == q[rid].name then {} else {rid})
      && rid !in SameIn(done, e, q) && rid !in DifferIn(done, e, q)
      && |SameIn(next, e, q)| == |SameIn(done, e, q)| + (if e[rid].name == q[rid].name then 1 else 0)
  {
    var done := shared - remaining;
    assert shared - (remaining - {rid}) == done + {rid};
    SameInAdd(done, rid, e, q);
    DifferInAdd(done, rid, e, q);
  }

  lemma SameInAdd(ids: set<string>, rid: string, e: map<string, Vendor>, q: map<string, Vendor>)
    requires rid in e && rid in q && rid !in ids
    ensures SameIn(ids + {rid}, e, q) == SameIn(ids, e, q) + (if e[rid].name == q[rid].name then {rid} else {})
    ensures rid !in SameIn(ids, e, q)
  {
  }

  lemma DifferInAdd(ids: set<string>, rid: string, e: map<string, Vendor>, q: map<string, Vendor>)
    requires rid in e && rid in q && rid !in ids
    ensures DifferIn(ids + {rid}, e, q) == DifferIn(ids, e, q) + (if e[rid].name == q[rid].name then {} else {rid})
    ensures rid !in DifferIn(ids, e, q)
  {
  }

  /** Appending the mismatch conflict of a new differing id keeps the loop invariant. */
  lemma MismatchStep(cs: seq<Conflict>, differ: set<string>, rid: string, e: map<string, Vendor>, q: map<string, Vendor>)
    requires IsMismatchBlockOf(cs, differ, e, q)
    requires rid !in differ && rid in e && rid in q && e[rid].name != q[rid].name
    ensures IsMismatchBlockOf(cs + [MismatchConflict(rid, e, q)], differ + {rid}, e, q)
  {
    var c := MismatchConflict(rid, e, q);
    var cs' := cs + [c];
    assert ConflictIds(cs') == ConflictIds(cs) + {rid};
    forall i, j | 0 <= i < j < |cs'| ensures cs'[i].recordId != cs'[j].recordId {
      if j == |cs| {
        assert cs'[i] in cs;
      }
    }
  }

  /** Every conflict of the mismatch block is about a QuickBooks id and carries two
      unequal names. */
  lemma MismatchBlockComplete(cs: seq<Conflict>, e: map<string, Vendor>, q: map<string, Vendor>)
    requires IsMismatchBlock(cs, e, q)
    ensures forall i :: 0 <= i < |cs| ==> cs[i].recordId in q && WellFormedConflict(cs[i])
  {
  }

  /** Every conflict of the report is about a QuickBooks id and has the shape of its reason. */
  lemma ConflictsWellFormed(mismatches: seq<Conflict>, qbOnly: seq<Vendor>, qbKeys: seq<string>, e: map<string, Vendor>, q: map<string, Vendor>)
    requires forall i :: 0 <= i < |mismatches| ==> mismatches[i].recordId in q && WellFormedConflict(mismatches[i])
    requires forall k :: k in qbKeys ==> k in q
    requires forall k :: k in q ==> q[k].recordId == k
    requires qbOnly == OnlyIn(qbKeys, q, e)
    ensures var cs := mismatches + MissingConflicts(qbOnly);
      forall i :: 0 <= i < |cs| ==> cs[i].recordId in q && WellFormedConflict(cs[i])
  {
    var cs := mismatches + MissingConflicts(qbOnly);
    OnlyInRecords(qbKeys, q, e);
    MissingConflictsLength(qbOnly);
    forall i | 0 <= i < |cs|
      ensures cs[i].recordId in q && WellFormedConflict(cs[i])
    {
      if i >= |mismatches| {
        MissingWellFormed(qbOnly, q, i - |mismatches|);
        assert cs[i] == MissingConflicts(qbOnly)[i - |mismatches|];
      } else {
        assert cs[i] == mismatches[i];
      }
    }
  }

  lemma MissingWellFormed(qbOnly: seq<Vendor>, q: map<string, Vendor>, j: nat)
    requires j < |qbOnly|
    requires forall v :: v in qbOnly ==> v.recordId in q && v == q[v.recordId]
    ensures |MissingConflicts(qbOnly)| == |qbOnly|
    ensures MissingConflicts(qbOnly)[j].recordId in q && WellFormedConflict(MissingConflicts(qbOnly)[j])
  {
    MissingConflictsAt(qbOnly, j);
    assert qbOnly[j] in qbOnly;
  }

  // ----------------------------------------------------- what the engine promises

  /** With no id in common nothing matches and nothing mismatches; when ids are unique
      within each list, each one-sided list is that whole input list, so there is one
      missing_in_excel conflict per QuickBooks record. */
  lemma DisjointInputs(excelTerms: seq<Vendor>, qbTerms: seq<Vendor>)
    requires Ids(excelTerms) !! Ids(qbTerms)
    ensures var e := IndexById(excelTerms);
      var q := IndexById(qbTerms);
      && SameIn(SharedIds(e, q), e, q) == {}
      && DifferIn(SharedIds(e, q), e, q) == {}
      && (DistinctIds(excelTerms) ==> OnlyIn(IndexKeys(excelTerms), e, q) == excelTerms)
      && (DistinctIds(qbTerms) ==> OnlyIn(IndexKeys(qbTerms), q, e) == qbTerms)
  {
    var e := IndexById(excelTerms);
    var q := IndexById(qbTerms);
    assert SharedIds(e, q) == {};
    if DistinctIds(excelTerms) {
      DistinctIndex(excelTerms);
      OnlyInWhole(excelTerms, e, q);
    }
    if DistinctIds(qbTerms) {
      DistinctIndex(qbTerms);
      OnlyInWhole(qbTerms, q, e);
    }
  }

  lemma {:induction false} OnlyInWhole(vs: seq<Vendor>, idx: map<string, Vendor>, other: map<string, Vendor>)
    requires forall i :: 0 <= i < |vs| ==> vs[i].recordId in idx && idx[vs[i].recordId] == vs[i]
    requires forall i :: 0 <= i < |vs| ==> vs[i].recordId !in other
    ensures OnlyIn(IdSeq(vs), idx, other) == vs
    decreases |vs|
  {
    if vs != [] {
      var init := vs[..|vs| - 1];
      OnlyInWhole(init, idx, other);
      assert IdSeq(vs)[..|vs| - 1] == IdSeq(init);
      assert vs == init + [vs[|vs| - 1]];
    }
  }

  /** When every shared id has equal names, all shared ids are matches and no
      data_mismatch conflict is produced. */
  lemma AgreeingNames(e: map<string, Vendor>, q: map<string, Vendor>)
    requires forall id :: id in e && id in q ==> e[id].name == q[id].name
    ensures |SameIn(SharedIds(e, q), e, q)| == |SharedIds(e, q)|
    ensures DifferIn(SharedIds(e, q), e, q) == {}
  {
    assert SameIn(SharedIds(e, q), e, q) == SharedIds(e, q);
  }

  /** Reordering the inputs (ids unique within each list) changes neither the index, nor
      hence the counts, nor which vendors land in each one-sided list. */
  lemma ReorderedInputs(vs: seq<Vendor>, ws: seq<Vendor>, other: map<string, Vendor>)
    requires DistinctIds(vs) && DistinctIds(ws) && multiset(vs) == multiset(ws)
    ensures IndexById(vs) == IndexById(ws)
    ensures (set v | v in OnlyIn(IndexKeys(vs), IndexById(vs), other))
         == (set v | v in OnlyIn(IndexKeys(ws), IndexById(ws), other))
  {
    SameMultisetSameRecords(vs, ws);
    SameRecordsSameIndex(vs, ws);
    SameIndexSameOneSided(vs, ws, other);
  }

  /** Lists that index alike put the same vendors in their one-sided list, whatever
      order their keys come in. */
  lemma SameIndexSameOneSided(vs: seq<Vendor>, ws: seq<Vendor>, other: map<string, Vendor>)
    requires IndexById(vs) == IndexById(ws)
    ensures (set v | v in OnlyIn(IndexKeys(vs), IndexById(vs), other))
         == (set v | v in OnlyIn(IndexKeys(ws), IndexById(ws), other))
  {
    var m := IndexById(vs);
    var ks1, ks2 := IndexKeys(vs), IndexKeys(ws);
    OnlyInElements(ks1, m, other);
    OnlyInElements(ks2, m, other);
    KeysOfIndex(vs);
    KeysOfIndex(ws);
    SameKeysSameImage(ks1, ks2, m, other);
  }

  /** The dict's key order lists exactly the keys of the index. */
  lemma KeysOfIndex(vs: seq<Vendor>)
    ensures forall k :: k in IndexKeys(vs) <==> k in IndexById(vs)
  {
    forall k ensures k in IndexKeys(vs) <==> k in IndexById(vs) {
      assert k in IndexKeys(vs) <==> k in (set x | x in IndexKeys(vs));
    }
  }

  lemma SameKeysSameImage(ks1: seq<string>, ks2: seq<string>, m: map<string, Vendor>, other: map<string, Vendor>)
    requires forall k :: k in ks1 <==> k in ks2
    ensures (set k | k in ks1 && k in m && k !in other :: m[k])
         == (set k | k in ks2 && k in m && k !in other :: m[k])
  {
    SubImage(ks1, ks2, m, other);
    SubImage(ks2, ks1, m, other);
  }

  lemma SubImage(ks1: seq<string>, ks2: seq<string>, m: map<string, Vendor>, other: map<string, Vendor>)
    requires forall k :: k in ks1 ==> k in ks2
    ensures (set k | k in ks1 && k in m && k !in other :: m[k])
         <= (set k | k in ks2 && k in m && k !in other :: m[k])
  {
    forall k | k in ks1 && k in m && k !in other
      ensures m[k] in (set k | k in ks2 && k in m && k !in other :: m[k])
    {
      assert k in ks2;
    }
  }

  lemma SameMultisetSameRecords(vs: seq<Vendor>, ws: seq<Vendor>)
    requires multiset(vs) == multiset(ws)
    ensures forall v :: v in vs <==> v in ws
  {
    forall v ensures v in vs <==> v in ws {
      assert v in vs <==> multiset(vs)[v] > 0;
      assert v in ws <==> multiset(ws)[v] > 0;
    }
  }

  /** Two lists holding the same records, the second with unique ids, index alike. */
  lemma SameRecordsSameIndex(vs: seq<Vendor>, ws: seq<Vendor>)
    requires DistinctIds(ws)
    requires forall v :: v in vs <==> v in ws
    ensures IndexById(vs) == IndexById(ws)
  {
    var m1, m2 := IndexById(vs), IndexById(ws);
    assert Ids(vs) == Ids(ws);
    forall k | k in m1
      ensures m2[k] == m1[k]
    {
      var a, b := m1[k], m2[k];
      assert a in ws && b in ws;
      var i :| 0 <= i < |ws| && ws[i] == a;
      var j :| 0 <= j < |ws| && ws[j] == b;
      assert ws[i].recordId == ws[j].recordId;
    }
  }

  lemma {:induction false} OnlyInElements(keys: seq<string>, idx: map<string, Vendor>, other: map<string, Vendor>)
    requires forall k :: k in keys ==> k in idx
    ensures (set v | v in OnlyIn(keys, idx, other)) == (set k | k in keys && k in idx && k !in other :: idx[k])
    decreases |keys|
  {
    if keys != [] {
      var init, k := keys[..|keys| - 1], keys[|keys| - 1];
      OnlyInElements(init, idx, other);
      assert keys == init + [k];
      var r0 := OnlyIn(init, idx, other);
      var e0 := set x | x in init && x in idx && x !in other :: idx[x];
      if k !in other {
        assert OnlyIn(keys, idx, other) == r0 + [idx[k]];
        assert (set x | x in keys && x in idx && x !in other :: idx[x]) == e0 + {idx[k]};
        assert (set v | v in r0 + [idx[k]]) == (set v | v in r0) + {idx[k]};
      } else {
        assert OnlyIn(keys, idx, other) == r0;
        assert (set x | x in keys && x in idx && x !in other :: idx[x]) == e0;
      }
    }
  }

  // ---------------------------------------------------------- the JSON document

  function VendorToJson(v: Vendor): Json {
    JObject([("record_id", JString(v.recordId)), ("name", JString(v.name))])
  }

  function NameToJson(n: Option<string>): Json {
    match n
    case None => JNull
    case Some(s) => JString(s)
  }

  function ConflictToJson(c: Conflict): Json {
    JObject([
      ("record_id", JString(c.recordId)),
      ("reason", JString(ReasonLiteral(c.reason))),
      ("excel_name", NameToJson(c.excelName)),
      ("qb_name", NameToJson(c.qbName))])
  }

  function VendorsToJson(vs: seq<Vendor>): seq<Json> {
    if vs == [] then [] else [VendorToJson(vs[0])] + VendorsToJson(vs[1..])
  }

  function ConflictsToJson(cs: seq<Conflict>): seq<Json> {
    if cs == [] then [] else [ConflictToJson(cs[0])] + ConflictsToJson(cs[1..])
  }

  /** `json_data`: the document `compare_vendor_terms` writes; the timestamp is an input. */
  function ReportDocument(report: ComparisonReport, generatedAt: string): Json {
    JObject(DocumentFields(generatedAt, VendorsToJson(report.excelOnly),
                           ConflictsToJson(report.conflicts), report.sameVendors))
  }

  /** The members of the document, in the order they are written. */
  function DocumentFields(generatedAt: string, added: seq<Json>, conflicts: seq<Json>, same: int): seq<(string, Json)> {
    [("status", JString("success")),
     ("generated_at", JString(generatedAt)),
     ("added_vendors", JArray(added)),
     ("conflicts", JArray(conflicts)),
     ("same_vendors", JInt(same)),
     ("error", JNull)]
  }

  // Reading the document back.

  datatype AddedVendor = AddedVendor(recordId: string, name: string)

  /** What a reader of the document learns. */
  datatype DocumentView = DocumentView(
    generatedAt: string,
    addedVendors: seq<AddedVendor>,
    conflicts: seq<Conflict>,
    sameVendors: int)

  function Added(vs: seq<Vendor>): seq<AddedVendor> {
    if vs == [] then [] else [AddedVendor(vs[0].recordId, vs[0].name)] + Added(vs[1..])
  }

  function ReadString(j: Option<Json>): Option<string> {
    match j
    case Some(JString(s)) => Some(s)
    case _ => None
  }

  function ReadName(j: Option<Json>): Option<Option<string>> {
    match j
    case Some(JNull) => Some(None)
    case Some(JString(s)) => Some(Some(s))
    case _ => None
  }

  function ReadArray(j: Option<Json>): Option<seq<Json>> {
    match j
    case Some(JArray(items)) => Some(items)
    case _ => None
  }

  function ReadInt(j: Option<Json>): Option<int> {
    match j
    case Some(JInt(n)) => Some(n)
    case _ => None
  }

  function ReadVendor(j: Json): Option<AddedVendor> {
    if !j.JObject? then None
    else
      var id := ReadString(Lookup(j.fields, "record_id"));
      var name := ReadString(Lookup(j.fields, "name"));
      if id.None? || name.None? then None else Some(AddedVendor(id.value, name.value))
  }

  function ReadConflict(j: Json): Option<Conflict> {
    if !j.JObject? then None
    else
      var id := ReadString(Lookup(j.fields, "record_id"));
      var reason := ReadString(Lookup(j.fields, "reason"));
      var en := ReadName(Lookup(j.fields, "excel_name"));
      var qn := ReadName(Lookup(j.fields, "qb_name"));
      if id.None? || reason.None? || en.None? || qn.None? then None
      else
        var r := ReasonFromLiteral(reason.value);
        if r.None? then None else Some(Conflict(id.value, en.value, qn.value, r.value))
  }

  function ReadVendors(items: seq<Json>): Option<seq<AddedVendor>> {
    if items == [] then Some([])
    else
      var v, vs := ReadVendor(items[0]), ReadVendors(items[1..]);
      if v.None? || vs.None? then None else Some([v.value] + vs.value)
  }

  function ReadConflicts(items: seq<Json>): Option<seq<Conflict>> {
    if items == [] then Some([])
    else
      var c, cs := ReadConflict(items[0]), ReadConflicts(items[1..]);
      if c.None? || cs.None? then None else Some([c.value] + cs.value)
  }

  /** Reads a report document; None unless status is "success" and error is null. */
  function ReadDocument(doc: Json): Option<DocumentView> {
    if !doc.JObject? then None
    else
      var fs := doc.fields;
      var t := ReadString(Lookup(fs, "generated_at"));
      var av := ReadArray(Lookup(fs, "added_vendors"));
      var cs := ReadArray(Lookup(fs, "conflicts"));
      var n := ReadInt(Lookup(fs, "same_vendors"));
      if Lookup(fs, "status") != Some(JString("success")) || Lookup(fs, "error") != Some(JNull) then None
      else if t.None? || av.None? || cs.None? || n.None? then None
      else
        var vs, cf := ReadVendors(av.value), ReadConflicts(cs.value);
        if vs.None? || cf.None? then None else Some(DocumentView(t.value, vs.value, cf.value, n.value))
  }

  lemma VendorRoundTrip(v: Vendor)
    ensures ReadVendor(VendorToJson(v)) == Some(AddedVendor(v.recordId, v.name))
  {
    var fs := [("record_id", JString(v.recordId)), ("name", JString(v.name))];
    assert Lookup(fs, "record_id") == Some(JString(v.recordId));
    assert fs[1..] == [("name", JString(v.name))];
    assert Lookup(fs, "name") == Some(JString(v.name));
  }

  lemma {:induction false} VendorsRoundTrip(vs: seq<Vendor>)
    ensures ReadVendors(VendorsToJson(vs)) == Some(Added(vs))
    decreases |vs|
  {
    if vs != [] {
      VendorRoundTrip(vs[0]);
      VendorsRoundTrip(vs[1..]);
      var items := VendorsToJson(vs);
      assert items[0] == VendorToJson(vs[0]) && items[1..] == VendorsToJson(vs[1..]);
    }
  }

  lemma ConflictRoundTrip(c: Conflict)
    ensures ReadConflict(ConflictToJson(c)) == Some(c)
  {
    ReasonLiteralRoundTrip(c.reason);
    var id, reason := JString(c.recordId), JString(ReasonLiteral(c.reason));
    var en, qn := NameToJson(c.excelName), NameToJson(c.qbName);
    var fs := [("record_id", id), ("reason", reason), ("excel_name", en), ("qb_name", qn)];
    assert ConflictToJson(c) == JObject(fs);
    LookupAt(fs, 0, "record_id");
    LookupAt(fs, 1, "reason");
    LookupAt(fs, 2, "excel_name");
    LookupAt(fs, 3, "qb_name");
    assert ReadName(Some(en)) == Some(c.excelName);
    assert ReadName(Some(qn)) == Some(c.qbName);
  }

  lemma {:induction false} ConflictsRoundTrip(cs: seq<Conflict>)
    ensures ReadConflicts(ConflictsToJson(cs)) == Some(cs)
    decreases |cs|
  {
    if cs != [] {
      ConflictRoundTrip(cs[0]);
      ConflictsRoundTrip(cs[1..]);
      var items := ConflictsToJson(cs);
      assert items[0] == ConflictToJson(cs[0]) && items[1..] == ConflictsToJson(cs[1..]);
      assert [cs[0]] + cs[1..] == cs;
    }
  }

  lemma {:induction false} AddedAt(vs: seq<Vendor>, i: nat)
    requires i < |vs|
    ensures |Added(vs)| == |vs| && Added(vs)[i] == AddedVendor(vs[i].recordId, vs[i].name)
    decreases |vs|
  {
    if i > 0 {
      AddedAt(vs[1..], i - 1);
    } else if |vs| > 1 {
      AddedAt(vs[1..], 0);
    }
  }

  /** `added_vendors` maps `excel_only` one to one, keeping each record_id and name. */
  lemma AddedProjection(vs: seq<Vendor>)
    ensures |Added(vs)| == |vs|
    ensures forall i :: 0 <= i < |vs| ==> Added(vs)[i] == AddedVendor(vs[i].recordId, vs[i].name)
  {
    forall i | 0 <= i < |vs|
      ensures |Added(vs)| == |vs| && Added(vs)[i] == AddedVendor(vs[i].recordId, vs[i].name)
    {
      AddedAt(vs, i);
    }
    if vs == [] {
      assert Added(vs) == [];
    }
  }

  /** The document is a faithful projection of the report: it says success with a null
      error, and reading it back gives `added_vendors` as `Added(excel_only)`, every
      conflict with all four fields, `same_vendors`, and the timestamp. */
  lemma DocumentRoundTrip(report: ComparisonReport, generatedAt: string)
    ensures ReadDocument(ReportDocument(report, generatedAt))
         == Some(DocumentView(generatedAt, Added(report.excelOnly), report.conflicts, report.sameVendors))
  {
    var av, cs := VendorsToJson(report.excelOnly), ConflictsToJson(report.conflicts);
    DocumentLookups(generatedAt, av, cs, report.sameVendors);
    VendorsRoundTrip(report.excelOnly);
    ConflictsRoundTrip(report.conflicts);
  }

  /** Each member of the document is found under its own key. */
  lemma DocumentLookups(generatedAt: string, added: seq<Json>, conflicts: seq<Json>, same: int)
    ensures var fs := DocumentFields(generatedAt, added, conflicts, same);
      && Lookup(fs, "status") == Some(JString("success"))
      && Lookup(fs, "generated_at") == Some(JString(generatedAt))
      && Lookup(fs, "added_vendors") == Some(JArray(added))
      && Lookup(fs, "conflicts") == Some(JArray(conflicts))
      && Lookup(fs, "same_vendors") == Some(JInt(same))
      && Lookup(fs, "error") == Some(JNull)
  {
    var fs := DocumentFields(generatedAt, added, conflicts, same);
    LookupAt(fs, 0, "status");
    LookupAt(fs, 1, "generated_at");
    LookupAt(fs, 2, "added_vendors");
    LookupAt(fs, 3, "conflicts");
    LookupAt(fs, 4, "same_vendors");
    LookupAt(fs, 5, "error");
  }
}
