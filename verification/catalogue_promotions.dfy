/**
 * `create_discount_objects_for_catalogue_promotions` over all the lines of
 * a checkout: every line is synced in turn (`CatalogueSync`), and the
 * records to create, update and remove are collected across lines for the
 * bulk calls made at the end.
 *
 * The lines are distinct objects and each record belongs to one line only,
 * as the rows of `CheckoutLineDiscount` each reference a single line.
 */
module CataloguePromotions {
  import opened DiscountRecords
  import opened CatalogueSync

  /** The records currently on the lines. */
  function LineRecords(lines: seq<CheckoutLineInfo>): set<Discount>
    reads set l | l in lines
  {
    set j, d | 0 <= j < |lines| && d in lines[j].discounts :: d
  }

  /** The records and values of every line, line by line. */
  function Snapshots(lines: seq<CheckoutLineInfo>): (r: seq<seq<Entry>>)
    reads set l | l in lines
    reads LineRecords(lines)
    ensures |r| == |lines| && forall j :: 0 <= j < |lines| ==> r[j] == Snapshot(lines[j].discounts)
  {
    if lines == [] then []
    else
      var init := lines[..|lines| - 1];
      assert LineRecords(init) <= LineRecords(lines) by {
        forall d | d in LineRecords(init) ensures d in LineRecords(lines) {
          var j :| 0 <= j < |init| && d in init[j].discounts;
          assert lines[j] == init[j];
        }
      }
      Snapshots(init) + [Snapshot(lines[|lines| - 1].discounts)]
  }

  /** The records of all the snapshots. */
  function SnapRecords(snaps: seq<seq<Entry>>): set<Discount> {
    set j, d | 0 <= j < |snaps| && d in RecordSet(snaps[j]) :: d
  }

  predicate DistinctLines(lines: seq<CheckoutLineInfo>) {
    forall j, k :: 0 <= j < k < |lines| ==> lines[j] != lines[k]
  }

  /**
   * The snapshots of distinct lines share no record, each lists its records
   * once, and they are all among `existing`.
   */
  predicate SnapsSeparate(snaps: seq<seq<Entry>>, existing: set<Discount>) {
    (forall j | 0 <= j < |snaps| ::
       NoDuplicates(Records(snaps[j])) && RecordSet(snaps[j]) <= existing &&
       LineMap(snaps[j]).Values <= RecordSet(snaps[j])) &&
    (forall j, k | 0 <= j < k < |snaps| :: RecordSet(snaps[j]) !! RecordSet(snaps[k]))
  }

  /** The records whose rule no longer applies, over the first `i` lines. */
  function StaleUpTo(lines: seq<CheckoutLineInfo>, snaps: seq<seq<Entry>>, i: int): set<Discount>
    requires 0 <= i <= |lines| && |snaps| == |lines|
  {
    set j, d | 0 <= j < i && IsDiscounted(lines[j]) && d in Stale(LineMap(snaps[j]), lines[j].rulesInfo) :: d
  }

  /** The records whose rule still applies, over the first `i` lines. */
  function RefreshedUpTo(lines: seq<CheckoutLineInfo>, snaps: seq<seq<Entry>>, i: int): set<Discount>
    requires 0 <= i <= |lines| && |snaps| == |lines|
  {
    set j, d | 0 <= j < i && IsDiscounted(lines[j]) && d in Refreshed(LineMap(snaps[j]), lines[j].rulesInfo) :: d
  }

  /** The promotion records of the lines that are not discounted, over the first `i` lines. */
  function ClearedUpTo(lines: seq<CheckoutLineInfo>, snaps: seq<seq<Entry>>, i: int): set<Discount>
    requires 0 <= i <= |lines| && |snaps| == |lines|
  {
    set j, d | 0 <= j < i && !IsDiscounted(lines[j]) && d in RecordSet(PromotionEntries(snaps[j])) :: d
  }

  /** The records updated for the first `i` lines, line by line and in order within a line. */
  function UpdatedUpTo(lines: seq<CheckoutLineInfo>, snaps: seq<seq<Entry>>, i: int): seq<Discount>
    requires 0 <= i <= |lines| && |snaps| == |lines|
  {
    if i == 0 then [] else UpdatedUpTo(lines, snaps, i - 1) + LineUpdates(lines[i - 1], snaps[i - 1])
  }

  /** The records created on the first `i` lines, line by line and in order within a line. */
  function CreatedUpTo(lines: seq<CheckoutLineInfo>, snaps: seq<seq<Entry>>, i: int): seq<Discount>
    requires 0 <= i <= |lines| && |snaps| == |lines|
    reads set l | l in lines
  {
    if i == 0 then [] else CreatedUpTo(lines, snaps, i - 1) + NewRecords(lines[i - 1], snaps[i - 1])
  }

  /** The sequences of `ss` one after the other. */
  function Concat(ss: seq<seq<Discount>>): seq<Discount> {
    if ss == [] then [] else Concat(ss[..|ss| - 1]) + ss[|ss| - 1]
  }

  lemma ConcatStep(ss: seq<seq<Discount>>, s: seq<Discount>)
    ensures Concat(ss + [s]) == Concat(ss) + s
  {
    assert (ss + [s])[..|ss|] == ss;
  }

  /** Per-line records created, joined in line order, are the records created on the lines. */
  lemma {:induction false} ConcatCreated(lines: seq<CheckoutLineInfo>, snaps: seq<seq<Entry>>,
                                         news: seq<seq<Discount>>, i: int)
    requires 0 <= i <= |lines| && |snaps| == |lines| && |news| == |lines|
    requires forall j | 0 <= j < |lines| :: news[j] == NewRecords(lines[j], snaps[j])
    ensures Concat(news[..i]) == CreatedUpTo(lines, snaps, i)
  {
    if i > 0 {
      ConcatCreated(lines, snaps, news, i - 1);
      assert news[..i][..i - 1] == news[..i - 1];
    }
  }

  lemma UpToStep(lines: seq<CheckoutLineInfo>, snaps: seq<seq<Entry>>, i: int)
    requires 0 <= i < |lines| && |snaps| == |lines|
    ensures StaleUpTo(lines, snaps, i + 1) ==
            StaleUpTo(lines, snaps, i) + if IsDiscounted(lines[i]) then Stale(LineMap(snaps[i]), lines[i].rulesInfo) else {}
    ensures RefreshedUpTo(lines, snaps, i + 1) ==
            RefreshedUpTo(lines, snaps, i) + if IsDiscounted(lines[i]) then Refreshed(LineMap(snaps[i]), lines[i].rulesInfo) else {}
    ensures ClearedUpTo(lines, snaps, i + 1) ==
            ClearedUpTo(lines, snaps, i) + if IsDiscounted(lines[i]) then {} else RecordSet(PromotionEntries(snaps[i]))
  {
  }

  /** A snapshot of records whose values have not changed is still current. */
  lemma SnapshotOfUnchanged(ds: seq<Discount>, before: seq<Entry>)
    requires Records(before) == ds
    requires forall e | e in before :: e.record.Fields() == e.fields
    ensures Snapshot(ds) == before
  {
    forall n | 0 <= n < |ds| ensures Snapshot(ds)[n] == before[n] {
      assert before[n] in before;
    }
  }

  /**
   * A synced line: its records are its original ones or ones the sync
   * created, and `added` lists the created ones.
   */
  ghost predicate SyncedLine(li: CheckoutLineInfo, before: seq<Entry>, existing: set<Discount>, added: seq<Discount>)
    reads li, RecordSet(before), set d | d in li.discounts
    reads LineMap(before).Values
  {
    LineSynced(li, before) && (forall d | d in li.discounts :: d in RecordSet(before) || d !in existing) &&
    added == NewRecords(li, before)
  }

  /** A line the loop has not reached: its records and their values are as in `before`. */
  ghost predicate UntouchedLine(li: CheckoutLineInfo, before: seq<Entry>)
    reads li, RecordSet(before)
  {
    li.discounts == Records(before) && forall e | e in before :: e.record.Fields() == e.fields
  }

  /** The records created so far are new catalogue-promotion records. */
  predicate CreatedNew(created: seq<Discount>, existing: set<Discount>) {
    forall d | d in created :: d !in existing && d.discountType == CataloguePromotion
  }

  /**
   * What the collected lists hold after the first `i` lines, `news` being
   * the records created on each of them.
   */
  predicate Collected(lines: seq<CheckoutLineInfo>, i: int, snaps: seq<seq<Entry>>, existing: set<Discount>,
                      news: seq<seq<Discount>>, created: seq<Discount>, updated: seq<Discount>,
                      removed: seq<Discount>, deletedNow: seq<Discount>)
    requires 0 <= i <= |lines| && |snaps| == |lines|
  {
    |news| == i && created == Concat(news) && CreatedNew(created, existing) &&
    updated == UpdatedUpTo(lines, snaps, i) &&
    (forall d | d in updated :: d in RefreshedUpTo(lines, snaps, i)) &&
    SameMembers(removed, StaleUpTo(lines, snaps, i)) &&
    SameMembers(deletedNow, ClearedUpTo(lines, snaps, i))
  }

  lemma AppendCreated(created: seq<Discount>, created': seq<Discount>, existing: set<Discount>)
    requires CreatedNew(created, existing) && IsPrefix(created, created')
    requires CreatedNew(created'[|created|..], existing)
    ensures CreatedNew(created', existing)
  {
    assert created' == created + created'[|created|..];
  }

  lemma AppendSame(s: seq<Discount>, t: set<Discount>, s': seq<Discount>, u: set<Discount>)
    requires SameMembers(s, t) && IsPrefix(s, s') && SameMembers(s'[|s|..], u)
    ensures SameMembers(s', t + u)
  {
    assert s' == s + s'[|s|..];
  }

  lemma AppendUpdated(updated: seq<Discount>, updated': seq<Discount>, t: set<Discount>, u: set<Discount>)
    requires (forall d | d in updated :: d in t) && IsPrefix(updated, updated')
    requires forall d | d in updated'[|updated|..] :: d in u
    ensures forall d | d in updated' :: d in t + u
  {
    assert updated' == updated + updated'[|updated|..];
  }

  /**
   * The sync of one line that the loop has not reached yet, with what it
   * contributes to the collected lists stated against the line's snapshot.
   */
  method SyncOne(li: CheckoutLineInfo, ghost before: seq<Entry>, ghost existing: set<Discount>,
                 created: seq<Discount>, updated: seq<Discount>, removed: seq<Discount>, fields: seq<FieldName>)
    returns (ghost added: seq<Discount>, created': seq<Discount>, updated': seq<Discount>, removed': seq<Discount>,
             now: seq<Discount>, fields': seq<FieldName>)
    requires UntouchedLine(li, before) && NoDuplicates(Records(before)) && RecordSet(before) <= existing
    modifies li, RecordSet(before)
    ensures SyncedLine(li, before, existing, added)
    ensures AppendedNew(created, created', existing) && created' == created + added
    ensures updated' == updated + LineUpdates(li, before)
    ensures AppendedFrom(updated, updated', if IsDiscounted(li) then Refreshed(LineMap(before), li.rulesInfo) else {})
    ensures AppendedExactly(removed, removed', if IsDiscounted(li) then Stale(LineMap(before), li.rulesInfo) else {})
    ensures SameMembers(now, if IsDiscounted(li) then {} else RecordSet(PromotionEntries(before)))
    ensures IsPrefix(fields, fields')
  {
    SnapshotOfUnchanged(li.discounts, before);
    created', updated', removed', now, fields' := SyncLineDiscounts(li, existing, before, created, updated, removed, fields);
    added := NewRecords(li, before);
  }

  /**
   * The state of the loop over lines after `i` of them: the lines so far
   * are synced, the others untouched, and the collected lists hold what the
   * synced lines contributed.
   */
  ghost predicate LinesState(lines: seq<CheckoutLineInfo>, i: int, snaps: seq<seq<Entry>>, existing: set<Discount>,
                             news: seq<seq<Discount>>, created: seq<Discount>, updated: seq<Discount>,
                             removed: seq<Discount>, deletedNow: seq<Discount>)
    reads *
  {
    0 <= i <= |lines| && |snaps| == |lines| && DistinctLines(lines) && SnapsSeparate(snaps, existing) &&
    |news| == i && (forall j | 0 <= j < i :: SyncedLine(lines[j], snaps[j], existing, news[j])) &&
    (forall j | i <= j < |lines| :: UntouchedLine(lines[j], snaps[j])) &&
    Collected(lines, i, snaps, existing, news, created, updated, removed, deletedNow)
  }

  /** The lines other than line `i`. */
  function OtherLines(lines: seq<CheckoutLineInfo>, i: int): set<CheckoutLineInfo> {
    set j | 0 <= j < |lines| && j != i :: lines[j]
  }

  /** The records of the snapshots other than snapshot `i`. */
  function OtherSnapRecords(snaps: seq<seq<Entry>>, i: int): set<Discount> {
    set j, d | 0 <= j < |snaps| && j != i && d in RecordSet(snaps[j]) :: d
  }

  /** The records currently on the lines other than line `i`. */
  function OtherLineRecords(lines: seq<CheckoutLineInfo>, i: int): set<Discount>
    reads OtherLines(lines, i)
  {
    set j, d | 0 <= j < |lines| && j != i && lines[j] in OtherLines(lines, i) && d in lines[j].discounts :: d
  }

  /** Every line but line `i`: synced if the loop has passed it, untouched otherwise. */
  ghost predicate OthersIntact(lines: seq<CheckoutLineInfo>, i: int, snaps: seq<seq<Entry>>, existing: set<Discount>,
                               news: seq<seq<Discount>>)
    reads OtherLines(lines, i), OtherSnapRecords(snaps, i), OtherLineRecords(lines, i)
  {
    0 <= i < |lines| && |snaps| == |lines| && SnapsSeparate(snaps, existing) &&
    |news| == i && (forall j | 0 <= j < i :: SyncedLine(lines[j], snaps[j], existing, news[j])) &&
    (forall j | i < j < |lines| :: UntouchedLine(lines[j], snaps[j]))
  }

  /** Line `i` shares no object with the other lines, which are as the loop state says. */
  lemma LineApart(lines: seq<CheckoutLineInfo>, i: int, snaps: seq<seq<Entry>>, existing: set<Discount>,
                  news: seq<seq<Discount>>, created: seq<Discount>, updated: seq<Discount>, removed: seq<Discount>,
                  deletedNow: seq<Discount>)
    requires LinesState(lines, i, snaps, existing, news, created, updated, removed, deletedNow) && i < |lines|
    ensures OthersIntact(lines, i, snaps, existing, news)
    ensures UntouchedLine(lines[i], snaps[i]) && NoDuplicates(Records(snaps[i])) && RecordSet(snaps[i]) <= existing
    ensures lines[i] !in OtherLines(lines, i)
    ensures RecordSet(snaps[i]) !! OtherSnapRecords(snaps, i)
    ensures RecordSet(snaps[i]) !! OtherLineRecords(lines, i)
  {
    forall d | d in OtherSnapRecords(snaps, i) ensures d !in RecordSet(snaps[i]) {
      var j :| 0 <= j < |snaps| && j != i && d in RecordSet(snaps[j]);
    }
    forall d | d in OtherLineRecords(lines, i) ensures d !in RecordSet(snaps[i]) {
      var j :| 0 <= j < |lines| && j != i && d in lines[j].discounts;
      if j > i {
        assert UntouchedLine(lines[j], snaps[j]);
      } else {
        assert SyncedLine(lines[j], snaps[j], existing, news[j]);
      }
    }
  }

  /** Line `i` synced and the other lines intact: the loop state after `i + 1` lines. */
  lemma LineJoined(lines: seq<CheckoutLineInfo>, i: int, snaps: seq<seq<Entry>>, existing: set<Discount>,
                   news: seq<seq<Discount>>, added: seq<Discount>, created: seq<Discount>, updated: seq<Discount>,
                   removed: seq<Discount>, deletedNow: seq<Discount>)
    requires OthersIntact(lines, i, snaps, existing, news) && SyncedLine(lines[i], snaps[i], existing, added)
    requires DistinctLines(lines)
    requires Collected(lines, i + 1, snaps, existing, news + [added], created, updated, removed, deletedNow)
    ensures LinesState(lines, i + 1, snaps, existing, news + [added], created, updated, removed, deletedNow)
  {
  }

  /** One pass of the loop over lines: sync line `i`. */
  method SyncLineAt(lines: seq<CheckoutLineInfo>, i: int, ghost snaps: seq<seq<Entry>>, ghost existing: set<Discount>,
                    ghost news: seq<seq<Discount>>, created: seq<Discount>, updated: seq<Discount>,
                    removed: seq<Discount>, deletedNow: seq<Discount>, fields: seq<FieldName>)
    returns (ghost added: seq<Discount>, created': seq<Discount>, updated': seq<Discount>, removed': seq<Discount>,
             deletedNow': seq<Discount>, fields': seq<FieldName>)
    requires LinesState(lines, i, snaps, existing, news, created, updated, removed, deletedNow) && i < |lines|
    modifies lines[i], RecordSet(snaps[i])
    ensures LinesState(lines, i + 1, snaps, existing, news + [added], created', updated', removed', deletedNow')
    ensures IsPrefix(fields, fields')
  {
    LineApart(lines, i, snaps, existing, news, created, updated, removed, deletedNow);
    var now;
    added, created', updated', removed', now, fields' := SyncApart(lines, i, snaps, existing, news, created, updated, removed, fields);
    deletedNow' := deletedNow + now;
    CollectedStep(lines, i, snaps, existing, news, added, created, updated, removed, deletedNow,
                  created', updated', removed', now);
    LineJoined(lines, i, snaps, existing, news, added, created', updated', removed', deletedNow');
  }

  /** The sync of line `i`, which leaves the other lines as they were. */
  method SyncApart(lines: seq<CheckoutLineInfo>, i: int, ghost snaps: seq<seq<Entry>>, ghost existing: set<Discount>,
                   ghost news: seq<seq<Discount>>, created: seq<Discount>, updated: seq<Discount>,
                   removed: seq<Discount>, fields: seq<FieldName>)
    returns (ghost added: seq<Discount>, created': seq<Discount>, updated': seq<Discount>, removed': seq<Discount>,
             now: seq<Discount>, fields': seq<FieldName>)
    requires OthersIntact(lines, i, snaps, existing, news)
    requires UntouchedLine(lines[i], snaps[i]) && NoDuplicates(Records(snaps[i])) && RecordSet(snaps[i]) <= existing
    requires lines[i] !in OtherLines(lines, i)
    requires RecordSet(snaps[i]) !! OtherSnapRecords(snaps, i) && RecordSet(snaps[i]) !! OtherLineRecords(lines, i)
    modifies lines[i], RecordSet(snaps[i])
    ensures OthersIntact(lines, i, snaps, existing, news) && SyncedLine(lines[i], snaps[i], existing, added)
    ensures AppendedNew(created, created', existing) && created' == created + added
    ensures updated' == updated + LineUpdates(lines[i], snaps[i])
    ensures AppendedFrom(updated, updated',
                         if IsDiscounted(lines[i]) then Refreshed(LineMap(snaps[i]), lines[i].rulesInfo) else {})
    ensures AppendedExactly(removed, removed',
                            if IsDiscounted(lines[i]) then Stale(LineMap(snaps[i]), lines[i].rulesInfo) else {})
    ensures SameMembers(now, if IsDiscounted(lines[i]) then {} else RecordSet(PromotionEntries(snaps[i])))
    ensures IsPrefix(fields, fields')
  {
    added, created', updated', removed', now, fields' := SyncOne(lines[i], snaps[i], existing, created, updated, removed, fields);
  }

  /** What the sync of line `i` appends, added to what the first `i` lines contributed. */
  lemma CollectedStep(lines: seq<CheckoutLineInfo>, i: int, snaps: seq<seq<Entry>>, existing: set<Discount>,
                      news: seq<seq<Discount>>, added: seq<Discount>,
                      created: seq<Discount>, updated: seq<Discount>, removed: seq<Discount>,
                      deletedNow: seq<Discount>, created': seq<Discount>, updated': seq<Discount>,
                      removed': seq<Discount>, now: seq<Discount>)
    requires 0 <= i < |lines| && |snaps| == |lines|
    requires Collected(lines, i, snaps, existing, news, created, updated, removed, deletedNow)
    requires AppendedNew(created, created', existing) && created' == created + added
    requires updated' == updated + LineUpdates(lines[i], snaps[i])
    requires AppendedFrom(updated, updated',
                          if IsDiscounted(lines[i]) then Refreshed(LineMap(snaps[i]), lines[i].rulesInfo) else {})
    requires AppendedExactly(removed, removed',
                             if IsDiscounted(lines[i]) then Stale(LineMap(snaps[i]), lines[i].rulesInfo) else {})
    requires SameMembers(now, if IsDiscounted(lines[i]) then {} else RecordSet(PromotionEntries(snaps[i])))
    ensures Collected(lines, i + 1, snaps, existing, news + [added], created', updated', removed', deletedNow + now)
  {
    var li := lines[i];
    ConcatStep(news, added);
    assert UpdatedUpTo(lines, snaps, i + 1) == updated + LineUpdates(li, snaps[i]);
    UpToStep(lines, snaps, i);
    AppendCreated(created, created', existing);
    AppendUpdated(updated, updated', RefreshedUpTo(lines, snaps, i),
                  if IsDiscounted(li) then Refreshed(LineMap(snaps[i]), li.rulesInfo) else {});
    AppendSame(removed, StaleUpTo(lines, snaps, i), removed',
               if IsDiscounted(li) then Stale(LineMap(snaps[i]), li.rulesInfo) else {});
    assert (deletedNow + now)[|deletedNow|..] == now;
    AppendSame(deletedNow, ClearedUpTo(lines, snaps, i), deletedNow + now,
               if IsDiscounted(li) then {} else RecordSet(PromotionEntries(snaps[i])));
  }

  /** A fresh snapshot lists the records in order, with their current values. */
  lemma SnapshotFacts(ds: seq<Discount>)
    ensures Records(Snapshot(ds)) == ds
    ensures forall e | e in Snapshot(ds) :: e.record.Fields() == e.fields
  {
    var r := Snapshot(ds);
    forall e | e in r ensures e.record.Fields() == e.fields {
      var n :| 0 <= n < |r| && r[n] == e;
    }
  }

  /** On entry the snapshot of every line lists its records with their current values. */
  lemma SnapshotsCurrent(lines: seq<CheckoutLineInfo>, snaps: seq<seq<Entry>>)
    requires snaps == Snapshots(lines)
    ensures forall j | 0 <= j < |lines| ::
              Records(snaps[j]) == lines[j].discounts && UntouchedLine(lines[j], snaps[j]) &&
              LineMap(snaps[j]).Values <= RecordSet(snaps[j])
  {
    forall j | 0 <= j < |lines|
      ensures Records(snaps[j]) == lines[j].discounts
      ensures UntouchedLine(lines[j], snaps[j])
      ensures LineMap(snaps[j]).Values <= RecordSet(snaps[j])
    {
      SnapshotFacts(lines[j].discounts);
      LineMapInRecordSet(snaps[j]);
    }
  }

  /** Snapshots listing the records of distinct lines that share no record are separate. */
  lemma SnapshotsSeparate(lines: seq<CheckoutLineInfo>, snaps: seq<seq<Entry>>, existing: set<Discount>)
    requires |snaps| == |lines|
    requires forall j | 0 <= j < |lines| ::
               Records(snaps[j]) == lines[j].discounts && NoDuplicates(lines[j].discounts) &&
               LineMap(snaps[j]).Values <= RecordSet(snaps[j])
    requires forall j, k, d | 0 <= j < k < |lines| && d in lines[j].discounts :: d !in lines[k].discounts
    requires existing == LineRecords(lines)
    ensures SnapsSeparate(snaps, existing)
  {
    forall j | 0 <= j < |lines| ensures RecordSet(snaps[j]) <= existing {
      forall d | d in RecordSet(snaps[j]) ensures d in existing {
        assert d in lines[j].discounts;
      }
    }
    forall j, k | 0 <= j < k < |lines| ensures RecordSet(snaps[j]) !! RecordSet(snaps[k]) {
      forall d | d in RecordSet(snaps[j]) ensures d !in RecordSet(snaps[k]) {
        assert d in lines[j].discounts;
      }
    }
  }

  /** On entry every line is untouched and the snapshots of distinct lines are separate. */
  lemma SnapsStart(lines: seq<CheckoutLineInfo>, snaps: seq<seq<Entry>>, existing: set<Discount>)
    requires DistinctLines(lines)
    requires forall j | 0 <= j < |lines| :: NoDuplicates(lines[j].discounts)
    requires forall j, k, d | 0 <= j < k < |lines| && d in lines[j].discounts :: d !in lines[k].discounts
    requires snaps == Snapshots(lines) && existing == LineRecords(lines)
    ensures LinesState(lines, 0, snaps, existing, [], [], [], [], [])
  {
    SnapshotsCurrent(lines, snaps);
    SnapshotsSeparate(lines, snaps, existing);
    assert StaleUpTo(lines, snaps, 0) == {} && ClearedUpTo(lines, snaps, 0) == {};
  }

  /**
   * `create_discount_objects_for_catalogue_promotions`: every line ends up
   * synced against its records as they were on entry; the created records
   * are exactly the lines' records that did not exist before, line by line,
   * the updated ones are the mapped records of the applicable rule infos,
   * and the removed and deleted ones are exactly the stale records of
   * discounted lines and the promotion records of lines that are not
   * discounted.
   */
  method CreateDiscountObjectsForCataloguePromotions(lines: seq<CheckoutLineInfo>)
    returns (created: seq<Discount>, updated: seq<Discount>, removed: seq<Discount>,
             deletedNow: seq<Discount>, fields: seq<FieldName>)
    requires DistinctLines(lines)
    requires forall j | 0 <= j < |lines| :: NoDuplicates(lines[j].discounts)
    requires forall j, k, d | 0 <= j < k < |lines| && d in lines[j].discounts :: d !in lines[k].discounts
    modifies LineRecords(lines), set l | l in lines
    ensures forall j | 0 <= j < |lines| :: LineSynced(lines[j], old(Snapshots(lines))[j])
    ensures CreatedNew(created, old(LineRecords(lines)))
    ensures created == CreatedUpTo(lines, old(Snapshots(lines)), |lines|)
    ensures forall d :: d in created <==> exists j | 0 <= j < |lines| :: d in lines[j].discounts && d !in old(LineRecords(lines))
    ensures forall d | d in updated :: d in RefreshedUpTo(lines, old(Snapshots(lines)), |lines|)
    ensures updated == UpdatedUpTo(lines, old(Snapshots(lines)), |lines|)
    ensures SameMembers(removed, StaleUpTo(lines, old(Snapshots(lines)), |lines|))
    ensures SameMembers(deletedNow, ClearedUpTo(lines, old(Snapshots(lines)), |lines|))
  {
    ghost var snaps := Snapshots(lines);
    ghost var existing := LineRecords(lines);
    SnapsStart(lines, snaps, existing);
    created, updated, removed, deletedNow, fields := [], [], [], [], [];
    ghost var news: seq<seq<Discount>> := [];
    var i := 0;
    while i < |lines|
      invariant LinesState(lines, i, snaps, existing, news, created, updated, removed, deletedNow)
    {
      ghost var added;
      added, created, updated, removed, deletedNow, fields :=
        SyncLineAt(lines, i, snaps, existing, news, created, updated, removed, deletedNow, fields);
      news := news + [added];
      i := i + 1;
    }
    AllCollected(lines, snaps, existing, news, created, updated, removed, deletedNow);
    CreatedOnLines(lines, snaps, existing, news, created);
  }

  /** A record is in the joined sequences exactly when it is in one of them. */
  lemma {:induction false} ConcatMembers(ss: seq<seq<Discount>>, d: Discount)
    ensures d in Concat(ss) <==> exists j | 0 <= j < |ss| :: d in ss[j]
  {
    if ss != [] {
      var init := ss[..|ss| - 1];
      ConcatMembers(init, d);
      assert forall j | 0 <= j < |init| :: ss[j] == init[j];
    }
  }

  /** On a synced line, a record that did not exist before is one the sync created. */
  lemma NewOnLine(li: CheckoutLineInfo, before: seq<Entry>, existing: set<Discount>, d: Discount)
    requires LineSynced(li, before) && RecordSet(before) <= existing
    requires d in li.discounts && d !in existing
    ensures d in NewRecords(li, before)
  {
    var kept := Kept(li, before);
    var n :| 0 <= n < |li.discounts| && li.discounts[n] == d;
    assert li.discounts[|kept|..][n - |kept|] == d;
  }

  /** The records a sync created are on its line. */
  lemma NewRecordsOnLine(li: CheckoutLineInfo, before: seq<Entry>, d: Discount)
    requires d in NewRecords(li, before)
    ensures d in li.discounts
  {
    var kept := Kept(li, before);
    var n :| 0 <= n < |li.discounts[|kept|..]| && li.discounts[|kept|..][n] == d;
    assert li.discounts[|kept| + n] == d;
  }

  /** The created records are exactly the records on the synced lines that did not exist before. */
  lemma CreatedOnLines(lines: seq<CheckoutLineInfo>, snaps: seq<seq<Entry>>, existing: set<Discount>,
                       news: seq<seq<Discount>>, created: seq<Discount>)
    requires |snaps| == |lines| && |news| == |lines|
    requires forall j | 0 <= j < |lines| :: LineSynced(lines[j], snaps[j]) && RecordSet(snaps[j]) <= existing
    requires forall j | 0 <= j < |lines| :: news[j] == NewRecords(lines[j], snaps[j])
    requires CreatedNew(created, existing) && created == Concat(news)
    ensures forall d :: d in created <==> exists j | 0 <= j < |lines| :: d in lines[j].discounts && d !in existing
  {
    forall d
      ensures d in created <==> exists j | 0 <= j < |lines| :: d in lines[j].discounts && d !in existing
    {
      ConcatMembers(news, d);
      if d in created {
        var j :| 0 <= j < |news| && d in news[j];
        NewRecordsOnLine(lines[j], snaps[j], d);
      } else if exists j | 0 <= j < |lines| :: d in lines[j].discounts && d !in existing {
        var j :| 0 <= j < |lines| && d in lines[j].discounts && d !in existing;
        NewOnLine(lines[j], snaps[j], existing, d);
      }
    }
  }

  /** Once every line is synced, the created records are those on the lines, in line order. */
  lemma AllCollected(lines: seq<CheckoutLineInfo>, snaps: seq<seq<Entry>>, existing: set<Discount>,
                     news: seq<seq<Discount>>, created: seq<Discount>, updated: seq<Discount>,
                     removed: seq<Discount>, deletedNow: seq<Discount>)
    requires LinesState(lines, |lines|, snaps, existing, news, created, updated, removed, deletedNow)
    ensures created == CreatedUpTo(lines, snaps, |lines|)
  {
    ConcatCreated(lines, snaps, news, |lines|);
    assert news[..|lines|] == news;
  }
}
