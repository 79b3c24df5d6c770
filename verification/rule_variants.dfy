/**
 * `update_rule_variant_relation`: the `PromotionRule` -- `ProductVariant`
 * through table is brought in line with a freshly computed list of pairs.
 * Rows of the given rules that are no longer wanted are deleted, wanted pairs
 * that are missing are bulk-created, and conflicts with rows already present
 * are ignored.
 */
module RuleVariants {

  /**
   * A row of the through table. The table is unique on the pair, so a
   * row's id stands for its pair.
   */
  datatype RuleVariant = RuleVariant(ruleId: nat, variantId: nat)

  /** The table's uniqueness constraint on (rule, variant). */
  predicate Unique(rows: seq<RuleVariant>) {
    forall i, j :: 0 <= i < j < |rows| ==> rows[i] != rows[j]
  }

  /** The rows that belong to one of `rules` (`existing_rules_variants`). */
  function RowsOfRules(rows: seq<RuleVariant>, rules: set<nat>): (r: seq<RuleVariant>)
    ensures forall x :: x in r <==> x in rows && x.ruleId in rules
  {
    if rows == [] then []
    else
      var rest := RowsOfRules(rows[1..], rules);
      if rows[0].ruleId in rules then [rows[0]] + rest else rest
  }

  /**
   * The rows of `rows` whose pair is not in `pairs`, in order: both
   * `rule_variant_to_delete_ids` and `rules_variants_to_add` are this filter.
   */
  function NotIn(rows: seq<RuleVariant>, pairs: set<RuleVariant>): (r: seq<RuleVariant>)
    ensures forall x :: x in r <==> x in rows && x !in pairs
    ensures Unique(rows) ==> Unique(r)
    ensures (forall x | x in rows :: x !in pairs) ==> r == rows
  {
    if rows == [] then []
    else
      var rest := NotIn(rows[1..], pairs);
      UniqueTail(rows);
      assert forall x | x in rows[1..] :: x in rows;
      if rows[0] in pairs then rest else [rows[0]] + rest
  }

  /** Without its first row a unique table stays unique and does not hold that row. */
  lemma UniqueTail(rows: seq<RuleVariant>)
    requires rows != []
    ensures Unique(rows) ==> Unique(rows[1..]) && rows[0] !in rows[1..]
  {
    if Unique(rows) {
      forall i, j | 0 <= i < j < |rows[1..]| ensures rows[1..][i] != rows[1..][j] {
        assert rows[1..][i] == rows[i + 1] && rows[1..][j] == rows[j + 1];
      }
      forall k | 0 <= k < |rows[1..]| ensures rows[1..][k] != rows[0] {
        assert rows[1..][k] == rows[k + 1];
      }
    }
  }

  /** The set of pairs a list holds. */
  function PairSet(rows: seq<RuleVariant>): (r: set<RuleVariant>)
    ensures forall x :: x in r <==> x in rows
  {
    set x | x in rows
  }

  /**
   * `bulk_create(rows, ignore_conflicts=True)`: every row whose pair is not
   * yet in the table is appended; a conflicting row is skipped.
   */
  function BulkCreateIgnoringConflicts(table: seq<RuleVariant>, rows: seq<RuleVariant>): (r: seq<RuleVariant>)
    ensures forall x :: x in r <==> x in table || x in rows
    ensures Unique(table) ==> Unique(r)
    ensures |table| <= |r| && r[..|table|] == table
    decreases |rows|
  {
    if rows == [] then table
    else if rows[0] in table then BulkCreateIgnoringConflicts(table, rows[1..])
    else
      var next := table + [rows[0]];
      assert Unique(table) ==> Unique(next) by {
        if Unique(table) {
          forall i, j | 0 <= i < j < |next| ensures next[i] != next[j] {
            if j == |table| {
              assert next[i] == table[i];
            }
          }
        }
      }
      var r := BulkCreateIgnoringConflicts(next, rows[1..]);
      assert r[..|table|] == r[..|next|][..|table|];
      r
  }

  /** The table after `update_rule_variant_relation(rules, newRulesVariants)`. */
  function Updated(table: seq<RuleVariant>, rules: set<nat>, newRulesVariants: seq<RuleVariant>)
    : seq<RuleVariant>
  {
    var existing := RowsOfRules(table, rules);
    var toDelete := NotIn(existing, PairSet(newRulesVariants));
    var toAdd := NotIn(newRulesVariants, PairSet(existing));
    BulkCreateIgnoringConflicts(NotIn(table, PairSet(toDelete)), toAdd)
  }

  /**
   * After the update, a rule of `rules` is linked to a variant exactly when
   * the new list links them; rows of other rules are kept, and pairs of
   * other rules in the new list are added as well. The table stays unique.
   */
  lemma UpdatedContents(table: seq<RuleVariant>, rules: set<nat>, newRulesVariants: seq<RuleVariant>)
    requires Unique(table)
    ensures Unique(Updated(table, rules, newRulesVariants))
    ensures forall x :: x in Updated(table, rules, newRulesVariants) <==>
              x in newRulesVariants || (x in table && x.ruleId !in rules)
  {
    var existing := RowsOfRules(table, rules);
    var toDelete := NotIn(existing, PairSet(newRulesVariants));
    var toAdd := NotIn(newRulesVariants, PairSet(existing));
    var kept := NotIn(table, PairSet(toDelete));
    forall x ensures x in Updated(table, rules, newRulesVariants) <==>
                     x in newRulesVariants || (x in table && x.ruleId !in rules)
    {
      assert x in kept <==> x in table && !(x.ruleId in rules && x !in newRulesVariants);
    }
  }

  /** The rows that belong to none of `rules`, in order. */
  function RowsOutside(rows: seq<RuleVariant>, rules: set<nat>): (r: seq<RuleVariant>)
    ensures forall x :: x in r <==> x in rows && x.ruleId !in rules
  {
    if rows == [] then []
    else
      var rest := RowsOutside(rows[1..], rules);
      if rows[0].ruleId in rules then rest else [rows[0]] + rest
  }

  lemma {:induction false} RowsOutsideAppend(a: seq<RuleVariant>, b: seq<RuleVariant>, rules: set<nat>)
    ensures RowsOutside(a + b, rules) == RowsOutside(a, rules) + RowsOutside(b, rules)
  {
    if a == [] {
      assert a + b == b;
    } else {
      assert (a + b)[1..] == a[1..] + b;
      RowsOutsideAppend(a[1..], b, rules);
    }
  }

  /** Dropping pairs of `rules` leaves the rows outside `rules` as they were. */
  lemma {:induction false} RowsOutsideNotIn(rows: seq<RuleVariant>, pairs: set<RuleVariant>, rules: set<nat>)
    requires forall x | x in pairs :: x.ruleId in rules
    ensures RowsOutside(NotIn(rows, pairs), rules) == RowsOutside(rows, rules)
  {
    if rows != [] {
      RowsOutsideNotIn(rows[1..], pairs, rules);
    }
  }

  /**
   * The update deletes rows and appends rows, and reorders nothing: the rows
   * it keeps stay first in their order, and the rows of rules that are not
   * being updated keep their order ahead of any row added for those rules.
   */
  lemma UpdatedKeepsOtherRules(table: seq<RuleVariant>, rules: set<nat>, newRulesVariants: seq<RuleVariant>)
    ensures var toDelete := NotIn(RowsOfRules(table, rules), PairSet(newRulesVariants));
            var kept := NotIn(table, PairSet(toDelete));
            |kept| <= |Updated(table, rules, newRulesVariants)| &&
            Updated(table, rules, newRulesVariants)[..|kept|] == kept
    ensures var others := RowsOutside(Updated(table, rules, newRulesVariants), rules);
            |RowsOutside(table, rules)| <= |others| && others[..|RowsOutside(table, rules)|] == RowsOutside(table, rules)
    ensures (forall x | x in table :: x.ruleId !in rules) ==>
              Updated(table, rules, newRulesVariants)[..|table|] == table
  {
    var existing := RowsOfRules(table, rules);
    var toDelete := NotIn(existing, PairSet(newRulesVariants));
    var kept := NotIn(table, PairSet(toDelete));
    var r := Updated(table, rules, newRulesVariants);
    KeptFirst(table, rules, newRulesVariants, kept);
    OthersFirst(table, rules, kept, r, PairSet(toDelete));
    if forall x | x in table :: x.ruleId !in rules {
      assert existing == [];
      assert kept == table;
    }
  }

  lemma KeptFirst(table: seq<RuleVariant>, rules: set<nat>, newRulesVariants: seq<RuleVariant>, kept: seq<RuleVariant>)
    requires kept == NotIn(table, PairSet(NotIn(RowsOfRules(table, rules), PairSet(newRulesVariants))))
    ensures |kept| <= |Updated(table, rules, newRulesVariants)|
    ensures Updated(table, rules, newRulesVariants)[..|kept|] == kept
  {
  }

  /** A table that starts with the filtered rows has the rows outside `rules` first. */
  lemma OthersFirst(table: seq<RuleVariant>, rules: set<nat>, kept: seq<RuleVariant>, r: seq<RuleVariant>,
                    pairs: set<RuleVariant>)
    requires kept == NotIn(table, pairs) && forall x | x in pairs :: x.ruleId in rules
    requires |kept| <= |r| && r[..|kept|] == kept
    ensures |RowsOutside(table, rules)| <= |RowsOutside(r, rules)|
    ensures RowsOutside(r, rules)[..|RowsOutside(table, rules)|] == RowsOutside(table, rules)
  {
    assert r == kept + r[|kept|..];
    RowsOutsideAppend(kept, r[|kept|..], rules);
    RowsOutsideNotIn(table, pairs, rules);
  }

  /** Running the update a second time with the same arguments changes nothing. */
  lemma UpdateIsIdempotent(table: seq<RuleVariant>, rules: set<nat>, newRulesVariants: seq<RuleVariant>)
    requires Unique(table)
    ensures Updated(Updated(table, rules, newRulesVariants), rules, newRulesVariants)
            == Updated(table, rules, newRulesVariants)
  {
    var t := Updated(table, rules, newRulesVariants);
    UpdatedContents(table, rules, newRulesVariants);
    var existing := RowsOfRules(t, rules);
    var toDelete := NotIn(existing, PairSet(newRulesVariants));
    assert PairSet(toDelete) == {};
    var kept := NotIn(t, PairSet(toDelete));
    assert kept == t;
    var toAdd := NotIn(newRulesVariants, PairSet(existing));
    AllPresentAddsNothing(t, toAdd);
  }

  /** Bulk-creating rows that are all present already leaves the table as it is. */
  lemma {:induction false} AllPresentAddsNothing(table: seq<RuleVariant>, rows: seq<RuleVariant>)
    requires forall x | x in rows :: x in table
    ensures BulkCreateIgnoringConflicts(table, rows) == table
    decreases |rows|
  {
    if rows != [] {
      assert forall x | x in rows[1..] :: x in rows;
      AllPresentAddsNothing(table, rows[1..]);
    }
  }

  /** The through table. */
  class RuleVariantTable {
    var rows: seq<RuleVariant>

    ghost predicate Valid()
      reads this
    {
      Unique(rows)
    }

    constructor (rows: seq<RuleVariant>)
      requires Unique(rows)
      ensures Valid() && this.rows == rows
    {
      this.rows := rows;
    }

    /**
     * `update_rule_variant_relation`: delete the rows of `rules` whose pair is
     * not wanted any more, then bulk-create the wanted pairs that were missing.
     */
    method UpdateRuleVariantRelation(rules: set<nat>, newRulesVariants: seq<RuleVariant>)
      requires Valid()
      modifies this
      ensures Valid()
      ensures rows == Updated(old(rows), rules, newRulesVariants)
    {
      var existing := RowsOfRules(rows, rules);
      var newSet := PairSet(newRulesVariants);
      var existingSet := PairSet(existing);
      var toDelete := NotIn(existing, newSet);
      rows := NotIn(rows, PairSet(toDelete));
      var toAdd := NotIn(newRulesVariants, existingSet);
      rows := BulkCreateIgnoringConflicts(rows, toAdd);
    }
  }
}
