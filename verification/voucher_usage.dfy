/**
 * Voucher usage bookkeeping (`increase_voucher_usage`,
 * `release_voucher_code_usage` and their helpers).
 *
 * A voucher code carries a `used` counter and an `is_active` flag; the
 * `VoucherCustomer` table holds one row per (code, customer e-mail) pair
 * that has redeemed a once-per-customer voucher. The database-side
 * increments (`F("used") + 1`) are modelled as sequential updates.
 */
module VoucherUsage {
  import opened Wrappers

  /** The voucher settings that drive the bookkeeping. */
  datatype Voucher = Voucher(
    usageLimit: Option<int>,
    applyOncePerCustomer: bool,
    singleUse: bool)

  /** `if voucher.usage_limit:` -- a missing limit and a limit of 0 are both falsy. */
  predicate HasUsageLimit(v: Voucher) {
    v.usageLimit.Some? && v.usageLimit.value != 0
  }

  /** A `VoucherCustomer` row: this customer has used this code. */
  datatype VoucherCustomer = VoucherCustomer(voucherCode: string, customerEmail: string)

  /** `NotApplicable("This offer is only valid once per customer.")` */
  datatype UsageError = OnlyOncePerCustomer

  /** The part of the database the usage functions touch for one code. */
  datatype UsageState = UsageState(used: int, isActive: bool, rows: seq<VoucherCustomer>)

  predicate NoDuplicateRows(rows: seq<VoucherCustomer>) {
    forall i, j :: 0 <= i < j < |rows| ==> rows[i] != rows[j]
  }

  /** The table after `VoucherCustomer.objects.filter(row).delete()`. */
  function Without(rows: seq<VoucherCustomer>, row: VoucherCustomer): (r: seq<VoucherCustomer>)
    ensures forall x :: x in r <==> x in rows && x != row
    ensures row !in rows ==> r == rows
    ensures NoDuplicateRows(rows) ==> NoDuplicateRows(r)
  {
    if rows == [] then []
    else if rows[0] == row then Without(rows[1..], row)
    else
      var rest := Without(rows[1..], row);
      assert NoDuplicateRows(rows) ==> NoDuplicateRows(rows[1..]) && rows[0] !in rows[1..] by {
        if NoDuplicateRows(rows) {
          forall i, j | 0 <= i < j < |rows[1..]| ensures rows[1..][i] != rows[1..][j] {
            assert rows[1..][i] == rows[i + 1] && rows[1..][j] == rows[j + 1];
          }
          forall k | 0 <= k < |rows[1..]| ensures rows[1..][k] != rows[0] {
            assert rows[1..][k] == rows[k + 1];
          }
        }
      }
      [rows[0]] + rest
  }

  lemma {:induction false} WithoutAppended(rows: seq<VoucherCustomer>, row: VoucherCustomer)
    ensures Without(rows + [row], row) == Without(rows, row)
  {
    if rows == [] {
      assert Without([row], row) == Without([], row);
    } else {
      assert (rows + [row])[1..] == rows[1..] + [row];
      WithoutAppended(rows[1..], row);
    }
  }

  /**
   * `increase_voucher_usage`: count one use when the voucher has a usage
   * limit, record the customer when the voucher is once-per-customer and
   * tracking is requested (failing if the customer is already recorded),
   * and deactivate a single-use code. The failure is raised after the
   * counter was raised and before the code is deactivated.
   */
  function Increase(v: Voucher, code: string, s: UsageState, email: string, trackCustomer: bool)
    : (r: (Outcome<UsageError>, UsageState))
    ensures r.1.used == if HasUsageLimit(v) then s.used + 1 else s.used
    ensures r.0.Fail? <==> v.applyOncePerCustomer && trackCustomer && VoucherCustomer(code, email) in s.rows
    ensures r.0.Pass? && v.singleUse ==> !r.1.isActive
    ensures r.0.Fail? || !v.singleUse ==> r.1.isActive == s.isActive
    ensures v.applyOncePerCustomer && trackCustomer && r.0.Pass? ==>
              r.1.rows == s.rows + [VoucherCustomer(code, email)]
    ensures !(v.applyOncePerCustomer && trackCustomer && r.0.Pass?) ==> r.1.rows == s.rows
  {
    var used := if HasUsageLimit(v) then s.used + 1 else s.used;
    var row := VoucherCustomer(code, email);
    if v.applyOncePerCustomer && trackCustomer && row in s.rows then
      (Fail(OnlyOncePerCustomer), UsageState(used, s.isActive, s.rows))
    else
      var rows := if v.applyOncePerCustomer && trackCustomer then s.rows + [row] else s.rows;
      var active := if v.singleUse then false else s.isActive;
      (Pass, UsageState(used, active, rows))
  }

  /**
   * `release_voucher_code_usage` for a present code: undo one use when the
   * voucher has a usage limit, reactivate a single-use code, and delete the
   * customer's row when an e-mail is given.
   */
  function Release(v: Option<Voucher>, code: string, s: UsageState, email: Option<string>)
    : (r: UsageState)
    ensures r.used == if v.Some? && HasUsageLimit(v.value) then s.used - 1 else s.used
    ensures r.isActive == if v.Some? && v.value.singleUse then true else s.isActive
    ensures IsTruthy(email) ==> VoucherCustomer(code, email.value) !in r.rows
    ensures forall x :: x in r.rows <==> x in s.rows && !(IsTruthy(email) && x == VoucherCustomer(code, email.value))
  {
    UsageState(
      if v.Some? && HasUsageLimit(v.value) then s.used - 1 else s.used,
      if v.Some? && v.value.singleUse then true else s.isActive,
      if IsTruthy(email) then Without(s.rows, VoucherCustomer(code, email.value)) else s.rows)
  }

  /** Increasing the usage never creates a second row for a (code, e-mail) pair. */
  lemma IncreaseKeepsRowsUnique(v: Voucher, code: string, s: UsageState, email: string, track: bool)
    requires NoDuplicateRows(s.rows)
    ensures NoDuplicateRows(Increase(v, code, s, email, track).1.rows)
  {
    var r := Increase(v, code, s, email, track);
    if v.applyOncePerCustomer && track && r.0.Pass? {
      var row := VoucherCustomer(code, email);
      assert row !in s.rows;
      forall i, j | 0 <= i < j < |r.1.rows| ensures r.1.rows[i] != r.1.rows[j] {
        if j == |s.rows| {
          assert r.1.rows[i] == s.rows[i];
        }
      }
    }
  }

  /**
   * A successful use followed by its release restores the counter, the
   * active flag and the usage rows -- provided the code was active (the
   * only codes that can be redeemed), the e-mail is non-empty (release
   * skips falsy e-mails) and the release does not remove a row that the
   * use did not add.
   */
  lemma {:induction false} IncreaseThenReleaseRestores(v: Voucher, code: string, s: UsageState, email: string, track: bool)
    requires Increase(v, code, s, email, track).0.Pass?
    requires s.isActive || !v.singleUse
    requires email != ""
    requires (v.applyOncePerCustomer && track) || VoucherCustomer(code, email) !in s.rows
    ensures Release(Some(v), code, Increase(v, code, s, email, track).1, Some(email)) == s
  {
    var row := VoucherCustomer(code, email);
    var mid := Increase(v, code, s, email, track).1;
    assert row !in s.rows;
    if v.applyOncePerCustomer && track {
      WithoutAppended(s.rows, row);
    }
    assert Without(mid.rows, row) == s.rows;
  }

  /** A voucher code: its usage counter and its active flag. */
  class VoucherCode {
    const code: string
    var used: int
    var isActive: bool

    constructor (code: string, used: int, isActive: bool)
      ensures this.code == code && this.used == used && this.isActive == isActive
    {
      this.code := code;
      this.used := used;
      this.isActive := isActive;
    }

    /** `increase_voucher_code_usage_value` */
    method IncreaseUsageValue()
      modifies this
      ensures used == old(used) + 1 && isActive == old(isActive)
    {
      used := used + 1;
    }

    /** `decrease_voucher_code_usage_value` */
    method DecreaseUsageValue()
      modifies this
      ensures used == old(used) - 1 && isActive == old(isActive)
    {
      used := used - 1;
    }

    /** `deactivate_voucher_code` */
    method Deactivate()
      modifies this
      ensures !isActive && used == old(used)
    {
      isActive := false;
    }

    /** `activate_voucher_code` */
    method Activate()
      modifies this
      ensures isActive && used == old(used)
    {
      isActive := true;
    }
  }

  /** The `VoucherCustomer` table. */
  class VoucherCustomerTable {
    var rows: seq<VoucherCustomer>

    ghost predicate Valid()
      reads this
    {
      NoDuplicateRows(rows)
    }

    constructor ()
      ensures Valid() && rows == []
    {
      rows := [];
    }

    /** `add_voucher_usage_by_customer`: `get_or_create`, failing when the row existed. */
    method AddUsageByCustomer(code: string, email: string) returns (r: Outcome<UsageError>)
      requires Valid()
      modifies this
      ensures Valid()
      ensures r == if VoucherCustomer(code, email) in old(rows) then Fail(OnlyOncePerCustomer) else Pass
      ensures rows == if r.Fail? then old(rows) else old(rows) + [VoucherCustomer(code, email)]
    {
      var row := VoucherCustomer(code, email);
      if row in rows {
        r := Fail(OnlyOncePerCustomer);
      } else {
        forall i, j | 0 <= i < j < |rows + [row]| ensures (rows + [row])[i] != (rows + [row])[j] {
          if j == |rows| {
            assert (rows + [row])[i] == rows[i];
          }
        }
        rows := rows + [row];
        r := Pass;
      }
    }

    /** `remove_voucher_usage_by_customer`: delete the matching rows, if any. */
    method RemoveUsageByCustomer(code: string, email: string)
      requires Valid()
      modifies this
      ensures Valid()
      ensures rows == Without(old(rows), VoucherCustomer(code, email))
    {
      var row := VoucherCustomer(code, email);
      if row in rows {
        rows := Without(rows, row);
      }
    }
  }

  /** The abstract state of one code and the usage table. */
  function StateOf(code: VoucherCode, table: VoucherCustomerTable): UsageState
    reads code, table
  {
    UsageState(code.used, code.isActive, table.rows)
  }

  /** `increase_voucher_usage`, proved against `Increase`. */
  method IncreaseVoucherUsage(voucher: Voucher, code: VoucherCode, table: VoucherCustomerTable,
                              customerEmail: string, increaseCustomerUsage: bool)
    returns (r: Outcome<UsageError>)
    requires table.Valid()
    modifies code, table
    ensures table.Valid()
    ensures (r, StateOf(code, table)) ==
            Increase(voucher, code.code, old(StateOf(code, table)), customerEmail, increaseCustomerUsage)
  {
    if HasUsageLimit(voucher) {
      code.IncreaseUsageValue();
    }
    if voucher.applyOncePerCustomer && increaseCustomerUsage {
      r := table.AddUsageByCustomer(code.code, customerEmail);
      if r.Fail? {
        return;
      }
    }
    if voucher.singleUse {
      code.Deactivate();
    }
    r := Pass;
  }

  /**
   * `release_voucher_code_usage`, proved against `Release`; a missing code
   * (`null`) leaves everything unchanged.
   */
  method ReleaseVoucherCodeUsage(code: VoucherCode?, voucher: Option<Voucher>,
                                 table: VoucherCustomerTable, userEmail: Option<string>)
    requires table.Valid()
    modifies code, table
    ensures table.Valid()
    ensures code == null ==> table.rows == old(table.rows)
    ensures code != null ==>
              StateOf(code, table) == Release(voucher, code.code, old(StateOf(code, table)), userEmail)
  {
    if code == null {
      return;
    }
    if voucher.Some? && HasUsageLimit(voucher.value) {
      code.DecreaseUsageValue();
    }
    if voucher.Some? && voucher.value.singleUse {
      code.Activate();
    }
    if IsTruthy(userEmail) {
      table.RemoveUsageByCustomer(code.code, userEmail.value);
    }
  }
}
