/**
 * Balance values and the non-zero filter of src/binance/BalanceManager.ts
 * (`filterNonZeroBalances`, `getBalances`), shared by the snapshot path and
 * the streaming path.
 */
module Balances {
  import opened Wrappers

  /** One balance entry as the account endpoint reports it (src/types/balance.ts:15-23). */
  datatype BinanceBalance = BinanceBalance(
    asset: string,
    free: string,
    locked: string,
    freeze: string,
    withdrawing: string,
    ipoable: string,
    btcValuation: string)

  /** One balance entry as the manager hands it out (src/types/balance.ts:3-7). */
  datatype AssetBalance = AssetBalance(asset: string, free: string, locked: string)

  // ---------------------------------------------------------------------
  // `parseFloat(x) > 0` on decimal text
  // ---------------------------------------------------------------------

  predicate IsDigit(c: char)
  {
    '0' <= c <= '9'
  }

  predicate IsNonZeroDigit(c: char)
  {
    '1' <= c <= '9'
  }

  /** The characters `parseFloat` skips before the number: JavaScript white space and line terminators. */
  predicate IsLeadingSpace(c: char)
  {
    || c == ' ' || c == '\t' || c == '\n' || c == '\r' || c == '\U{000B}' || c == '\U{000C}'
    || c == '\U{00A0}' || c == '\U{1680}' || '\U{2000}' <= c <= '\U{200A}'
    || c == '\U{2028}' || c == '\U{2029}' || c == '\U{202F}' || c == '\U{205F}'
    || c == '\U{3000}' || c == '\U{FEFF}'
  }

  function TrimStart(s: string): (r: string)
    ensures |r| <= |s| && r == s[|s| - |r|..]
    ensures r != [] ==> !IsLeadingSpace(r[0])
    ensures forall i :: 0 <= i < |s| - |r| ==> IsLeadingSpace(s[i])
  {
    if s != [] && IsLeadingSpace(s[0]) then
      var r := TrimStart(s[1..]);
      assert forall i :: 0 < i < |s| - |r| ==> s[i] == s[1..][i - 1];
      r
    else s
  }

  /**
   * Whether the longest numeric prefix of `s` (digits with at most one
   * point; `seenPoint` says the point is already behind) has a non-zero
   * digit, i.e. whether the number it denotes is not zero.
   */
  predicate MantissaNonZero(s: string, seenPoint: bool)
  {
    if s == [] then false
    else if IsNonZeroDigit(s[0]) then true
    else if s[0] == '0' then MantissaNonZero(s[1..], seenPoint)
    else if s[0] == '.' && !seenPoint then MantissaNonZero(s[1..], true)
    else false
  }

  /**
   * `parseFloat(s) > 0`: after leading white space and an optional `+`, the
   * text starts with `Infinity` or with a decimal numeral that is not zero.
   * A leading `-` gives a negative number (or -0), and text without a
   * numeral gives NaN; neither is greater than zero.
   */
  predicate IsPositiveAmount(s: string)
  {
    var t := TrimStart(s);
    if t != [] && t[0] == '-' then false
    else
      var u := if t != [] && t[0] == '+' then t[1..] else t;
      (|u| >= 8 && u[..8] == "Infinity") || MantissaNonZero(u, false)
  }

  /** Number of decimal points in the text. */
  function PointCount(s: string): nat
  {
    if s == [] then 0 else (if s[0] == '.' then 1 else 0) + PointCount(s[1..])
  }

  /** Plain decimal text as the exchange sends amounts: digits and at most one point. */
  predicate IsDecimalText(s: string)
  {
    (forall i :: 0 <= i < |s| ==> IsDigit(s[i]) || s[i] == '.') && PointCount(s) <= 1
  }

  /** On plain decimal text the mantissa is non-zero exactly when some digit is non-zero. */
  lemma {:induction false} MantissaNonZeroIff(s: string, seenPoint: bool)
    requires forall i :: 0 <= i < |s| ==> IsDigit(s[i]) || s[i] == '.'
    requires PointCount(s) <= (if seenPoint then 0 else 1)
    ensures MantissaNonZero(s, seenPoint) <==> exists i :: 0 <= i < |s| && IsNonZeroDigit(s[i])
  {
    if s != [] {
      if !IsNonZeroDigit(s[0]) {
        MantissaNonZeroIff(s[1..], seenPoint || s[0] == '.');
        if exists i :: 0 <= i < |s| && IsNonZeroDigit(s[i]) {
          var i :| 0 <= i < |s| && IsNonZeroDigit(s[i]);
          assert s[1..][i - 1] == s[i];
        }
        if exists i :: 0 <= i < |s[1..]| && IsNonZeroDigit(s[1..][i]) {
          var i :| 0 <= i < |s[1..]| && IsNonZeroDigit(s[1..][i]);
          assert s[i + 1] == s[1..][i];
        }
      }
    }
  }

  /** An amount written as plain decimal text is positive exactly when one of its digits is non-zero. */
  lemma IsPositiveDecimalText(s: string)
    requires IsDecimalText(s)
    ensures IsPositiveAmount(s) <==> exists i :: 0 <= i < |s| && IsNonZeroDigit(s[i])
  {
    assert TrimStart(s) == s;
    if |s| >= 8 {
      assert s[..8] != "Infinity" by {
        assert IsDigit(s[0]) || s[0] == '.';
      }
    }
    MantissaNonZeroIff(s, false);
  }

  // ---------------------------------------------------------------------
  // The non-zero filter
  // ---------------------------------------------------------------------

  /** The entry has something free or something locked. */
  predicate IsNonZero(b: BinanceBalance)
  {
    IsPositiveAmount(b.free) || IsPositiveAmount(b.locked)
  }

  /** The entry reduced to the three fields consumers see. */
  function Project(b: BinanceBalance): AssetBalance
  {
    AssetBalance(b.asset, b.free, b.locked)
  }

  /**
   * `filterNonZeroBalances`: the entries with a positive free or locked
   * amount, in input order, reduced to asset, free and locked.
   */
  function FilterNonZeroBalances(bs: seq<BinanceBalance>): (r: seq<AssetBalance>)
    ensures |r| <= |bs|
    ensures forall a :: a in r <==> exists b :: b in bs && IsNonZero(b) && Project(b) == a
  {
    if bs == [] then []
    else
      var rest := FilterNonZeroBalances(bs[1..]);
      assert forall b :: b in bs <==> b == bs[0] || b in bs[1..];
      if IsNonZero(bs[0]) then [Project(bs[0])] + rest else rest
  }

  /** The filter distributes over concatenation, so input order is kept. */
  lemma {:induction false} FilterNonZeroBalancesAppend(a: seq<BinanceBalance>, b: seq<BinanceBalance>)
    ensures FilterNonZeroBalances(a + b) == FilterNonZeroBalances(a) + FilterNonZeroBalances(b)
  {
    if a == [] {
      assert a + b == b;
    } else {
      assert (a + b)[1..] == a[1..] + b;
      FilterNonZeroBalancesAppend(a[1..], b);
    }
  }

  /** A list with no non-zero entry filters to nothing. */
  lemma {:induction false} FilterNonZeroBalancesAllZero(bs: seq<BinanceBalance>)
    requires forall i :: 0 <= i < |bs| ==> !IsNonZero(bs[i])
    ensures FilterNonZeroBalances(bs) == []
  {
    if bs != [] {
      FilterNonZeroBalancesAllZero(bs[1..]);
    }
  }

  /** A list of non-zero entries keeps every entry, in order. */
  lemma {:induction false} FilterNonZeroBalancesAllNonZero(bs: seq<BinanceBalance>)
    requires forall i :: 0 <= i < |bs| ==> IsNonZero(bs[i])
    ensures var r := FilterNonZeroBalances(bs);
      |r| == |bs| && forall i :: 0 <= i < |bs| ==> r[i] == Project(bs[i])
  {
    if bs != [] {
      FilterNonZeroBalancesAllNonZero(bs[1..]);
    }
  }

  // ---------------------------------------------------------------------
  // The snapshot
  // ---------------------------------------------------------------------

  /** The one error `getBalances` raises, whatever the cause. */
  const FetchBalancesFailed: string := "Failed to fetch account balances"

  /**
   * `getBalances`, given what the account endpoint answered: the non-zero
   * entries, or the generic error; the provider's own error never surfaces.
   */
  function GetBalances(snapshot: Result<seq<BinanceBalance>, string>): (r: Result<seq<AssetBalance>, string>)
    ensures r.Failure? <==> snapshot.Failure?
    ensures r.Failure? ==> r.error == FetchBalancesFailed
    ensures r.Success? ==> r.value == FilterNonZeroBalances(snapshot.value)
    ensures r.Success? ==> forall a :: a in r.value <==> exists b :: b in snapshot.value && IsNonZero(b) && Project(b) == a
  {
    match snapshot
    case Success(balances) => Success(FilterNonZeroBalances(balances))
    case Failure(_) => Failure(FetchBalancesFailed)
  }

  /**
   * The snapshot of the repository's tests: a zero-balance asset between two
   * funded ones is dropped, and the others are kept in order with their
   * text unchanged.
   */
  lemma MockSnapshot()
    ensures GetBalances(Success(MockBalances))
            == Success([AssetBalance("BTC", "1.0", "0.0"), AssetBalance("USDT", "100.0", "50.0")])
  {
    MockAmounts();
    FilterDropsMiddle(MockBalances[0], MockBalances[1], MockBalances[2]);
    assert MockBalances == [MockBalances[0], MockBalances[1], MockBalances[2]];
  }

  /** The account snapshot of the repository's tests. */
  const MockBalances: seq<BinanceBalance> := [
    BinanceBalance("BTC", "1.0", "0.0", "0.0", "0.0", "0.0", "1.0"),
    BinanceBalance("ETH", "0.0", "0.0", "0.0", "0.0", "0.0", "0.0"),
    BinanceBalance("USDT", "100.0", "50.0", "0.0", "0.0", "0.0", "0.1")]

  /** Of three entries, a zero one between two non-zero ones is the only one dropped. */
  lemma FilterDropsMiddle(b0: BinanceBalance, b1: BinanceBalance, b2: BinanceBalance)
    requires IsNonZero(b0) && !IsNonZero(b1) && IsNonZero(b2)
    ensures FilterNonZeroBalances([b0, b1, b2]) == [Project(b0), Project(b2)]
  {
    FilterNonZeroBalancesSingle(b0);
    FilterNonZeroBalancesSingle(b1);
    FilterNonZeroBalancesSingle(b2);
    FilterNonZeroBalancesAppend([b1], [b2]);
    FilterNonZeroBalancesAppend([b0], [b1] + [b2]);
    assert [b0, b1, b2] == [b0] + ([b1] + [b2]);
  }

  /** A single entry is kept, projected, exactly when it is non-zero. */
  lemma FilterNonZeroBalancesSingle(b: BinanceBalance)
    ensures FilterNonZeroBalances([b]) == if IsNonZero(b) then [Project(b)] else []
  {
    assert [b][1..] == [];
  }

  /** The amounts of the test snapshot, read as `parseFloat` reads them. */
  lemma MockAmounts()
    ensures IsPositiveAmount("1.0") && !IsPositiveAmount("0.0") && IsPositiveAmount("100.0")
  {
    OnePositive();
    ZeroNotPositive();
    HundredPositive();
  }

  lemma OnePositive()
    ensures IsPositiveAmount("1.0")
  {
    var s := "1.0";
    assert !IsLeadingSpace(s[0]) && IsNonZeroDigit(s[0]);
    assert TrimStart(s) == s;
  }

  lemma HundredPositive()
    ensures IsPositiveAmount("100.0")
  {
    var s := "100.0";
    assert !IsLeadingSpace(s[0]) && IsNonZeroDigit(s[0]);
    assert TrimStart(s) == s;
  }

  lemma ZeroNotPositive()
    ensures !IsPositiveAmount("0.0")
  {
    var s := "0.0";
    assert !IsLeadingSpace(s[0]);
    assert TrimStart(s) == s;
    assert s[1..] == ".0" && s[1..][1..] == "0" && s[1..][1..][1..] == "";
    assert !MantissaNonZero(s, false);
  }
}
