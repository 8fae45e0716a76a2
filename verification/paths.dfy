/**
 * The URL path templates of the exported operations, with parsers that recover the
 * interpolated member id and store code.  Template literals interpolate their
 * arguments verbatim: nothing is percent-encoded.
 */
module Paths {
  import opened Wrappers

  const MemberPath := "/loyalty/accounts"
  const AccountPrefix := "/loyalty/accounts/"
  const BalanceSuffix := "/balance"
  const OrdersSuffix := "/orders"
  const RewardsSegment := "/rewards"
  const StoreQuery := "?store="
  const TokenPath := "/oauth2/v1/token"
  const MemberProfilePath := "/oauth2/member/v1/get"

  /** `/loyalty/accounts/${spendgo_id}/balance` */
  function BalancePath(spendgoId: string): string {
    AccountPrefix + spendgoId + BalanceSuffix
  }

  /** `/loyalty/accounts/${spendgo_id}/rewards?store=${store_code}` */
  function RewardsPath(spendgoId: string, storeCode: string): string {
    AccountPrefix + spendgoId + RewardsSegment + StoreQuery + storeCode
  }

  /** `/loyalty/accounts/${spendgo_id}/orders` */
  function OrdersPath(spendgoId: string): string {
    AccountPrefix + spendgoId + OrdersSuffix
  }

  /** `s` begins with `prefix`. */
  predicate StartsWith(s: string, prefix: string) {
    |prefix| <= |s| && s[..|prefix|] == prefix
  }

  lemma StartsWithExtend(s: string, prefix: string, t: string)
    requires StartsWith(s, prefix)
    ensures StartsWith(s + t, prefix)
  {
    assert (s + t)[..|prefix|] == s[..|prefix|];
  }

  /** The part of `s` strictly between `pre` and `suf`, when `s` has that shape. */
  function Between(s: string, pre: string, suf: string): Option<string> {
    if |pre| + |suf| <= |s| && StartsWith(s, pre) && s[|s| - |suf|..] == suf
    then Some(s[|pre|..|s| - |suf|])
    else None
  }

  /** `Between` recovers exactly the middle that was framed by `pre` and `suf`. */
  lemma BetweenInverse(s: string, pre: string, mid: string, suf: string)
    ensures Between(s, pre, suf) == Some(mid) <==> s == pre + mid + suf
  {
    if s == pre + mid + suf {
      assert s[..|pre|] == pre;
      assert s[|s| - |suf|..] == suf;
      assert s[|pre|..|s| - |suf|] == mid;
    }
    if Between(s, pre, suf) == Some(mid) {
      assert s == s[..|pre|] + s[|pre|..|s| - |suf|] + s[|s| - |suf|..];
    }
  }

  /** The position of the first `c` in `s`, if any. */
  function IndexOf(s: string, c: char): (r: Option<nat>)
    ensures r.Some? ==> r.value < |s| && s[r.value] == c && forall j :: 0 <= j < r.value ==> s[j] != c
    ensures r.None? ==> forall j :: 0 <= j < |s| ==> s[j] != c
  {
    if |s| == 0 then None
    else if s[0] == c then Some(0)
    else
      match IndexOf(s[1..], c)
      case None => None
      case Some(i) => Some(i + 1)
  }

  /** The member id of a balance path. */
  function BalanceMemberId(path: string): Option<string> {
    Between(path, AccountPrefix, BalanceSuffix)
  }

  /** The member id of an orders path. */
  function OrdersMemberId(path: string): Option<string> {
    Between(path, AccountPrefix, OrdersSuffix)
  }

  /** Member id and store code of a rewards path: the first `?` starts the query. */
  function ParseRewardsPath(path: string): Option<(string, string)> {
    match IndexOf(path, '?')
    case None => None
    case Some(q) =>
      match (Between(path[..q], AccountPrefix, RewardsSegment), Between(path[q..], StoreQuery, ""))
      case (Some(id), Some(store)) => Some((id, store))
      case _ => None
  }

  lemma BalancePathInverse(path: string, spendgoId: string)
    ensures BalanceMemberId(path) == Some(spendgoId) <==> path == BalancePath(spendgoId)
  {
    BetweenInverse(path, AccountPrefix, spendgoId, BalanceSuffix);
  }

  lemma OrdersPathInverse(path: string, spendgoId: string)
    ensures OrdersMemberId(path) == Some(spendgoId) <==> path == OrdersPath(spendgoId)
  {
    BetweenInverse(path, AccountPrefix, spendgoId, OrdersSuffix);
  }

  /** A rewards path determines its member id and store code, provided the id contains no
      `?`; the store code may contain anything. */
  lemma RewardsPathInverse(path: string, spendgoId: string, storeCode: string)
    requires forall i :: 0 <= i < |spendgoId| ==> spendgoId[i] != '?'
    ensures ParseRewardsPath(path) == Some((spendgoId, storeCode)) <==> path == RewardsPath(spendgoId, storeCode)
  {
    var head := AccountPrefix + spendgoId + RewardsSegment;
    if path == RewardsPath(spendgoId, storeCode) {
      var q := |head|;
      assert path == head + (StoreQuery + storeCode);
      assert path[q] == '?';
      forall j | 0 <= j < q
        ensures path[j] != '?'
      {
        if j < |AccountPrefix| {
          assert path[j] == AccountPrefix[j];
        } else if j < |AccountPrefix| + |spendgoId| {
          assert path[j] == spendgoId[j - |AccountPrefix|];
        } else {
          assert path[j] == RewardsSegment[j - |AccountPrefix| - |spendgoId|];
        }
      }
      var r := IndexOf(path, '?');
      assert r == Some(q);
      assert path[..q] == head;
      assert path[q..] == StoreQuery + storeCode + "";
      BetweenInverse(head, AccountPrefix, spendgoId, RewardsSegment);
      BetweenInverse(path[q..], StoreQuery, storeCode, "");
    }
    if ParseRewardsPath(path) == Some((spendgoId, storeCode)) {
      var q := IndexOf(path, '?').value;
      BetweenInverse(path[..q], AccountPrefix, spendgoId, RewardsSegment);
      BetweenInverse(path[q..], StoreQuery, storeCode, "");
      assert path == path[..q] + path[q..];
    }
  }

  /** Without percent-encoding, a `?` in the member id makes two different calls share one
      path, so the id restriction above cannot be dropped. */
  lemma RewardsPathAmbiguous()
    ensures RewardsPath("1/rewards?store=2", "3") == RewardsPath("1", "2/rewards?store=3")
  {
  }
}
