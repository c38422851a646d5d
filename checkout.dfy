/** How the script reads the outcome of a purchase from the page title. */
module Checkout {

  /** "支付宝" (Alipay), the cashier page's title marker, written as code points. */
  const PaymentMarker: string := "\U{652F}\U{4ED8}\U{5B9D}"

  /** `p` occurs in `s` starting at index `i`. */
  predicate OccursAt(s: string, p: string, i: int)
  {
    0 <= i && i + |p| <= |s| && s[i..i + |p|] == p
  }

  /** Substring test, as Python's `p in s` on strings (the empty string occurs everywhere). */
  function Contains(s: string, p: string): (found: bool)
    decreases |s|
    ensures found ==> |p| <= |s|
    ensures |p| <= |s| && s[..|p|] == p ==> found
    ensures p == [] ==> found
  {
    (|p| <= |s| && s[..|p|] == p) || (|s| > 0 && Contains(s[1..], p))
  }

  /** An occurrence at any position makes `Contains` hold. */
  lemma {:induction false} ContainsFromOccurrence(s: string, p: string, i: int)
    requires OccursAt(s, p, i)
    ensures Contains(s, p)
    decreases i
  {
    if i > 0 {
      assert s[1..][i - 1..i - 1 + |p|] == s[i..i + |p|];
      ContainsFromOccurrence(s[1..], p, i - 1);
    } else {
      assert s[..|p|] == s[0..0 + |p|];
    }
  }

  /** When `Contains` holds, some position carries an occurrence. */
  lemma {:induction false} OccurrenceFromContains(s: string, p: string) returns (i: int)
    requires Contains(s, p)
    ensures OccursAt(s, p, i)
    decreases |s|
  {
    if |p| <= |s| && s[..|p|] == p {
      i := 0;
      assert s[0..0 + |p|] == s[..|p|];
    } else {
      var j := OccurrenceFromContains(s[1..], p);
      assert s[1..][j..j + |p|] == s[j + 1..j + 1 + |p|];
      i := j + 1;
    }
  }

  /** `Contains` holds exactly when there is a position where `p` occurs. */
  lemma ContainsIff(s: string, p: string)
    ensures Contains(s, p) <==> exists i :: OccursAt(s, p, i)
  {
    if Contains(s, p) {
      var i := OccurrenceFromContains(s, p);
    }
    if i :| OccursAt(s, p, i) {
      ContainsFromOccurrence(s, p, i);
    }
  }

  /** `'支付宝' in wd.title`: the purchase reached the payment page. */
  function IsPaymentPage(title: string): (paid: bool)
    ensures paid ==> |title| >= |PaymentMarker|
    ensures |title| >= |PaymentMarker| && title[..|PaymentMarker|] == PaymentMarker ==> paid
  {
    Contains(title, PaymentMarker)
  }

  /** The purchase counts as successful exactly when the marker occurs somewhere in the title. */
  lemma PaymentPageIff(title: string)
    ensures IsPaymentPage(title) <==> exists i :: OccursAt(title, PaymentMarker, i)
    ensures |title| < |PaymentMarker| ==> !IsPaymentPage(title)
  {
    ContainsIff(title, PaymentMarker);
  }
}
