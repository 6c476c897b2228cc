/** The stable identifiers the Coordinator generates for its commands. */
module Identifiers {
  import opened Text

  const SEQUENCE_WIDTH: nat := 6

  /** `<account>-<strategy>-<day>-%06d<suffix>`. */
  function ClientOrderId(account: string, strategy: string, day: string, sequence: nat, suffix: string): string {
    account + "-" + strategy + "-" + day + "-" + Padded(sequence, SEQUENCE_WIDTH) + suffix
  }

  function RequestId(clientOrderId: string): string {
    clientOrderId + "-effect"
  }

  predicate Suffix(s: string) {
    s == "" || s == "-c"
  }

  /** The digits after the last dash are determined by the text. */
  lemma LastSegment(p: string, d: string, q: string, e: string)
    requires IsDigits(d) && IsDigits(e)
    requires p + "-" + d == q + "-" + e
    ensures d == e
  {
    var s := p + "-" + d;
    assert s[|p|] == '-' && s[|p| + 1..] == d;
    assert s[|q|] == '-' && s[|q| + 1..] == e;
    assert forall k :: |p| < k < |s| ==> s[k] == d[k - |p| - 1];
    assert forall k :: |q| < k < |s| ==> s[k] == e[k - |q| - 1];
  }

  /** Whatever the account, strategy and day, ids of different sequence numbers differ. */
  lemma IdsAreDistinct(a: string, s: string, day: string, m: nat, x: string,
                       b: string, t: string, day': string, n: nat, y: string)
    requires Suffix(x) && Suffix(y)
    ensures ClientOrderId(a, s, day, m, x) == ClientOrderId(b, t, day', n, y) ==> m == n && x == y
    ensures RequestId(ClientOrderId(a, s, day, m, x)) == RequestId(ClientOrderId(b, t, day', n, y)) ==> m == n && x == y
  {
    var i, j := ClientOrderId(a, s, day, m, x), ClientOrderId(b, t, day', n, y);
    assert RequestId(i) == RequestId(j) ==> i == j by {
      assert RequestId(i)[..|RequestId(i)| - 7] == i && RequestId(j)[..|RequestId(j)| - 7] == j;
    }
    if i == j {
      var p, q := a + "-" + s + "-" + day, b + "-" + t + "-" + day';
      var d, e := Padded(m, SEQUENCE_WIDTH), Padded(n, SEQUENCE_WIDTH);
      assert i == p + "-" + d + x && j == q + "-" + e + y;
      assert x == "" ==> IsDigit(i[|i| - 1]);
      assert y == "" ==> IsDigit(j[|j| - 1]);
      assert x == y;
      assert i[..|i| - |x|] == p + "-" + d && j[..|j| - |y|] == q + "-" + e;
      LastSegment(p, d, q, e);
      PaddedInjective(m, n, SEQUENCE_WIDTH);
    }
  }
}
