/** The bounded rotating slice of pending request ids that the response watcher probes. */
module FallbackRotation {

  /** How many ids one call selects. */
  function Count(n: nat, limit: int): (k: nat)
    ensures n > 0 ==> 1 <= k <= n
  {
    var wanted := if limit > 1 then limit else 1;
    if wanted < n then wanted else n
  }

  /** The i-th position a call starting at `start` selects from a list of `n` ids. */
  function At(start: nat, i: nat, n: nat): (p: nat)
    requires n > 0
    ensures p < n
  {
    (start + i) % n
  }

  /** The ids at the first `k` positions. */
  function Picks(ids: seq<string>, start: nat, k: nat): (r: seq<string>)
    requires ids != []
    ensures |r| == k
  {
    if k == 0 then [] else Picks(ids, start, k - 1) + [ids[At(start, k - 1, |ids|)]]
  }

  method Rotate(ids: seq<string>, cursor: nat, count: nat) returns (selected: seq<string>, next: nat)
    requires ids != []
    ensures selected == Picks(ids, cursor, count)
    ensures next == At(cursor, count, |ids|)
  {
    var start := cursor % |ids|;
    selected := [];
    for offset := 0 to count
      invariant selected == Picks(ids, cursor, offset)
    {
      AddMod(cursor, offset, |ids|);
      selected := selected + [ids[At(start, offset, |ids|)]];
    }
    AddMod(cursor, count, |ids|);
    next := At(start, count, |ids|);
  }

  class FallbackCursor {
    var cursor: nat

    constructor ()
      ensures cursor == 0
    {
      cursor := 0;
    }

    method NextIds(ids: seq<string>, limit: int) returns (selected: seq<string>)
      modifies this
      ensures ids == [] ==> selected == [] && cursor == 0
      ensures ids != [] ==>
        && selected == Picks(ids, old(cursor), Count(|ids|, limit))
        && cursor == At(old(cursor), Count(|ids|, limit), |ids|)
      ensures ids != [] ==>
        && |selected| == (if limit < 1 then 1 else if limit < |ids| then limit else |ids|)
        && (forall i :: 0 <= i < |selected| ==> selected[i] == ids[(old(cursor) + i) % |ids|])
        && cursor == (old(cursor) + |selected|) % |ids|
    {
      if ids == [] {
        cursor := 0;
        return [];
      }
      var count := Count(|ids|, limit);
      ghost var start := cursor;
      selected, cursor := Rotate(ids, cursor, count);
      forall i | 0 <= i < |selected| ensures selected[i] == ids[(start + i) % |ids|] {
        PicksAt(ids, start, count, i);
      }
    }
  }

  lemma Multiples(d: int, n: int)
    requires n >= 0
    ensures d >= 1 ==> d * n >= n
    ensures d <= -1 ==> d * n <= -n
  {
    if d >= 1 {
      assert d * n == (d - 1) * n + n;
    } else if d <= -1 {
      assert d * n == (d + 1) * n - n;
    }
  }

  /** The remainder is the only one in range. */
  lemma Remainder(x: int, q: int, r: nat, n: nat)
    requires r < n && x == q * n + r
    ensures x % n == r && x / n == q
  {
    var d := x / n - q;
    assert d * n == (x / n) * n - q * n;
    Multiples(d, n);
  }

  lemma AddMod(a: nat, b: nat, n: nat)
    requires n > 0
    ensures At(a % n, b, n) == At(a, b, n)
  {
    var q, q' := a / n, (a % n + b) / n;
    assert (q + q') * n == q * n + q' * n;
    Remainder(a + b, q + q', (a % n + b) % n, n);
  }

  /** Within one call no position is selected twice. */
  lemma PositionsAreDistinct(start: nat, n: nat, i: nat, j: nat)
    requires i < j < n
    ensures At(start, i, n) != At(start, j, n)
  {
    var q, q' := (start + i) / n, (start + j) / n;
    assert (q' - q) * n == q' * n - q * n;
    Multiples(q' - q, n);
  }

  lemma {:induction false} PicksAt(ids: seq<string>, start: nat, k: nat, i: nat)
    requires ids != [] && i < k
    ensures Picks(ids, start, k)[i] == ids[At(start, i, |ids|)]
  {
    if i < k - 1 {
      PicksAt(ids, start, k - 1, i);
    }
  }

  /** Hence a call on distinct ids selects distinct ids. */
  lemma CallSelectsDistinctIds(ids: seq<string>, start: nat, limit: int, i: nat, j: nat)
    requires forall a, b :: 0 <= a < b < |ids| ==> ids[a] != ids[b]
    requires ids != [] && i < j < Count(|ids|, limit)
    ensures var r := Picks(ids, start, Count(|ids|, limit)); r[i] != r[j]
  {
    var k := Count(|ids|, limit);
    PicksAt(ids, start, k, i);
    PicksAt(ids, start, k, j);
    var p, q := At(start, i, |ids|), At(start, j, |ids|);
    PositionsAreDistinct(start, |ids|, i, j);
    assert p < q || q < p;
  }

  /** The cursor after `calls` calls that select `k` of `n` ids each. */
  function CursorAfter(start: nat, n: nat, k: nat, calls: nat): nat
    requires n > 0
  {
    if calls == 0 then start else At(CursorAfter(start, n, k, calls - 1), k, n)
  }

  /** One of the first `calls` calls selects position `p`. */
  ghost predicate Probed(start: nat, n: nat, k: nat, calls: nat, p: nat)
    requires n > 0
  {
    exists c: nat, i: nat :: c < calls && i < k && At(CursorAfter(start, n, k, c), i, n) == p
  }

  /** Consecutive calls continue where the previous one stopped. */
  lemma {:induction false} CallsAreContiguous(start: nat, n: nat, k: nat, calls: nat, i: nat)
    requires n > 0
    ensures At(CursorAfter(start, n, k, calls), i, n) == At(start, calls * k + i, n)
  {
    if calls > 0 {
      AddMod(CursorAfter(start, n, k, calls - 1) + k, i, n);
      CallsAreContiguous(start, n, k, calls - 1, k + i);
      assert (calls - 1) * k + (k + i) == calls * k + i;
    } else {
      assert calls * k == 0;
    }
  }

  /** The way from the cursor to `p`, going round. */
  lemma Distance(start: nat, n: nat, p: nat) returns (d: nat)
    requires p < n
    ensures d < n && At(start, d, n) == p
  {
    var q, r := start / n, start % n;
    if r <= p {
      d := p - r;
      Remainder(start + d, q, p, n);
    } else {
      d := p + n - r;
      assert (q + 1) * n == q * n + n;
      Remainder(start + d, q + 1, p, n);
    }
  }

  lemma Divide(d: nat, k: nat) returns (c: nat, i: nat)
    requires k > 0
    ensures i < k && d == c * k + i
  {
    c, i := d / k, d % k;
  }

  /** From any cursor, consecutive calls on an unchanged list that select at least `n`
      positions in all probe every pending id. */
  lemma EveryIdIsProbed(start: nat, n: nat, k: nat, calls: nat, p: nat)
    requires 0 < k <= n && p < n && calls * k >= n
    ensures Probed(start, n, k, calls, p)
  {
    var d := Distance(start, n, p);
    var c, i := Divide(d, k);
    CallsAreContiguous(start, n, k, c, i);
    assert (c - calls) * k == c * k - calls * k;
    Multiples(c - calls, k);
    assert c < calls && i < k && At(CursorAfter(start, n, k, c), i, n) == p;
  }

  /** Fewer positions leave some id unprobed: the position just before the cursor. */
  lemma FewerCallsMissAnId(start: nat, n: nat, k: nat, calls: nat)
    requires 0 < k <= n && calls * k < n
    ensures !Probed(start, n, k, calls, At(start, n - 1, n))
  {
    forall c: nat, i: nat | c < calls && i < k
      ensures At(CursorAfter(start, n, k, c), i, n) != At(start, n - 1, n)
    {
      CallsAreContiguous(start, n, k, c, i);
      assert (calls - c) * k == calls * k - c * k;
      Multiples(calls - c, k);
      PositionsAreDistinct(start, n, c * k + i, n - 1);
    }
  }

  /** ceil(n / k) calls are exactly enough, from any cursor. */
  lemma CeilingCallsAreExact(start: nat, n: nat, k: nat, calls: nat)
    requires 0 < k <= n
    ensures (forall p: nat :: p < n ==> Probed(start, n, k, calls, p)) <==> calls >= (n + k - 1) / k
  {
    var ceiling := (n + k - 1) / k;
    assert n + k - 1 == ceiling * k + (n + k - 1) % k;
    assert (calls - ceiling) * k == calls * k - ceiling * k;
    Multiples(calls - ceiling, k);
    if calls >= ceiling {
      assert calls * k >= n;
      forall p: nat | p < n ensures Probed(start, n, k, calls, p) {
        EveryIdIsProbed(start, n, k, calls, p);
      }
    } else {
      FewerCallsMissAnId(start, n, k, calls);
    }
  }
}
