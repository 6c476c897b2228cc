/** Finding the order a QMT event belongs to: one query per event, or one batch that fills an
    insertion-ordered cache. */
module CorrelationLookup {
  import opened Wrappers
  import opened OrderStore

  const CACHE_MAX_KEYS: nat := 60000
  const QUERY_CHUNK_SIZE: nat := 400

  // qmt_correlation_value

  predicate IsSpace(c: char) {
    c == ' ' || c == '\t' || c == '\n' || c == '\r' || c as int in {11, 12, 28, 29, 30, 31}
  }

  function Strip(s: string): string
    decreases |s|
  {
    if s == [] then s
    else if IsSpace(s[0]) then Strip(s[1..])
    else if IsSpace(s[|s| - 1]) then Strip(s[..|s| - 1])
    else s
  }

  predicate AllSpace(s: string) {
    forall i :: 0 <= i < |s| ==> IsSpace(s[i])
  }

  /** `s` without white space at its ends is `core`. */
  predicate Trims(s: string, left: string, core: string, right: string) {
    s == left + core + right && AllSpace(left) && AllSpace(right)
  }

  lemma TrimsMoreLeft(s: string, left: string, core: string, right: string)
    requires s != [] && IsSpace(s[0]) && Trims(s[1..], left, core, right)
    ensures Trims(s, [s[0]] + left, core, right)
  {
    assert s == [s[0]] + s[1..];
  }

  lemma TrimsMoreRight(s: string, left: string, core: string, right: string)
    requires s != [] && IsSpace(s[|s| - 1]) && Trims(s[..|s| - 1], left, core, right)
    ensures Trims(s, left, core, right + [s[|s| - 1]])
  {
    assert s == s[..|s| - 1] + [s[|s| - 1]];
  }

  /** Only white space goes, at both ends, and none is left there. */
  lemma {:induction false} StripTrims(s: string) returns (left: string, right: string)
    ensures Trims(s, left, Strip(s), right)
    ensures Strip(s) != "" ==> !IsSpace(Strip(s)[0]) && !IsSpace(Strip(s)[|Strip(s)| - 1])
    decreases |s|
  {
    left, right := "", "";
    if s != [] && IsSpace(s[0]) {
      left, right := StripTrims(s[1..]);
      TrimsMoreLeft(s, left, Strip(s[1..]), right);
      left := [s[0]] + left;
    } else if s != [] && IsSpace(s[|s| - 1]) {
      left, right := StripTrims(s[..|s| - 1]);
      TrimsMoreRight(s, left, Strip(s[..|s| - 1]), right);
      right := right + [s[|s| - 1]];
    }
  }

  lemma {:induction false} StripIsIdempotent(s: string)
    ensures Strip(Strip(s)) == Strip(s)
    decreases |s|
  {
    if s != [] {
      if IsSpace(s[0]) {
        StripIsIdempotent(s[1..]);
      } else if IsSpace(s[|s| - 1]) {
        StripIsIdempotent(s[..|s| - 1]);
      }
    }
  }

  predicate IsAlnum(c: char) {
    '0' <= c <= '9' || 'a' <= c <= 'z' || 'A' <= c <= 'Z'
  }

  predicate IsHex(c: char) {
    '0' <= c <= '9' || 'a' <= c <= 'f' || 'A' <= c <= 'F'
  }

  /** A remark of the form `<trader>_<16 hex digits>`; the last underscore separates. */
  predicate GeneratedRemark(remark: string) {
    && 18 <= |remark| <= 23
    && remark[|remark| - 17] == '_'
    && (forall i :: 0 <= i < |remark| - 17 ==> IsAlnum(remark[i]))
    && (forall i :: |remark| - 16 <= i < |remark| ==> IsHex(remark[i]))
  }

  datatype Event = Event(orderId: string, orderSysid: string, qmtUserOrderId: string, orderRemark: string)

  function QmtValue(e: Event): string {
    var explicit := Strip(e.qmtUserOrderId);
    if explicit != "" then explicit
    else
      var remark := Strip(e.orderRemark);
      if GeneratedRemark(remark) then remark else ""
  }

  // The three columns, in order of precedence

  datatype Column = OrderId | OrderSysid | QmtId

  function Cell(row: Correlation, column: Column): string {
    match column
    case OrderId => row.progress.orderId.GetOr("")
    case OrderSysid => row.progress.orderSysid.GetOr("")
    case QmtId => row.identity.qmtUserOrderId
  }

  function Candidate(e: Event, column: Column): string {
    match column
    case OrderId => e.orderId
    case OrderSysid => e.orderSysid
    case QmtId => QmtValue(e)
  }

  predicate Usable(value: string) {
    value != "" && value != "0"
  }

  /** The rows of one account. */
  function Rows(orders: map<Key, Correlation>, account: string): set<Correlation> {
    set k | k in orders && k.account == account :: orders[k]
  }

  function Having(rows: set<Correlation>, column: Column, value: string): set<Correlation> {
    set row | row in rows && Cell(row, column) == value
  }

  predicate Newest(rows: set<Correlation>, row: Correlation) {
    row in rows && forall other :: other in rows ==> other.createdAt <= row.createdAt
  }

  /** No two rows were created at the same time. */
  predicate DistinctTimes(rows: set<Correlation>) {
    forall a, b :: a in rows && b in rows && a.createdAt == b.createdAt ==> a == b
  }

  /** The first column with a usable value that occurs decides, by its newest row. */
  predicate Resolves(rows: set<Correlation>, e: Event, columns: seq<Column>, r: Option<Correlation>) {
    if columns == [] then r.None?
    else
      var value := Candidate(e, columns[0]);
      var hits := Having(rows, columns[0], value);
      if Usable(value) && hits != {} then r.Some? && Newest(hits, r.value)
      else Resolves(rows, e, columns[1..], r)
  }

  const COLUMNS := [OrderId, OrderSysid, QmtId]

  /** One query per column until a row is found. */
  method Resolve(orders: map<Key, Correlation>, account: string, e: Event) returns (r: Option<Correlation>)
    ensures Resolves(Rows(orders, account), e, COLUMNS, r)
  {
    var rows := Rows(orders, account);
    for i := 0 to |COLUMNS|
      invariant forall r :: Resolves(rows, e, COLUMNS[i..], r) ==> Resolves(rows, e, COLUMNS, r)
    {
      var value := Candidate(e, COLUMNS[i]);
      assert COLUMNS[i..][0] == COLUMNS[i] && COLUMNS[i..][1..] == COLUMNS[i + 1..];
      if Usable(value) {
        var hits := Having(rows, COLUMNS[i], value);
        if hits != {} {
          NewestExists(hits);
          var row :| Newest(hits, row);
          return Some(row);
        }
      }
    }
    return None;
  }

  function WithOrderId(rows: set<Correlation>, id: string): set<Correlation> {
    set row | row in rows && id !in {"", "0"} && row.progress.orderId.GetOr("") == id
  }

  function WithSysid(rows: set<Correlation>, id: string): set<Correlation> {
    set row | row in rows && id !in {"", "0"} && row.progress.orderSysid.GetOr("") == id
  }

  function WithQmtId(rows: set<Correlation>, id: string): set<Correlation> {
    set row | row in rows && id !in {"", "0"} && row.identity.qmtUserOrderId == id
  }

  lemma HavingByName(rows: set<Correlation>, id: string)
    ensures WithOrderId(rows, id) == if Usable(id) then Having(rows, OrderId, id) else {}
    ensures WithSysid(rows, id) == if Usable(id) then Having(rows, OrderSysid, id) else {}
    ensures WithQmtId(rows, id) == if Usable(id) then Having(rows, QmtId, id) else {}
  {
  }

  /** The columns by name: the order id wins over the system id, and that over the QMT id. */
  lemma PrecedenceOfIds(rows: set<Correlation>, e: Event, r: Option<Correlation>)
    ensures Resolves(rows, e, COLUMNS, r) <==>
      if WithOrderId(rows, e.orderId) != {} then r.Some? && Newest(WithOrderId(rows, e.orderId), r.value)
      else if WithSysid(rows, e.orderSysid) != {} then r.Some? && Newest(WithSysid(rows, e.orderSysid), r.value)
      else if WithQmtId(rows, QmtValue(e)) != {} then r.Some? && Newest(WithQmtId(rows, QmtValue(e)), r.value)
      else r.None?
  {
    HavingByName(rows, e.orderId);
    HavingByName(rows, e.orderSysid);
    HavingByName(rows, QmtValue(e));
    assert COLUMNS[1..] == [OrderSysid, QmtId] && [OrderSysid, QmtId][1..] == [QmtId] && [QmtId][1..] == [];
    assert Resolves(rows, e, [QmtId], r) <==>
      if WithQmtId(rows, QmtValue(e)) != {} then r.Some? && Newest(WithQmtId(rows, QmtValue(e)), r.value) else r.None?;
  }

  /** A remark made of one to six letters or digits, an underscore and sixteen hex digits. */
  predicate TraderAndHex(remark: string, trader: string, hex: string) {
    && remark == trader + "_" + hex && 1 <= |trader| <= 6 && |hex| == 16
    && (forall c :: c in trader ==> 'A' <= c <= 'Z' || 'a' <= c <= 'z' || '0' <= c <= '9')
    && (forall c :: c in hex ==> 'A' <= c <= 'F' || 'a' <= c <= 'f' || '0' <= c <= '9')
  }

  /** The QMT id an event is looked up by: its own one, or else a remark the Gateway
      generated; any other remark names no order. */
  lemma QmtIdOfAnEvent(e: Event)
    ensures Strip(e.qmtUserOrderId) != "" ==> QmtValue(e) == Strip(e.qmtUserOrderId)
    ensures Strip(e.qmtUserOrderId) == "" ==>
      if exists trader, hex :: TraderAndHex(Strip(e.orderRemark), trader, hex) then QmtValue(e) == Strip(e.orderRemark)
      else QmtValue(e) == ""
  {
    var remark := Strip(e.orderRemark);
    if GeneratedRemark(remark) {
      var n := |remark| - 17;
      var trader, hex := remark[..n], remark[n + 1..];
      assert remark == trader + "_" + hex;
      assert TraderAndHex(remark, trader, hex);
    }
    forall trader, hex | TraderAndHex(remark, trader, hex) ensures GeneratedRemark(remark) {
      var n := |trader|;
      assert forall i :: 0 <= i < n ==> remark[i] == trader[i] && trader[i] in trader;
      assert forall i :: n < i < |remark| ==> remark[i] == hex[i - n - 1] && hex[i - n - 1] in hex;
    }
  }

  lemma {:induction false} NewestExists(rows: set<Correlation>)
    requires rows != {}
    ensures exists row :: Newest(rows, row)
    decreases |rows|
  {
    var row :| row in rows;
    if rows == {row} {
      assert Newest(rows, row);
    } else {
      NewestExists(rows - {row});
      var other :| Newest(rows - {row}, other);
      assert Newest(rows, if row.createdAt > other.createdAt then row else other);
    }
  }

  // resolve_many

  predicate Wanted(row: Correlation, events: seq<Event>) {
    exists e, c :: e in events && c in COLUMNS && Usable(Candidate(e, c)) && Cell(row, c) == Candidate(e, c)
  }

  predicate Older(a: Correlation, b: Correlation) {
    a.createdAt < b.createdAt || (a.createdAt == b.createdAt && a.rowid < b.rowid)
  }

  predicate OldestFirst(batch: seq<Correlation>) {
    forall i, j :: 0 <= i < j < |batch| ==> Older(batch[i], batch[j])
  }

  predicate DistinctRowids(rows: set<Correlation>) {
    forall a, b :: a in rows && b in rows && a.rowid == b.rowid ==> a == b
  }

  /** Exactly the rows some event asks for, oldest first. */
  ghost predicate IsBatch(rows: set<Correlation>, events: seq<Event>, batch: seq<Correlation>) {
    && (forall row :: row in batch <==> row in rows && Wanted(row, events))
    && OldestFirst(batch)
  }

  method ResolveMany(orders: map<Key, Correlation>, account: string, events: seq<Event>) returns (batch: seq<Correlation>)
    requires DistinctRowids(Rows(orders, account))
    ensures IsBatch(Rows(orders, account), events, batch)
  {
    var rows := Rows(orders, account);
    var found: set<Correlation> := {};
    for i := 0 to |COLUMNS|
      invariant forall row :: row in found <==> row in rows && exists c :: c in COLUMNS[..i] && Cell(row, c) in Values(events, c)
    {
      var column := COLUMNS[i];
      var values := Elements(Values(events, column));
      var hits := QueryColumn(rows, column, values);
      assert COLUMNS[..i + 1] == COLUMNS[..i] + [column];
      found := found + hits;
    }
    forall row | row in rows
      ensures Wanted(row, events) <==> exists c :: c in COLUMNS[..|COLUMNS|] && Cell(row, c) in Values(events, c)
    {
      assert COLUMNS[..|COLUMNS|] == COLUMNS;
      WantedByValue(row, events);
    }
    batch := Sort(found);
  }

  lemma WantedByValue(row: Correlation, events: seq<Event>)
    ensures Wanted(row, events) <==> exists c :: c in COLUMNS && Cell(row, c) in Values(events, c)
  {
    if c :| c in COLUMNS && Cell(row, c) in Values(events, c) {
      var e :| e in events && Usable(Candidate(e, c)) && Candidate(e, c) == Cell(row, c);
    }
  }

  /** The usable candidates of a column over all events. */
  function Values(events: seq<Event>, column: Column): set<string> {
    set e | e in events && Usable(Candidate(e, column)) :: Candidate(e, column)
  }

  method Elements(values: set<string>) returns (s: seq<string>)
    ensures forall v :: v in s <==> v in values
  {
    s := [];
    var rest := values;
    while rest != {}
      invariant rest <= values && forall v :: v in s <==> v in values - rest
      decreases |rest|
    {
      var v :| v in rest;
      s, rest := s + [v], rest - {v};
    }
  }

  /** SELECT ... WHERE column IN (...), a bounded number of values at a time. */
  method QueryColumn(rows: set<Correlation>, column: Column, values: seq<string>) returns (hits: set<Correlation>)
    ensures hits == set row | row in rows && Cell(row, column) in values
  {
    hits := {};
    var offset := 0;
    while offset < |values|
      invariant 0 <= offset
      invariant forall row :: row in hits <==> row in rows && Cell(row, column) in Prefix(values, offset)
    {
      var end := if offset + QUERY_CHUNK_SIZE < |values| then offset + QUERY_CHUNK_SIZE else |values|;
      var chunk := values[offset..end];
      assert Prefix(values, offset + QUERY_CHUNK_SIZE) == Prefix(values, offset) + chunk;
      hits := hits + set row | row in rows && Cell(row, column) in chunk;
      offset := offset + QUERY_CHUNK_SIZE;
    }
    assert Prefix(values, offset) == values;
  }

  method Sort(rows: set<Correlation>) returns (batch: seq<Correlation>)
    requires DistinctRowids(rows)
    ensures forall row :: row in batch <==> row in rows
    ensures OldestFirst(batch)
  {
    batch := [];
    var rest := rows;
    while rest != {}
      invariant rest <= rows && forall row :: row in batch <==> row in rows - rest
      invariant OldestFirst(batch)
      invariant forall a, b :: a in batch && b in rest ==> Older(a, b)
      decreases |rest|
    {
      ghost var oldest := OldestExists(rest);
      var row :| Oldest(rest, row);
      batch, rest := Append(batch, row, rest);
    }
  }

  predicate Oldest(rows: set<Correlation>, row: Correlation) {
    row in rows && forall other :: other in rows && other != row ==> Older(row, other)
  }

  /** Moving the oldest remaining row to the end of a sorted batch keeps it sorted. */
  method Append(batch: seq<Correlation>, row: Correlation, rest: set<Correlation>)
    returns (batch': seq<Correlation>, rest': set<Correlation>)
    requires OldestFirst(batch) && Oldest(rest, row)
    requires forall a, b :: a in batch && b in rest ==> Older(a, b)
    ensures batch' == batch + [row] && rest' == rest - {row} && |rest'| < |rest|
    ensures OldestFirst(batch')
    ensures forall a, b :: a in batch' && b in rest' ==> Older(a, b)
  {
    batch', rest' := batch + [row], rest - {row};
  }

  lemma OlderIsTotal(rows: set<Correlation>, a: Correlation, b: Correlation)
    requires DistinctRowids(rows) && a in rows && b in rows && a != b
    ensures Older(a, b) || Older(b, a)
  {
  }

  lemma OlderIsTransitive(a: Correlation, b: Correlation, c: Correlation)
    requires Older(a, b) && Older(b, c)
    ensures Older(a, c)
  {
  }

  lemma {:induction false} OldestExists(rows: set<Correlation>) returns (first: Correlation)
    requires rows != {} && DistinctRowids(rows)
    ensures Oldest(rows, first)
    decreases |rows|
  {
    var row :| row in rows;
    var rest := rows - {row};
    if rest == {} {
      first := row;
      assert rows == {row};
    } else {
      var oldest := OldestExists(rest);
      OlderIsTotal(rows, row, oldest);
      if Older(row, oldest) {
        first := row;
        forall other | other in rows && other != first ensures Older(first, other) {
          assert other in rest;
          if other != oldest {
            OlderIsTransitive(row, oldest, other);
          }
        }
      } else {
        first := oldest;
        forall other | other in rows && other != first ensures Older(first, other) {
          assert other == row || other in rest;
        }
      }
    }
  }

  // The cache: an insertion-ordered dictionary

  datatype MatchKey = MatchKey(column: Column, value: string)

  datatype Entry = Entry(key: MatchKey, row: Correlation)

  function KeyIf(column: Column, value: string): seq<MatchKey> {
    if Usable(value) then [MatchKey(column, value)] else []
  }

  /** The keys of explicit ids, then the key of the derived QMT id if it is another one. */
  function MatchKeys(orderId: string, orderSysid: string, rawQmtId: string, qmtId: string): seq<MatchKey> {
    var keys := KeyIf(OrderId, orderId) + KeyIf(OrderSysid, orderSysid) + KeyIf(QmtId, rawQmtId);
    if Usable(qmtId) && MatchKey(QmtId, qmtId) !in keys then keys + [MatchKey(QmtId, qmtId)] else keys
  }

  function EventKeys(e: Event): seq<MatchKey> {
    MatchKeys(e.orderId, e.orderSysid, e.qmtUserOrderId, QmtValue(e))
  }

  function RowKeys(row: Correlation): seq<MatchKey> {
    MatchKeys(Cell(row, OrderId), Cell(row, OrderSysid), Cell(row, QmtId), Strip(Cell(row, QmtId)))
  }

  function Find(entries: seq<Entry>, key: MatchKey): Option<Correlation> {
    if entries == [] then None
    else
      var last := entries[|entries| - 1];
      if last.key == key then Some(last.row) else Find(entries[..|entries| - 1], key)
  }

  function Without(entries: seq<Entry>, key: MatchKey): (r: seq<Entry>)
    ensures |r| <= |entries|
  {
    if entries == [] then []
    else
      var last := entries[|entries| - 1];
      var rest := Without(entries[..|entries| - 1], key);
      if last.key == key then rest else rest + [last]
  }

  function PutAll(entries: seq<Entry>, keys: seq<MatchKey>, row: Correlation): seq<Entry> {
    if keys == [] then entries
    else
      var key := keys[|keys| - 1];
      Without(PutAll(entries, keys[..|keys| - 1], row), key) + [Entry(key, row)]
  }

  function Newer(entries: seq<Entry>, limit: nat): seq<Entry> {
    if |entries| > limit then entries[|entries| - limit..] else entries
  }

  function Remembered(entries: seq<Entry>, row: Correlation): seq<Entry> {
    Newer(PutAll(entries, RowKeys(row), row), CACHE_MAX_KEYS)
  }

  function Filled(entries: seq<Entry>, batch: seq<Correlation>): seq<Entry> {
    if batch == [] then entries else Remembered(Filled(entries, batch[..|batch| - 1]), batch[|batch| - 1])
  }

  function FirstHit(entries: seq<Entry>, keys: seq<MatchKey>): Option<Correlation> {
    if keys == [] then None
    else if Find(entries, keys[0]).Some? then Find(entries, keys[0])
    else FirstHit(entries, keys[1..])
  }

  /** Every key moves to the end of the dictionary. */
  method PutKeys(entries: seq<Entry>, keys: seq<MatchKey>, row: Correlation) returns (r: seq<Entry>)
    ensures r == PutAll(entries, keys, row)
  {
    r := entries;
    for i := 0 to |keys|
      invariant r == PutAll(entries, keys[..i], row)
    {
      assert keys[..i + 1][..i] == keys[..i];
      r := Without(r, keys[i]) + [Entry(keys[i], row)];
    }
    assert keys[..|keys|] == keys;
  }

  method DropOldest(entries: seq<Entry>, limit: nat) returns (r: seq<Entry>)
    ensures r == Newer(entries, limit)
  {
    r := entries;
    while |r| > limit
      invariant r == Newer(entries, |r|)
      invariant |r| < |entries| ==> |r| >= limit
    {
      r := r[1..];
    }
  }

  class CorrelationCache {
    var entries: seq<Entry>

    constructor ()
      ensures entries == []
    {
      entries := [];
    }

    /** remember_order_correlation. */
    method Remember(row: Correlation)
      modifies this
      ensures entries == Remembered(old(entries), row)
      ensures var all := Others(old(entries), RowKeys(row)) + EntriesOf(RowKeys(row), row);
        entries == if |all| > 60000 then all[|all| - 60000..] else all
      ensures |entries| <= 60000 && forall key :: Carries(row, key) ==> Find(entries, key) == Some(row)
    {
      RowIsRemembered(entries, row);
      entries := PutKeys(entries, RowKeys(row), row);
      entries := DropOldest(entries, CACHE_MAX_KEYS);
    }

    /** Remember a batch, in order. */
    method Fill(batch: seq<Correlation>)
      modifies this
      ensures entries == Filled(old(entries), batch)
    {
      for i := 0 to |batch|
        invariant entries == Filled(old(entries), batch[..i])
      {
        assert batch[..i + 1][..i] == batch[..i];
        Remember(batch[i]);
      }
      assert batch[..|batch|] == batch;
    }

    /** resolve_order_correlation: a hit becomes the most recently used entry. */
    method Lookup(e: Event) returns (r: Option<Correlation>)
      modifies this
      ensures r == FirstHit(old(entries), EventKeys(e))
      ensures r.None? ==> entries == old(entries)
      ensures r.Some? ==> exists key :: key in EventKeys(e) && Find(old(entries), key) == r
                            && entries == Others(old(entries), [key]) + [Entry(key, r.value)]
      ensures forall key :: Find(entries, key) == Find(old(entries), key)
    {
      var keys := EventKeys(e);
      for i := 0 to |keys|
        invariant entries == old(entries)
        invariant FirstHit(entries, keys) == FirstHit(entries, keys[i..])
      {
        assert keys[i..][0] == keys[i] && keys[i..][1..] == keys[i + 1..];
        r := Find(entries, keys[i]);
        if r.Some? {
          forall key ensures Find(Without(entries, keys[i]) + [Entry(keys[i], r.value)], key) == Find(entries, key) {
            FindAfterPut(entries, keys[i], r.value, key);
          }
          WithoutIsOthers(entries, keys[i]);
          entries := Without(entries, keys[i]) + [Entry(keys[i], r.value)];
          return;
        }
      }
      r := None;
    }
  }

  /** The entries with none of these keys, in their order. */
  function Others(entries: seq<Entry>, keys: seq<MatchKey>): seq<Entry> {
    if entries == [] then [] else (if entries[0].key in keys then [] else [entries[0]]) + Others(entries[1..], keys)
  }

  function EntriesOf(keys: seq<MatchKey>, row: Correlation): (r: seq<Entry>)
    ensures |r| == |keys| && forall i :: 0 <= i < |keys| ==> r[i] == Entry(keys[i], row)
  {
    seq(|keys|, i requires 0 <= i < |keys| => Entry(keys[i], row))
  }

  lemma {:induction false} OthersOfConcat(a: seq<Entry>, b: seq<Entry>, keys: seq<MatchKey>)
    ensures Others(a + b, keys) == Others(a, keys) + Others(b, keys)
  {
    if a == [] {
      assert a + b == b;
    } else {
      assert (a + b)[1..] == a[1..] + b && (a + b)[0] == a[0];
      OthersOfConcat(a[1..], b, keys);
    }
  }

  lemma {:induction false} WithoutIsOthers(entries: seq<Entry>, key: MatchKey)
    ensures Without(entries, key) == Others(entries, [key])
  {
    if entries != [] {
      var init, last := entries[..|entries| - 1], entries[|entries| - 1];
      WithoutIsOthers(init, key);
      assert entries == init + [last];
      OthersOfConcat(init, [last], [key]);
      assert [last][1..] == [];
    }
  }

  lemma {:induction false} OthersTwice(entries: seq<Entry>, keys: seq<MatchKey>, key: MatchKey)
    ensures Others(Others(entries, keys), [key]) == Others(entries, keys + [key])
  {
    if entries != [] {
      OthersTwice(entries[1..], keys, key);
      var head := if entries[0].key in keys then [] else [entries[0]];
      OthersOfConcat(head, Others(entries[1..], keys), [key]);
      if entries[0].key !in keys {
        assert head[1..] == [];
      }
    }
  }

  lemma {:induction false} NothingToLeaveOut(entries: seq<Entry>, key: MatchKey)
    requires forall e :: e in entries ==> e.key != key
    ensures Others(entries, [key]) == entries
  {
    if entries != [] {
      assert entries[0] in entries && entries == [entries[0]] + entries[1..];
      NothingToLeaveOut(entries[1..], key);
    }
  }

  predicate DistinctKeys(keys: seq<MatchKey>) {
    forall i, j :: 0 <= i < j < |keys| ==> keys[i] != keys[j]
  }

  lemma PutMovesToEnd(entries: seq<Entry>, keys: seq<MatchKey>, key: MatchKey, row: Correlation)
    requires key !in keys
    ensures Without(Others(entries, keys) + EntriesOf(keys, row), key) + [Entry(key, row)]
            == Others(entries, keys + [key]) + EntriesOf(keys + [key], row)
  {
    var before, moved := Others(entries, keys), EntriesOf(keys, row);
    calc {
      Without(before + moved, key);
      { WithoutIsOthers(before + moved, key); }
      Others(before + moved, [key]);
      { OthersOfConcat(before, moved, [key]); }
      Others(before, [key]) + Others(moved, [key]);
      { OthersTwice(entries, keys, key); NothingToLeaveOut(moved, key); }
      Others(entries, keys + [key]) + moved;
    }
    assert EntriesOf(keys + [key], row) == moved + [Entry(key, row)];
  }

  /** Putting keys one after the other moves them behind all other entries. */
  lemma {:induction false} PutAllMovesToEnd(entries: seq<Entry>, keys: seq<MatchKey>, row: Correlation)
    requires DistinctKeys(keys)
    ensures PutAll(entries, keys, row) == Others(entries, keys) + EntriesOf(keys, row)
  {
    if keys == [] {
      NothingLeftOut(entries);
    } else {
      var init, last := keys[..|keys| - 1], keys[|keys| - 1];
      PutAllMovesToEnd(entries, init, row);
      PutMovesToEnd(entries, init, last, row);
      assert init + [last] == keys;
    }
  }

  lemma {:induction false} NothingLeftOut(entries: seq<Entry>)
    ensures Others(entries, []) == entries
  {
    if entries != [] {
      NothingLeftOut(entries[1..]);
    }
  }

  lemma RowKeysAreDistinct(row: Correlation)
    ensures DistinctKeys(RowKeys(row)) && |RowKeys(row)| <= 4
  {
    var keys := KeyIf(OrderId, Cell(row, OrderId)) + KeyIf(OrderSysid, Cell(row, OrderSysid)) + KeyIf(QmtId, Cell(row, QmtId));
    assert DistinctKeys(keys);
  }

  /** The row's keys become the newest entries, and the oldest others beyond the cap go. */
  lemma RowIsRemembered(entries: seq<Entry>, row: Correlation)
    ensures var all := Others(entries, RowKeys(row)) + EntriesOf(RowKeys(row), row);
      Remembered(entries, row) == if |all| > 60000 then all[|all| - 60000..] else all
    ensures forall key :: Carries(row, key) ==> Find(Remembered(entries, row), key) == Some(row)
  {
    var keys := RowKeys(row);
    RowKeysAreDistinct(row);
    PutAllMovesToEnd(entries, keys, row);
    var r, n := Remembered(entries, row), |keys|;
    assert r[|r| - n..] == EntriesOf(keys, row);
    forall key | Carries(row, key) ensures Find(r, key) == Some(row) {
      RowKeysAreCarried(row, key);
      FindInTail(r, keys, row, key);
    }
  }

  lemma {:induction false} FindInTail(entries: seq<Entry>, keys: seq<MatchKey>, row: Correlation, key: MatchKey)
    requires |keys| <= |entries| && entries[|entries| - |keys|..] == EntriesOf(keys, row) && key in keys
    ensures Find(entries, key) == Some(row)
  {
    var n, m := |keys| - 1, |entries| - 1;
    assert entries[m] == entries[m - n..][n] == Entry(keys[n], row);
    if keys[n] != key {
      assert keys == keys[..n] + [keys[n]];
      assert entries[..m][m - n..] == entries[m - n..][..n] == EntriesOf(keys, row)[..n] == EntriesOf(keys[..n], row);
      FindInTail(entries[..m], keys[..n], row, key);
    }
  }

  lemma FindAfterPut(entries: seq<Entry>, key: MatchKey, row: Correlation, other: MatchKey)
    ensures Find(Without(entries, key) + [Entry(key, row)], other) == if other == key then Some(row) else Find(entries, other)
  {
    var put := Without(entries, key) + [Entry(key, row)];
    assert put[..|put| - 1] == Without(entries, key);
    FindAfterRemoval(entries, key, other);
  }

  lemma {:induction false} FindAfterRemoval(entries: seq<Entry>, key: MatchKey, other: MatchKey)
    ensures Find(Without(entries, key), other) == if other == key then None else Find(entries, other)
  {
    if entries != [] {
      var init, last := entries[..|entries| - 1], entries[|entries| - 1];
      FindAfterRemoval(init, key, other);
      if last.key != key {
        assert (Without(init, key) + [last])[..|Without(init, key)|] == Without(init, key);
      }
    }
  }

  lemma {:induction false} FindAfterPutAll(entries: seq<Entry>, keys: seq<MatchKey>, row: Correlation, key: MatchKey)
    ensures Find(PutAll(entries, keys, row), key) == if key in keys then Some(row) else Find(entries, key)
  {
    if keys != [] {
      var init, last := keys[..|keys| - 1], keys[|keys| - 1];
      FindAfterPutAll(entries, init, row, key);
      FindAfterPut(PutAll(entries, init, row), last, row, key);
      assert keys == init + [last];
    }
  }

  // The cache holds one entry per key

  function KeysOf(entries: seq<Entry>): set<MatchKey> {
    if entries == [] then {} else KeysOf(entries[..|entries| - 1]) + {entries[|entries| - 1].key}
  }

  predicate Distinct(entries: seq<Entry>) {
    entries == [] || (entries[|entries| - 1].key !in KeysOf(entries[..|entries| - 1]) && Distinct(entries[..|entries| - 1]))
  }

  lemma {:induction false} SizeIsKeyCount(entries: seq<Entry>)
    requires Distinct(entries)
    ensures |entries| == |KeysOf(entries)|
  {
    if entries != [] {
      SizeIsKeyCount(entries[..|entries| - 1]);
    }
  }

  lemma AppendKeepsDistinct(entries: seq<Entry>, e: Entry)
    requires Distinct(entries) && e.key !in KeysOf(entries)
    ensures Distinct(entries + [e]) && KeysOf(entries + [e]) == KeysOf(entries) + {e.key}
  {
    assert (entries + [e])[..|entries|] == entries;
  }

  lemma {:induction false} RemovalKeepsDistinct(entries: seq<Entry>, key: MatchKey)
    requires Distinct(entries)
    ensures Distinct(Without(entries, key)) && KeysOf(Without(entries, key)) == KeysOf(entries) - {key}
  {
    if entries != [] {
      var init, last := entries[..|entries| - 1], entries[|entries| - 1];
      RemovalKeepsDistinct(init, key);
      if last.key != key {
        AppendKeepsDistinct(Without(init, key), last);
      }
    }
  }

  function KeySet(keys: seq<MatchKey>): set<MatchKey> {
    if keys == [] then {} else KeySet(keys[..|keys| - 1]) + {keys[|keys| - 1]}
  }

  lemma PutKeepsDistinct(entries: seq<Entry>, key: MatchKey, row: Correlation)
    requires Distinct(entries)
    ensures Distinct(Without(entries, key) + [Entry(key, row)])
    ensures KeysOf(Without(entries, key) + [Entry(key, row)]) == KeysOf(entries) + {key}
  {
    RemovalKeepsDistinct(entries, key);
    AppendKeepsDistinct(Without(entries, key), Entry(key, row));
  }

  lemma {:induction false} PutAllKeepsDistinct(entries: seq<Entry>, keys: seq<MatchKey>, row: Correlation)
    requires Distinct(entries)
    ensures Distinct(PutAll(entries, keys, row))
    ensures KeysOf(PutAll(entries, keys, row)) == KeysOf(entries) + KeySet(keys)
  {
    if keys != [] {
      var init, last := keys[..|keys| - 1], keys[|keys| - 1];
      PutAllKeepsDistinct(entries, init, row);
      PutKeepsDistinct(PutAll(entries, init, row), last, row);
    }
  }

  /** All keys under which a batch is remembered. */
  function BatchKeys(batch: seq<Correlation>): set<MatchKey> {
    if batch == [] then {} else BatchKeys(batch[..|batch| - 1]) + KeySet(RowKeys(batch[|batch| - 1]))
  }

  /** Below its cap the cache forgets nothing: one entry per key of the batch. */
  lemma {:induction false} FilledKeepsAll(batch: seq<Correlation>)
    requires |BatchKeys(batch)| <= CACHE_MAX_KEYS
    ensures Distinct(Filled([], batch)) && KeysOf(Filled([], batch)) == BatchKeys(batch)
    ensures batch != [] ==>
      var n := |batch| - 1;
      |BatchKeys(batch[..n])| <= CACHE_MAX_KEYS
      && Filled([], batch) == PutAll(Filled([], batch[..n]), RowKeys(batch[n]), batch[n])
  {
    if batch != [] {
      var init, last := batch[..|batch| - 1], batch[|batch| - 1];
      SubsetSize(BatchKeys(init), BatchKeys(batch));
      FilledKeepsAll(init);
      PutAllKeepsDistinct(Filled([], init), RowKeys(last), last);
      SizeIsKeyCount(PutAll(Filled([], init), RowKeys(last), last));
    }
  }

  /** A row is remembered under its raw ids and under its stripped QMT id. */
  predicate Carries(row: Correlation, key: MatchKey) {
    && Usable(key.value)
    && (Cell(row, key.column) == key.value || (key.column.QmtId? && Strip(Cell(row, QmtId)) == key.value))
  }

  lemma RowKeysAreCarried(row: Correlation, key: MatchKey)
    ensures key in RowKeys(row) <==> Carries(row, key)
  {
    KeysOfIds(Cell(row, OrderId), Cell(row, OrderSysid), Cell(row, QmtId), Strip(Cell(row, QmtId)), key);
  }

  lemma KeysOfIds(orderId: string, orderSysid: string, rawQmtId: string, qmtId: string, key: MatchKey)
    ensures key in MatchKeys(orderId, orderSysid, rawQmtId, qmtId) <==>
      && Usable(key.value)
      && (|| key == MatchKey(OrderId, orderId) || key == MatchKey(OrderSysid, orderSysid)
          || key == MatchKey(QmtId, rawQmtId) || key == MatchKey(QmtId, qmtId))
  {
    assert key in KeyIf(OrderId, orderId) <==> Usable(orderId) && key == MatchKey(OrderId, orderId);
    assert key in KeyIf(OrderSysid, orderSysid) <==> Usable(orderSysid) && key == MatchKey(OrderSysid, orderSysid);
    assert key in KeyIf(QmtId, rawQmtId) <==> Usable(rawQmtId) && key == MatchKey(QmtId, rawQmtId);
  }

  /** The last of the first `n` rows of a batch that carries a key, or -1. */
  function LastCarrier(batch: seq<Correlation>, key: MatchKey, n: nat): (i: int)
    requires n <= |batch|
    ensures -1 <= i < n
    ensures forall j :: i < j < n ==> !Carries(batch[j], key)
    ensures i >= 0 ==> Carries(batch[i], key)
  {
    if n == 0 then -1
    else if Carries(batch[n - 1], key) then n - 1
    else LastCarrier(batch, key, n - 1)
  }

  lemma FilledStep(batch: seq<Correlation>, key: MatchKey)
    requires batch != [] && |BatchKeys(batch)| <= CACHE_MAX_KEYS
    ensures var n := |batch| - 1;
      && |BatchKeys(batch[..n])| <= CACHE_MAX_KEYS
      && Find(Filled([], batch), key) == if Carries(batch[n], key) then Some(batch[n]) else Find(Filled([], batch[..n]), key)
  {
    var n := |batch| - 1;
    FilledKeepsAll(batch);
    FindAfterPutAll(Filled([], batch[..n]), RowKeys(batch[n]), batch[n], key);
    RowKeysAreCarried(batch[n], key);
  }

  lemma {:induction false} FilledFindsLast(batch: seq<Correlation>, key: MatchKey, n: nat)
    requires n <= |batch| && |BatchKeys(batch[..n])| <= CACHE_MAX_KEYS
    ensures var i := LastCarrier(batch, key, n);
      Find(Filled([], batch[..n]), key) == if i >= 0 then Some(batch[i]) else None
  {
    if n > 0 {
      var prefix := batch[..n];
      assert prefix[..n - 1] == batch[..n - 1] && prefix[n - 1] == batch[n - 1];
      FilledStep(prefix, key);
      FilledFindsLast(batch, key, n - 1);
    }
  }

  // Agreement

  /** The cache answers a key with the newest row of the batch that carries it. */
  lemma CacheFindsNewestCarrier(batch: seq<Correlation>, key: MatchKey)
    requires OldestFirst(batch) && |BatchKeys(batch)| <= CACHE_MAX_KEYS
    ensures var hit := Find(Filled([], batch), key);
      && (hit.None? ==> forall row :: row in batch ==> !Carries(row, key))
      && (hit.Some? ==> hit.value in batch && Carries(hit.value, key)
                        && forall row :: row in batch && Carries(row, key) && row != hit.value ==> Older(row, hit.value))
  {
    var n := |batch|;
    assert batch[..n] == batch;
    FilledFindsLast(batch, key, n);
    LastIsNewest(batch, key, LastCarrier(batch, key, n));
  }

  lemma LastIsNewest(batch: seq<Correlation>, key: MatchKey, i: int)
    requires OldestFirst(batch) && -1 <= i < |batch|
    requires forall j :: i < j < |batch| ==> !Carries(batch[j], key)
    ensures i < 0 ==> forall row :: row in batch ==> !Carries(row, key)
    ensures i >= 0 ==> forall row :: row in batch && Carries(row, key) && row != batch[i] ==> Older(row, batch[i])
  {
    forall row | row in batch && Carries(row, key) ensures i >= 0 && (row == batch[i] || Older(row, batch[i])) {
      var j :| 0 <= j < |batch| && batch[j] == row;
      assert j <= i;
    }
  }

  /** The rows some event asks for by a value are in its batch. */
  lemma HitsAreInBatch(rows: set<Correlation>, events: seq<Event>, batch: seq<Correlation>, e: Event, column: Column)
    requires IsBatch(rows, events, batch) && e in events && Usable(Candidate(e, column))
    ensures forall row :: row in Having(rows, column, Candidate(e, column)) ==> row in batch
  {
    assert column in COLUMNS;
    forall row | row in Having(rows, column, Candidate(e, column)) ensures row in batch {
      assert Wanted(row, events);
    }
  }

  /** For an explicit order id the cache finds what the query of its column finds. */
  lemma CacheAnswersOrderIds(rows: set<Correlation>, events: seq<Event>, batch: seq<Correlation>, e: Event, column: Column)
    requires IsBatch(rows, events, batch) && e in events && !column.QmtId? && Usable(Candidate(e, column))
    requires |BatchKeys(batch)| <= CACHE_MAX_KEYS
    ensures var hit := Find(Filled([], batch), MatchKey(column, Candidate(e, column)));
      var hits := Having(rows, column, Candidate(e, column));
      if hits == {} then hit.None? else hit.Some? && Newest(hits, hit.value)
  {
    var key := MatchKey(column, Candidate(e, column));
    CacheFindsNewestCarrier(batch, key);
    HitsAreInBatch(rows, events, batch, e, column);
    CarriersAreHits(rows, events, batch, column, key.value);
  }

  /** Rows carry an order id or system id only unstripped. */
  lemma CarriersAreHits(rows: set<Correlation>, events: seq<Event>, batch: seq<Correlation>, column: Column, value: string)
    requires IsBatch(rows, events, batch) && !column.QmtId? && Usable(value)
    ensures forall row :: row in Having(rows, column, value) <==> row in rows && Carries(row, MatchKey(column, value))
    ensures forall row :: row in batch ==> row in rows
  {
  }

  // Unstripped QMT ids

  predicate Unstripped(row: Correlation) {
    Strip(Cell(row, QmtId)) != Cell(row, QmtId)
  }

  /** An unstripped row of the batch answers the event instead of its query: it has exactly the
      raw id of the event, or strips to its id and is newer than every row that has it. */
  predicate Disturbs(rows: set<Correlation>, events: seq<Event>, e: Event, row: Correlation) {
    var id := Cell(row, QmtId);
    && row in rows && Wanted(row, events) && Unstripped(row)
    && (|| (Usable(e.qmtUserOrderId) && id == e.qmtUserOrderId)
        || (Usable(QmtValue(e)) && Strip(id) == QmtValue(e)
            && forall other :: other in Having(rows, QmtId, QmtValue(e)) ==> Older(other, row)))
  }

  /** No explicit order id decides and some row disturbs. */
  predicate Misled(rows: set<Correlation>, events: seq<Event>, e: Event) {
    !Hits(rows, e, OrderId) && !Hits(rows, e, OrderSysid) && exists row :: row in rows && Disturbs(rows, events, e, row)
  }

  predicate QmtAnswered(rows: set<Correlation>, e: Event, r: Option<Correlation>) {
    if Hits(rows, e, QmtId) then r.Some? && Newest(Having(rows, QmtId, QmtValue(e)), r.value) else r.None?
  }

  lemma QmtValueIsStripped(e: Event)
    ensures Strip(QmtValue(e)) == QmtValue(e)
    ensures Strip(e.qmtUserOrderId) == e.qmtUserOrderId != "" ==> QmtValue(e) == e.qmtUserOrderId
    ensures Strip(e.qmtUserOrderId) != e.qmtUserOrderId ==> QmtValue(e) != e.qmtUserOrderId
  {
    StripIsIdempotent(e.qmtUserOrderId);
    StripIsIdempotent(e.orderRemark);
  }

  /** A raw id that stripping changes finds exactly disturbing rows. */
  lemma RawProbe(rows: set<Correlation>, events: seq<Event>, batch: seq<Correlation>, e: Event)
    requires IsBatch(rows, events, batch) && e in events && |BatchKeys(batch)| <= CACHE_MAX_KEYS
    requires Strip(e.qmtUserOrderId) != e.qmtUserOrderId && Usable(e.qmtUserOrderId)
    ensures var hit := Find(Filled([], batch), MatchKey(QmtId, e.qmtUserOrderId));
      && (hit.Some? ==> Disturbs(rows, events, e, hit.value) && !QmtAnswered(rows, e, hit))
      && (hit.None? ==> forall row :: row in rows && Wanted(row, events) ==> Cell(row, QmtId) != e.qmtUserOrderId)
  {
    var raw := e.qmtUserOrderId;
    var key := MatchKey(QmtId, raw);
    CacheFindsNewestCarrier(batch, key);
    QmtValueIsStripped(e);
    var hit := Find(Filled([], batch), key);
    if hit.Some? {
      StripIsIdempotent(Cell(hit.value, QmtId));
      assert Cell(hit.value, QmtId) == raw;
    } else {
      forall row | row in rows && Wanted(row, events) ensures Cell(row, QmtId) != raw {
        assert row in batch && !Carries(row, key);
      }
    }
  }

  /** The stripped id finds the newest row with it, or a disturbing row. */
  lemma ValueProbe(rows: set<Correlation>, events: seq<Event>, batch: seq<Correlation>, e: Event)
    requires IsBatch(rows, events, batch) && e in events && |BatchKeys(batch)| <= CACHE_MAX_KEYS
    requires forall row :: row in rows && Wanted(row, events) && Unstripped(row) && Usable(e.qmtUserOrderId) ==>
      Cell(row, QmtId) != e.qmtUserOrderId
    ensures QmtAnswered(rows, e, Probe(Filled([], batch), QmtId, QmtValue(e)))
            <==> !exists row :: row in rows && Disturbs(rows, events, e, row)
  {
    var value := QmtValue(e);
    if Usable(value) {
      var key, hits := MatchKey(QmtId, value), Having(rows, QmtId, value);
      CacheFindsNewestCarrier(batch, key);
      HitsAreInBatch(rows, events, batch, e, QmtId);
      QmtValueIsStripped(e);
      var hit := Find(Filled([], batch), key);
      forall row | row in hits ensures Carries(row, key) && row in batch {
      }
      forall row | row in rows && Disturbs(rows, events, e, row) ensures row in batch && Carries(row, key) {
      }
      if hit.Some? {
        if Cell(hit.value, QmtId) == value {
          assert hit.value in hits && Newest(hits, hit.value);
          assert forall row :: row in rows && row != hit.value && Older(row, hit.value) ==> !Older(hit.value, row);
        } else {
          assert Disturbs(rows, events, e, hit.value);
        }
      }
    }
  }

  lemma QmtProbes(rows: set<Correlation>, events: seq<Event>, batch: seq<Correlation>, e: Event)
    requires IsBatch(rows, events, batch) && e in events && |BatchKeys(batch)| <= CACHE_MAX_KEYS
    ensures var entries := Filled([], batch);
      QmtAnswered(rows, e, Else(Probe(entries, QmtId, e.qmtUserOrderId), Probe(entries, QmtId, QmtValue(e))))
      <==> !exists row :: row in rows && Disturbs(rows, events, e, row)
  {
    var raw := e.qmtUserOrderId;
    QmtValueIsStripped(e);
    if Usable(raw) && Strip(raw) != raw {
      RawProbe(rows, events, batch, e);
      var hit := Find(Filled([], batch), MatchKey(QmtId, raw));
      if hit.Some? {
        assert hit.value in rows;
      } else {
        ValueProbe(rows, events, batch, e);
      }
    } else {
      ValueProbe(rows, events, batch, e);
    }
  }

  /** Filling an empty cache from one batch answers an event of the batch as a query for that
      event alone would, same precedence of columns, newest row winning, exactly when no
      unstripped row misleads it. */
  lemma BatchAgreesWithSingleLookup(rows: set<Correlation>, events: seq<Event>, batch: seq<Correlation>, e: Event)
    requires IsBatch(rows, events, batch) && e in events && |BatchKeys(batch)| <= CACHE_MAX_KEYS
    ensures Resolves(rows, e, COLUMNS, FirstHit(Filled([], batch), EventKeys(e))) <==> !Misled(rows, events, e)
  {
    var entries := Filled([], batch);
    if Usable(e.orderId) {
      CacheAnswersOrderIds(rows, events, batch, e, OrderId);
    }
    if Usable(e.orderSysid) {
      CacheAnswersOrderIds(rows, events, batch, e, OrderSysid);
    }
    QmtProbes(rows, events, batch, e);
    FirstHitByColumn(entries, e);
    ResolvesByColumn(rows, e, FirstHit(entries, EventKeys(e)));
  }

  /** With stripped ids in the table nothing misleads. */
  lemma StrippedTableAgrees(rows: set<Correlation>, events: seq<Event>, batch: seq<Correlation>, e: Event)
    requires IsBatch(rows, events, batch) && e in events && |BatchKeys(batch)| <= CACHE_MAX_KEYS
    requires forall row :: row in rows ==> !Unstripped(row)
    ensures Resolves(rows, e, COLUMNS, FirstHit(Filled([], batch), EventKeys(e)))
  {
    BatchAgreesWithSingleLookup(rows, events, batch, e);
  }

  function Probe(entries: seq<Entry>, column: Column, value: string): Option<Correlation> {
    if Usable(value) then Find(entries, MatchKey(column, value)) else None
  }

  function Else(a: Option<Correlation>, b: Option<Correlation>): Option<Correlation> {
    if a.Some? then a else b
  }

  lemma FirstHitByColumn(entries: seq<Entry>, e: Event)
    ensures FirstHit(entries, EventKeys(e)) ==
      Else(Probe(entries, OrderId, e.orderId), Else(Probe(entries, OrderSysid, e.orderSysid),
        Else(Probe(entries, QmtId, e.qmtUserOrderId), Probe(entries, QmtId, QmtValue(e)))))
  {
    var a, b, c := KeyIf(OrderId, e.orderId), KeyIf(OrderSysid, e.orderSysid), KeyIf(QmtId, e.qmtUserOrderId);
    var d := KeyIf(QmtId, QmtValue(e));
    ProbeOne(entries, OrderId, e.orderId);
    ProbeOne(entries, OrderSysid, e.orderSysid);
    ProbeOne(entries, QmtId, e.qmtUserOrderId);
    ProbeOne(entries, QmtId, QmtValue(e));
    FirstHitConcat(entries, a, b + c);
    FirstHitConcat(entries, b, c);
    FirstHitConcat(entries, a + b + c, d);
    assert a + (b + c) == a + b + c;
    if Usable(QmtValue(e)) && MatchKey(QmtId, QmtValue(e)) in a + b + c {
      assert d[0] in c;
    } else {
      assert EventKeys(e) == a + b + c + d;
    }
  }

  lemma ProbeOne(entries: seq<Entry>, column: Column, value: string)
    ensures FirstHit(entries, KeyIf(column, value)) == Probe(entries, column, value)
  {
    if Usable(value) {
      assert KeyIf(column, value)[1..] == [];
    }
  }

  lemma {:induction false} FirstHitConcat(entries: seq<Entry>, a: seq<MatchKey>, b: seq<MatchKey>)
    ensures FirstHit(entries, a + b) == Else(FirstHit(entries, a), FirstHit(entries, b))
    decreases |a|
  {
    if a == [] {
      assert a + b == b;
    } else {
      assert (a + b)[1..] == a[1..] + b;
      FirstHitConcat(entries, a[1..], b);
    }
  }

  predicate Hits(rows: set<Correlation>, e: Event, column: Column) {
    Usable(Candidate(e, column)) && Having(rows, column, Candidate(e, column)) != {}
  }

  lemma ResolvesByColumn(rows: set<Correlation>, e: Event, r: Option<Correlation>)
    ensures Resolves(rows, e, COLUMNS, r) <==>
      if Hits(rows, e, OrderId) then r.Some? && Newest(Having(rows, OrderId, Candidate(e, OrderId)), r.value)
      else if Hits(rows, e, OrderSysid) then r.Some? && Newest(Having(rows, OrderSysid, Candidate(e, OrderSysid)), r.value)
      else if Hits(rows, e, QmtId) then r.Some? && Newest(Having(rows, QmtId, Candidate(e, QmtId)), r.value)
      else r.None?
  {
    var rest := [OrderSysid, QmtId];
    assert COLUMNS[1..] == rest && rest[1..] == [QmtId];
    assert Resolves(rows, e, [QmtId], r) <==>
      if Hits(rows, e, QmtId) then r.Some? && Newest(Having(rows, QmtId, Candidate(e, QmtId)), r.value) else r.None?;
    assert Resolves(rows, e, rest, r) <==>
      if Hits(rows, e, OrderSysid) then r.Some? && Newest(Having(rows, OrderSysid, Candidate(e, OrderSysid)), r.value)
      else Resolves(rows, e, [QmtId], r);
  }

  /** With distinct creation times there is one answer, so the two lookups return the same. */
  lemma {:induction false} ResolutionIsUnique(rows: set<Correlation>, e: Event, columns: seq<Column>, r: Option<Correlation>, s: Option<Correlation>)
    requires DistinctTimes(rows) && Resolves(rows, e, columns, r) && Resolves(rows, e, columns, s)
    ensures r == s
    decreases |columns|
  {
    if columns != [] {
      if !Hits(rows, e, columns[0]) {
        ResolutionIsUnique(rows, e, columns[1..], r, s);
      }
    }
  }

  /** The gateway's batch path: one batch query fills the cache, then every event is looked
      up in it.  Below the cap exactly the events that no unstripped row misleads get what
      their own query would have returned. */
  method ResolveEvents(cache: CorrelationCache, orders: map<Key, Correlation>, account: string, events: seq<Event>)
    returns (batch: seq<Correlation>, found: seq<Option<Correlation>>)
    requires cache.entries == []
    requires DistinctRowids(Rows(orders, account))
    modifies cache
    ensures IsBatch(Rows(orders, account), events, batch) && |found| == |events|
    ensures |BatchKeys(batch)| <= CACHE_MAX_KEYS ==>
      forall i :: 0 <= i < |events| ==>
        (Resolves(Rows(orders, account), events[i], COLUMNS, found[i]) <==> !Misled(Rows(orders, account), events, events[i]))
  {
    batch := ResolveMany(orders, account, events);
    cache.Fill(batch);
    found := LookupAll(cache, events);
    if |BatchKeys(batch)| <= CACHE_MAX_KEYS {
      forall i | 0 <= i < |events|
        ensures Resolves(Rows(orders, account), events[i], COLUMNS, found[i]) <==> !Misled(Rows(orders, account), events, events[i])
      {
        BatchAgreesWithSingleLookup(Rows(orders, account), events, batch, events[i]);
      }
    }
  }

  /** Looking up one event after the other: hits only reorder the cache. */
  method LookupAll(cache: CorrelationCache, events: seq<Event>) returns (found: seq<Option<Correlation>>)
    modifies cache
    ensures |found| == |events|
    ensures forall i :: 0 <= i < |events| ==> found[i] == FirstHit(old(cache.entries), EventKeys(events[i]))
  {
    found := [];
    ghost var before := cache.entries;
    for i := 0 to |events|
      invariant |found| == i && SameFinds(cache.entries, before)
      invariant forall j :: 0 <= j < i ==> found[j] == FirstHit(before, EventKeys(events[j]))
    {
      var row := LookupNext(cache, events[i], before);
      found := found + [row];
    }
  }

  /** Earlier lookups have only reordered the cache. */
  method LookupNext(cache: CorrelationCache, e: Event, ghost before: seq<Entry>) returns (r: Option<Correlation>)
    requires SameFinds(cache.entries, before)
    modifies cache
    ensures SameFinds(cache.entries, before) && r == FirstHit(before, EventKeys(e))
  {
    SameFindsSameHit(cache.entries, before, EventKeys(e));
    r := cache.Lookup(e);
  }

  ghost predicate SameFinds(a: seq<Entry>, b: seq<Entry>) {
    forall key :: Find(a, key) == Find(b, key)
  }

  lemma {:induction false} SameFindsSameHit(a: seq<Entry>, b: seq<Entry>, keys: seq<MatchKey>)
    requires SameFinds(a, b)
    ensures FirstHit(a, keys) == FirstHit(b, keys)
    decreases |keys|
  {
    if keys != [] {
      SameFindsSameHit(a, b, keys[1..]);
    }
  }

  /** Such rows do mislead: an event that asks for an unstripped row by its order id pulls it
      into the batch, and there it answers the event with the stripped id, whose own query
      finds nothing. */
  lemma UnstrippedRowMisleads(row: Correlation, batch: seq<Correlation>)
    requires Unstripped(row) && Usable(Strip(Cell(row, QmtId))) && Usable(Cell(row, OrderId))
    requires IsBatch({row}, PullAndAsk(row), batch)
    ensures var asking := PullAndAsk(row)[1];
      && FirstHit(Filled([], batch), EventKeys(asking)) == Some(row)
      && Resolves({row}, asking, COLUMNS, None)
  {
    var events := PullAndAsk(row);
    var asking, id := events[1], Strip(Cell(row, QmtId));
    StripIsIdempotent(Cell(row, QmtId));
    PulledAlone(row, batch);
    assert Having({row}, QmtId, id) == {};
    assert Disturbs({row}, events, asking, row);
    ResolvesByColumn({row}, asking, None);
    FirstHitByColumn(Filled([], batch), asking);
    CacheFindsNewestCarrier(batch, MatchKey(QmtId, id));
    assert row in batch && Carries(row, MatchKey(QmtId, id));
  }

  /** One event with the order id of the row, one with its stripped QMT id. */
  function PullAndAsk(row: Correlation): seq<Event> {
    [Event(Cell(row, OrderId), "", "", ""), Event("", "", Strip(Cell(row, QmtId)), "")]
  }

  lemma PulledAlone(row: Correlation, batch: seq<Correlation>)
    requires Usable(Cell(row, OrderId)) && IsBatch({row}, PullAndAsk(row), batch)
    ensures Wanted(row, PullAndAsk(row)) && row in batch && |BatchKeys(batch)| <= CACHE_MAX_KEYS
  {
    var events := PullAndAsk(row);
    assert events[0] in events && OrderId in COLUMNS && Candidate(events[0], OrderId) == Cell(row, OrderId);
    assert Wanted(row, events);
    assert forall k :: 0 <= k < |batch| ==> batch[k] in batch;
    KeysOfOneRow(batch, row);
    SubsetSize(BatchKeys(batch), KeySet(RowKeys(row)));
    FewKeys(RowKeys(row));
  }

  lemma {:induction false} KeysOfOneRow(batch: seq<Correlation>, row: Correlation)
    requires forall k :: 0 <= k < |batch| ==> batch[k] == row
    ensures BatchKeys(batch) <= KeySet(RowKeys(row))
  {
    if batch != [] {
      KeysOfOneRow(batch[..|batch| - 1], row);
    }
  }

  lemma {:induction false} FewKeys(keys: seq<MatchKey>)
    ensures |KeySet(keys)| <= |keys|
  {
    if keys != [] {
      FewKeys(keys[..|keys| - 1]);
    }
  }
}
