/** The content-addressed artifact store and the retention of old artifacts: a plan that
    thins out aged rows, and its application, which removes unreferenced blobs. */
module Retention {
  import opened Arithmetic
  import opened Basics
  import opened SortedKeys

  type Bytes = seq<bv8>

  // ---------- storage keys ----------

  predicate IsHexDigit(c: char) {
    '0' <= c <= '9' || 'a' <= c <= 'f'
  }

  predicate IsDigest(s: string) {
    |s| == 64 && forall i :: 0 <= i < 64 ==> IsHexDigit(s[i])
  }

  /** What hashing some content returns: 64 lower-case hex digits. */
  type Digest = s: string | IsDigest(s) ghost witness seq(64, i => '0')

  function LowerChar(c: char): char {
    if 'A' <= c <= 'Z' then (c as int + 32) as char else c
  }

  function Lower(s: string): string {
    seq(|s|, i requires 0 <= i < |s| => LowerChar(s[i]))
  }

  /** storage_key_for: any other text than a digest is refused. */
  function StorageKeyFor(sha256: string): Result<string> {
    var digest := Lower(sha256);
    if IsDigest(digest) then Ok(digest[..2] + "/" + digest[2..4] + "/" + digest) else Err("ValueError")
  }

  function KeyOf(d: Digest): string {
    d[..2] + "/" + d[2..4] + "/" + d
  }

  lemma DigestsHaveKeys(d: Digest)
    ensures StorageKeyFor(d) == Ok(KeyOf(d))
  {
    assert Lower(d) == d;
  }

  lemma KeysAreDistinct(d: Digest, e: Digest)
    requires KeyOf(d) == KeyOf(e)
    ensures d == e
  {
    assert d == KeyOf(d)[6..] && e == KeyOf(e)[6..];
  }

  type Sha = Bytes -> Digest

  // ---------- rows ----------

  const SCREENSHOT := "screenshot"
  const CHECKPOINT := "browser_state"

  /** One artifacts row; `deleted` is the retention marker in its metadata. */
  datatype Row = Row(
    id: string, kind: string, runId: Option<string>, createdAt: int, sha: Digest, key: string,
    reason: Option<string>, deleted: bool)

  predicate Boundary(r: Row) {
    r.reason.Some? && r.reason.value in {"first", "approval", "error", "browser_error", "destructive"}
  }

  /** Rows are thinned out per kind and run. */
  type Group = (string, Option<string>)

  function GroupOf(r: Row): Group {
    (r.kind, r.runId)
  }

  /** The order of the plan: creation time, then id. */
  predicate Older(a: Row, b: Row) {
    a.createdAt < b.createdAt || (a.createdAt == b.createdAt && a.id != b.id && Before(a.id, b.id))
  }

  // ---------- the plan ----------

  type Positive = n: int | n >= 1 witness 1

  datatype Settings = Settings(
    screenshotAfterDays: Option<nat>, checkpointAfterDays: Option<nat>,
    screenshotKeepEvery: Positive, checkpointKeepEvery: Positive)

  const DAY := 86_400_000_000

  function AfterDays(settings: Settings, kind: string): Option<nat> {
    if kind == SCREENSHOT then settings.screenshotAfterDays
    else if kind == CHECKPOINT then settings.checkpointAfterDays
    else None
  }

  function KeepEvery(settings: Settings, kind: string): Positive {
    if kind == SCREENSHOT then settings.screenshotKeepEvery else settings.checkpointKeepEvery
  }

  /** Not yet deleted, of a kind with a retention period, and past it. */
  predicate Aged(settings: Settings, now: int, r: Row) {
    && !r.deleted
    && AfterDays(settings, r.kind).Some?
    && r.createdAt < now - AfterDays(settings, r.kind).value * DAY
  }

  datatype Verdict = AlreadySoftDeleted | RetentionDisabled | WithinRetention | KeptBoundary | KeptSample | Downsampled

  datatype Decision = Decision(row: Row, verdict: Verdict)

  /** How many aged rows of a group are among the first `i`. */
  function AgedBefore(settings: Settings, now: int, records: seq<Row>, i: nat, g: Group): nat
    requires i <= |records|
  {
    if i == 0 then 0
    else AgedBefore(settings, now, records, i - 1, g)
         + if Aged(settings, now, records[i - 1]) && GroupOf(records[i - 1]) == g then 1 else 0
  }

  function VerdictAt(settings: Settings, now: int, records: seq<Row>, i: nat): Verdict
    requires i < |records|
  {
    var r := records[i];
    if r.deleted then AlreadySoftDeleted
    else if AfterDays(settings, r.kind).None? then RetentionDisabled
    else if !Aged(settings, now, r) then WithinRetention
    else if Boundary(r) then KeptBoundary
    else if AgedBefore(settings, now, records, i, GroupOf(r)) % KeepEvery(settings, r.kind) == 0 then KeptSample
    else Downsampled
  }

  function Decisions(settings: Settings, now: int, records: seq<Row>): seq<Decision> {
    seq(|records|, i requires 0 <= i < |records| => Decision(records[i], VerdictAt(settings, now, records, i)))
  }

  // ---------- sorting the inventory ----------

  function Insert(r: Row, sorted: seq<Row>): seq<Row> {
    if sorted == [] || Older(r, sorted[0]) then [r] + sorted
    else [sorted[0]] + Insert(r, sorted[1..])
  }

  function SortRows(rows: seq<Row>): seq<Row> {
    if rows == [] then [] else Insert(rows[|rows| - 1], SortRows(rows[..|rows| - 1]))
  }

  predicate Ordered(rows: seq<Row>) {
    forall i, j :: 0 <= i < j < |rows| ==> Older(rows[i], rows[j])
  }

  predicate DistinctIds(rows: seq<Row>) {
    forall i, j :: 0 <= i < j < |rows| ==> rows[i].id != rows[j].id
  }

  lemma OlderTotal(a: Row, b: Row)
    requires a.id != b.id
    ensures Older(a, b) || Older(b, a)
  {
    BeforeTotal(a.id, b.id);
  }

  lemma OlderAsymmetric(a: Row, b: Row)
    requires Older(a, b)
    ensures !Older(b, a)
  {
    if a.createdAt == b.createdAt && Before(b.id, a.id) { BeforeAntisymmetric(a.id, b.id); }
  }

  lemma OlderTransitive(a: Row, b: Row, c: Row)
    requires Older(a, b) && Older(b, c)
    ensures Older(a, c)
  {
    if a.createdAt == c.createdAt {
      BeforeTransitive(a.id, b.id, c.id);
      if a.id == c.id { BeforeAntisymmetric(a.id, b.id); }
    }
  }

  lemma {:induction false} InsertKeepsOrder(r: Row, sorted: seq<Row>)
    requires Ordered(sorted) && forall i :: 0 <= i < |sorted| ==> sorted[i].id != r.id
    ensures Ordered(Insert(r, sorted)) && multiset(Insert(r, sorted)) == multiset(sorted) + multiset{r}
    ensures forall x :: x in Insert(r, sorted) <==> x in sorted || x == r
  {
    if sorted == [] {
    } else if Older(r, sorted[0]) {
      forall j | 0 <= j < |sorted| ensures Older(r, sorted[j]) {
        if j > 0 { OlderTransitive(r, sorted[0], sorted[j]); }
      }
    } else {
      OlderTotal(r, sorted[0]);
      InsertKeepsOrder(r, sorted[1..]);
      assert sorted == [sorted[0]] + sorted[1..];
      var rest := Insert(r, sorted[1..]);
      forall j | 0 <= j < |rest| ensures Older(sorted[0], rest[j]) {
        assert rest[j] in rest;
        if rest[j] != r {
          var k :| 0 <= k < |sorted[1..]| && sorted[1..][k] == rest[j];
          assert sorted[k + 1] == rest[j];
        }
      }
    }
  }

  lemma {:induction false} SortSorts(rows: seq<Row>)
    requires DistinctIds(rows)
    ensures Ordered(SortRows(rows)) && multiset(SortRows(rows)) == multiset(rows)
  {
    if rows != [] {
      var init, r := rows[..|rows| - 1], rows[|rows| - 1];
      SortSorts(init);
      assert rows == init + [r];
      forall i | 0 <= i < |SortRows(init)| ensures SortRows(init)[i].id != r.id {
        assert SortRows(init)[i] in multiset(SortRows(init));
        assert SortRows(init)[i] in multiset(init);
      }
      InsertKeepsOrder(r, SortRows(init));
    }
  }

  /** A set of rows can be put in order in one way only. */
  lemma {:induction false} OrderedUnique(a: seq<Row>, b: seq<Row>)
    requires Ordered(a) && Ordered(b) && multiset(a) == multiset(b)
    ensures a == b
  {
    if a == [] || b == [] {
      assert |multiset(a)| == |a| && |multiset(b)| == |b|;
    } else {
      FirstOfBoth(a, b);
      assert a == [a[0]] + a[1..] && b == [b[0]] + b[1..];
      assert multiset(a[1..]) == multiset(a) - multiset{a[0]};
      assert multiset(b[1..]) == multiset(b) - multiset{b[0]};
      OrderedUnique(a[1..], b[1..]);
    }
  }

  lemma FirstOfBoth(a: seq<Row>, b: seq<Row>)
    requires Ordered(a) && Ordered(b) && multiset(a) == multiset(b) && a != [] && b != []
    ensures a[0] == b[0]
  {
    assert a[0] in multiset(b) && b[0] in multiset(a);
    var i :| 0 <= i < |b| && b[i] == a[0];
    var j :| 0 <= j < |a| && a[j] == b[0];
    if i > 0 && j > 0 { OlderAsymmetric(a[0], b[0]); }
  }

  function Plan(settings: Settings, now: int, inventory: seq<Row>): seq<Decision> {
    Decisions(settings, now, SortRows(inventory))
  }

  /** The plan does not depend on the order of the inventory. */
  lemma PlanIgnoresInventoryOrder(settings: Settings, now: int, a: seq<Row>, b: seq<Row>)
    requires multiset(a) == multiset(b) && DistinctIds(a) && DistinctIds(b)
    ensures Plan(settings, now, a) == Plan(settings, now, b)
  {
    SortSorts(a);
    SortSorts(b);
    OrderedUnique(SortRows(a), SortRows(b));
  }

  /** plan_retention: one pass over the sorted records with a counter per group. */
  method PlanRetention(inventory: seq<Row>, settings: Settings, now: int) returns (decisions: seq<Decision>)
    ensures decisions == Plan(settings, now, inventory)
  {
    var records := SortRows(inventory);
    var oldOrdinals: map<Group, nat> := map[];
    decisions := [];
    for i := 0 to |records|
      invariant decisions == Decisions(settings, now, records)[..i]
      invariant forall g :: (if g in oldOrdinals then oldOrdinals[g] else 0) == AgedBefore(settings, now, records, i, g)
    {
      var record := records[i];
      if record.deleted {
        decisions := decisions + [Decision(record, AlreadySoftDeleted)];
        continue;
      }
      var days := AfterDays(settings, record.kind);
      if days.None? {
        decisions := decisions + [Decision(record, RetentionDisabled)];
        continue;
      }
      if record.createdAt >= now - days.value * DAY {
        decisions := decisions + [Decision(record, WithinRetention)];
        continue;
      }
      var group := GroupOf(record);
      var ordinal := if group in oldOrdinals then oldOrdinals[group] else 0;
      oldOrdinals := oldOrdinals[group := ordinal + 1];
      if Boundary(record) {
        decisions := decisions + [Decision(record, KeptBoundary)];
      } else if ordinal % KeepEvery(settings, record.kind) == 0 {
        decisions := decisions + [Decision(record, KeptSample)];
      } else {
        decisions := decisions + [Decision(record, Downsampled)];
      }
    }
  }

  // ---------- what a plan keeps ----------

  /** Aged rows of a group among the first `i` that the plan keeps. */
  function KeptBefore(settings: Settings, now: int, records: seq<Row>, i: nat, g: Group): nat
    requires i <= |records|
  {
    if i == 0 then 0
    else KeptBefore(settings, now, records, i - 1, g)
         + if Aged(settings, now, records[i - 1]) && GroupOf(records[i - 1]) == g
              && !VerdictAt(settings, now, records, i - 1).Downsampled? then 1 else 0
  }

  /** The multiples of `k` below `n`. */
  function Samples(n: nat, k: Positive): nat {
    if n == 0 then 0 else Samples(n - 1, k) + if (n - 1) % k == 0 then 1 else 0
  }

  lemma {:induction false} SamplesCover(n: nat, k: Positive)
    ensures Samples(n, k) * k >= n
  {
    if n > 0 {
      SamplesCover(n - 1, k);
      var s := Samples(n - 1, k);
      RemainderUnique(s * k, k, s, 0);
      if (n - 1) % k == 0 { assert (s + 1) * k == s * k + k; }
    }
  }

  lemma MultiplesAreKept(settings: Settings, now: int, records: seq<Row>, i: nat)
    requires i < |records| && Aged(settings, now, records[i])
    ensures AgedBefore(settings, now, records, i, GroupOf(records[i])) % KeepEvery(settings, records[i].kind) == 0 ==>
              !VerdictAt(settings, now, records, i).Downsampled?
  {
  }

  lemma {:induction false} SamplesAreKept(settings: Settings, now: int, records: seq<Row>, i: nat, g: Group)
    requires i <= |records|
    ensures KeptBefore(settings, now, records, i, g)
            >= Samples(AgedBefore(settings, now, records, i, g), KeepEvery(settings, g.0))
  {
    if i > 0 {
      SamplesAreKept(settings, now, records, i - 1, g);
      if Aged(settings, now, records[i - 1]) && GroupOf(records[i - 1]) == g {
        MultiplesAreKept(settings, now, records, i - 1);
      }
      hide VerdictAt, Aged, KeepEvery;
    }
  }

  /** Of the n aged rows of a group a round keeps at least ceil(n / keep_every). */
  lemma EnoughAreKept(settings: Settings, now: int, records: seq<Row>, g: Group)
    ensures KeptBefore(settings, now, records, |records|, g) * KeepEvery(settings, g.0)
            >= AgedBefore(settings, now, records, |records|, g)
  {
    var n, k := AgedBefore(settings, now, records, |records|, g), KeepEvery(settings, g.0);
    SamplesAreKept(settings, now, records, |records|, g);
    SamplesCover(n, k);
    Scale(KeptBefore(settings, now, records, |records|, g), Samples(n, k), k);
  }

  lemma Scale(a: nat, b: nat, k: Positive)
    requires a >= b
    ensures a * k >= b * k
  {
    assert (a - b) * k >= 0;
  }

  /** No undeleted row of its group is older. */
  predicate OldestIn(x: Row, inventory: seq<Row>) {
    forall i :: 0 <= i < |inventory| && Rivals(x, inventory[i]) ==> Older(x, inventory[i])
  }

  predicate Rivals(x: Row, y: Row) {
    GroupOf(y) == GroupOf(x) && y.id != x.id && !y.deleted
  }

  lemma {:induction false} NoneAgedBefore(settings: Settings, now: int, records: seq<Row>, n: nat, i: nat)
    requires Ordered(records) && DistinctIds(records) && n <= i < |records| && OldestIn(records[i], records)
    ensures AgedBefore(settings, now, records, n, GroupOf(records[i])) == 0
  {
    if n > 0 {
      NoneAgedBefore(settings, now, records, n - 1, i);
      if GroupOf(records[n - 1]) == GroupOf(records[i]) && !records[n - 1].deleted {
        OlderAsymmetric(records[n - 1], records[i]);
        assert false;
      }
    }
  }

  /** The oldest row of a group and every boundary row are never chosen for deletion. */
  lemma OldestAndBoundariesAreKept(settings: Settings, now: int, inventory: seq<Row>, d: Decision)
    requires DistinctIds(inventory) && d in Plan(settings, now, inventory)
    requires Boundary(d.row) || OldestIn(d.row, inventory)
    ensures !d.verdict.Downsampled? && d.row in inventory
  {
    var records := SortRows(inventory);
    SortSorts(inventory);
    var i :| 0 <= i < |records| && Decisions(settings, now, records)[i] == d;
    assert records[i] in multiset(inventory);
    if OldestIn(d.row, inventory) {
      SameRows(inventory, records);
      NoneAgedBefore(settings, now, records, i, i);
      RemainderUnique(0, KeepEvery(settings, d.row.kind), 0, 0);
    }
  }

  lemma SameRows(inventory: seq<Row>, records: seq<Row>)
    requires multiset(inventory) == multiset(records) && DistinctIds(inventory) && Ordered(records)
    ensures DistinctIds(records)
    ensures forall x :: OldestIn(x, inventory) ==> OldestIn(x, records)
  {
    forall i, j | 0 <= i < j < |records| ensures records[i].id != records[j].id {
      OlderIsOther(records[i], records[j]);
      assert records[i] in multiset(inventory) && records[j] in multiset(inventory);
    }
    forall x, i | OldestIn(x, inventory) && 0 <= i < |records| && Rivals(x, records[i])
      ensures Older(x, records[i])
    {
      assert records[i] in multiset(inventory);
    }
  }

  // ---------- which row gets which verdict ----------

  /** Of a kind for which a retention period is set, and not marked deleted. */
  function Cutoff(settings: Settings, now: int, r: Row): Option<int> {
    if r.kind == "screenshot" && settings.screenshotAfterDays.Some? then
      Some(now - settings.screenshotAfterDays.value * 86_400_000_000)
    else if r.kind == "browser_state" && settings.checkpointAfterDays.Some? then
      Some(now - settings.checkpointAfterDays.value * 86_400_000_000)
    else None
  }

  predicate PastPeriod(settings: Settings, now: int, r: Row) {
    !r.deleted && Cutoff(settings, now, r).Some? && r.createdAt < Cutoff(settings, now, r).value
  }

  predicate MarksBoundary(r: Row) {
    || r.reason == Some("first") || r.reason == Some("approval") || r.reason == Some("error")
    || r.reason == Some("browser_error") || r.reason == Some("destructive")
  }

  /** The rows of the same kind and run that are past their period and come before `r`. */
  function OldOnesBefore(settings: Settings, now: int, inventory: seq<Row>, r: Row): set<Row> {
    set x | x in inventory && PastPeriod(settings, now, x) && x.kind == r.kind && x.runId == r.runId
            && (x.createdAt < r.createdAt || (x.createdAt == r.createdAt && x.id != r.id && Before(x.id, r.id)))
  }

  predicate Sampled(settings: Settings, now: int, inventory: seq<Row>, r: Row) {
    |OldOnesBefore(settings, now, inventory, r)|
    % (if r.kind == "screenshot" then settings.screenshotKeepEvery else settings.checkpointKeepEvery) == 0
  }

  lemma PastPeriodIsAged(settings: Settings, now: int, r: Row)
    ensures PastPeriod(settings, now, r) <==> Aged(settings, now, r)
  {
  }

  function AgedIn(settings: Settings, now: int, records: seq<Row>, g: Group): set<Row> {
    set x | x in records && PastPeriod(settings, now, x) && GroupOf(x) == g
  }

  lemma {:induction false} AgedAreCounted(settings: Settings, now: int, records: seq<Row>, i: nat, g: Group)
    requires i <= |records| && DistinctIds(records)
    ensures AgedBefore(settings, now, records, i, g) == |AgedIn(settings, now, records[..i], g)|
  {
    if i > 0 {
      AgedAreCounted(settings, now, records, i - 1, g);
      hide Aged, PastPeriod;
      var r := records[i - 1];
      PastPeriodIsAged(settings, now, r);
      assert records[..i] == records[..i - 1] + [r];
      assert r !in records[..i - 1];
      hide DistinctIds;
      AgedGrow(settings, now, records[..i - 1], r, g);
    }
  }

  lemma AgedGrow(settings: Settings, now: int, records: seq<Row>, r: Row, g: Group)
    requires r !in records
    ensures |AgedIn(settings, now, records + [r], g)|
            == |AgedIn(settings, now, records, g)| + if PastPeriod(settings, now, r) && GroupOf(r) == g then 1 else 0
  {
    hide PastPeriod, GroupOf;
    assert AgedIn(settings, now, records + [r], g) == AgedIn(settings, now, records, g)
           + if PastPeriod(settings, now, r) && GroupOf(r) == g then {r} else {};
  }

  lemma OldOnesComeFirst(settings: Settings, now: int, inventory: seq<Row>, records: seq<Row>, i: nat)
    requires multiset(records) == multiset(inventory) && Ordered(records) && i < |records|
    ensures OldOnesBefore(settings, now, inventory, records[i])
            == AgedIn(settings, now, records[..i], GroupOf(records[i]))
  {
    hide PastPeriod;
    forall x ensures x in inventory && Older(x, records[i]) <==> x in records[..i] {
      if x in inventory && Older(x, records[i]) {
        assert x in multiset(inventory);
        var j :| 0 <= j < |records| && records[j] == x;
        if j == i { OlderIsOther(x, x); }
        if j > i { OlderAsymmetric(records[i], x); }
        assert records[..i][j] == x;
      }
      if x in records[..i] { assert x in multiset(records); }
    }
  }

  /** The verdict table of the planner for row `r`, given whether its place is a sampled one. */
  predicate Fits(settings: Settings, now: int, r: Row, sampled: bool, verdict: Verdict) {
    && (verdict.AlreadySoftDeleted? <==> r.deleted)
    && (verdict.RetentionDisabled? <==> !r.deleted && Cutoff(settings, now, r).None?)
    && (verdict.WithinRetention? <==>
          !r.deleted && Cutoff(settings, now, r).Some? && r.createdAt >= Cutoff(settings, now, r).value)
    && (verdict.KeptBoundary? <==> PastPeriod(settings, now, r) && MarksBoundary(r))
    && (verdict.KeptSample? <==> PastPeriod(settings, now, r) && !MarksBoundary(r) && sampled)
    && (verdict.Downsampled? <==> PastPeriod(settings, now, r) && !MarksBoundary(r) && !sampled)
  }

  lemma VerdictAtFits(settings: Settings, now: int, records: seq<Row>, i: nat)
    requires i < |records|
    ensures
      var r := records[i];
      Fits(settings, now, r,
           AgedBefore(settings, now, records, i, GroupOf(r))
           % (if r.kind == "screenshot" then settings.screenshotKeepEvery else settings.checkpointKeepEvery) == 0,
           VerdictAt(settings, now, records, i))
  {
    hide AgedBefore;
  }

  /** The plan in the terms of its settings: every decision is about a row of the inventory,
      and who gets which verdict depends on the rows past their period that come before it. */
  lemma VerdictTable(settings: Settings, now: int, inventory: seq<Row>, d: Decision)
    requires DistinctIds(inventory) && d in Plan(settings, now, inventory)
    ensures d.row in inventory
    ensures Fits(settings, now, d.row, Sampled(settings, now, inventory, d.row), d.verdict)
  {
    hide Fits, PastPeriod, Aged, AgedIn, OldOnesBefore, VerdictAt;
    var records := SortRows(inventory);
    SortSorts(inventory);
    var i :| 0 <= i < |records| && Decisions(settings, now, records)[i] == d;
    assert records[i] in multiset(inventory);
    SameRows(inventory, records);
    OldOnesComeFirst(settings, now, inventory, records, i);
    AgedAreCounted(settings, now, records, i, GroupOf(records[i]));
    VerdictAtFits(settings, now, records, i);
  }

  /** Every row of the inventory gets one verdict, in the order of creation. */
  lemma PlanCoversInventory(settings: Settings, now: int, inventory: seq<Row>)
    requires DistinctIds(inventory)
    ensures
      var plan := Plan(settings, now, inventory);
      var rows := seq(|plan|, i requires 0 <= i < |plan| => plan[i].row);
      multiset(rows) == multiset(inventory) && Ordered(rows)
  {
    SortSorts(inventory);
    var plan := Plan(settings, now, inventory);
    assert seq(|plan|, i requires 0 <= i < |plan| => plan[i].row) == SortRows(inventory);
  }

  lemma OlderIsOther(a: Row, b: Row)
    requires Older(a, b)
    ensures a != b
  {
  }
}
