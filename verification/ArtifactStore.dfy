/** Blobs under content-addressed keys, the metadata rows that refer to them, and what any
    number of stores and retention rounds leaves of both. */
module ArtifactStore {
  import opened Basics
  import opened Retention
  import SortedKeys

  datatype Artifacts = Artifacts(blobs: map<string, Bytes>, rows: map<string, Row>)

  /** The metadata row a caller asks for. */
  datatype RowRequest = RowRequest(
    id: string, kind: string, runId: Option<string>, createdAt: int, reason: Option<string>)

  function NewRow(sha: Sha, data: Bytes, q: RowRequest): Row {
    Row(q.id, q.kind, q.runId, q.createdAt, sha(data), KeyOf(sha(data)), q.reason, false)
  }

  /** The row holds what the caller asked for and where the content is. */
  predicate RecordsRequest(r: Row, d: Digest, q: RowRequest) {
    && r.id == q.id && r.kind == q.kind && r.runId == q.runId && r.createdAt == q.createdAt && r.reason == q.reason
    && r.sha == d && r.key == d[..2] + "/" + d[2..4] + "/" + d && !r.deleted
  }

  /** An object that exists under the key is not written again. */
  function WithBlob(blobs: map<string, Bytes>, key: string, data: Bytes): map<string, Bytes> {
    if key in blobs then blobs else blobs[key := data]
  }

  /** put: the blob, then the row if one is asked for; a taken id fails after the blob. */
  function PutData(sha: Sha, s: Artifacts, data: Bytes, row: Option<RowRequest>): (Artifacts, bool) {
    var blobs := WithBlob(s.blobs, KeyOf(sha(data)), data);
    if row.None? then (Artifacts(blobs, s.rows), true)
    else if row.value.id in s.rows then (Artifacts(blobs, s.rows), false)
    else (Artifacts(blobs, s.rows[row.value.id := NewRow(sha, data, row.value)]), true)
  }

  // ---------- applying a plan ----------

  predicate Marks(rows: map<string, Row>, d: Decision) {
    d.verdict.Downsampled? && d.row.id in rows && !rows[d.row.id].deleted
  }

  function MarkAll(rows: map<string, Row>, plan: seq<Decision>): map<string, Row> {
    if plan == [] then rows
    else
      var before, d := MarkAll(rows, plan[..|plan| - 1]), plan[|plan| - 1];
      if Marks(before, d) then before[d.row.id := before[d.row.id].(deleted := true)] else before
  }

  function DeletedKeys(rows: map<string, Row>, plan: seq<Decision>): set<string> {
    if plan == [] then {}
    else
      var before, d := MarkAll(rows, plan[..|plan| - 1]), plan[|plan| - 1];
      DeletedKeys(rows, plan[..|plan| - 1]) + if Marks(before, d) then {before[d.row.id].key} else {}
  }

  function LiveKeys(rows: map<string, Row>): set<string> {
    set id | id in rows && !rows[id].deleted :: rows[id].key
  }

  /** apply_retention, for any plan, also one made from an inventory that is out of date. */
  function ApplyPlan(s: Artifacts, plan: seq<Decision>): Artifacts {
    var rows := MarkAll(s.rows, plan);
    Artifacts(s.blobs - (DeletedKeys(s.rows, plan) - LiveKeys(rows)), rows)
  }

  // ---------- live rows keep their content ----------

  /** Every blob lies under the key of its own digest. */
  ghost predicate KeyedByContent(sha: Sha, blobs: map<string, Bytes>) {
    forall k :: k in blobs ==> k == KeyOf(sha(blobs[k]))
  }

  /** The content stored under the row's key has the row's digest. */
  predicate Readable(sha: Sha, s: Artifacts, id: string)
    requires id in s.rows
  {
    s.rows[id].key in s.blobs && sha(s.blobs[s.rows[id].key]) == s.rows[id].sha
  }

  ghost predicate Sound(sha: Sha, s: Artifacts) {
    && KeyedByContent(sha, s.blobs)
    && (forall id :: id in s.rows ==> s.rows[id].id == id && s.rows[id].key == KeyOf(s.rows[id].sha))
    && (forall id :: id in s.rows && !s.rows[id].deleted ==> Readable(sha, s, id))
  }

  lemma PutKeepsSound(sha: Sha, s: Artifacts, data: Bytes, row: Option<RowRequest>)
    requires Sound(sha, s)
    ensures Sound(sha, PutData(sha, s, data, row).0)
  {
    var blobs, key := WithBlob(s.blobs, KeyOf(sha(data)), data), KeyOf(sha(data));
    KeysAreDistinct(sha(blobs[key]), sha(data));
    forall id | id in s.rows && !s.rows[id].deleted
      ensures Readable(sha, Artifacts(blobs, s.rows), id)
    {
      assert Readable(sha, s, id);
    }
  }

  lemma {:induction false} MarkingKeepsRows(rows: map<string, Row>, plan: seq<Decision>)
    ensures MarkAll(rows, plan).Keys == rows.Keys
    ensures forall id :: id in rows ==>
      var r := MarkAll(rows, plan)[id]; r == rows[id] || r == rows[id].(deleted := true)
  {
    if plan != [] { MarkingKeepsRows(rows, plan[..|plan| - 1]); }
  }

  // ---------- what a plan does ----------

  predicate Chosen(plan: seq<Decision>, id: string) {
    exists i :: 0 <= i < |plan| && plan[i].verdict.Downsampled? && plan[i].row.id == id
  }

  lemma ChosenGrows(plan: seq<Decision>, id: string)
    requires plan != []
    ensures var d := plan[|plan| - 1];
            Chosen(plan, id) <==> Chosen(plan[..|plan| - 1], id) || (d.verdict.Downsampled? && d.row.id == id)
  {
    var init := plan[..|plan| - 1];
    forall i | 0 <= i < |init| ensures init[i] == plan[i] {
    }
  }

  /** Chosen rows are marked and all others are left as they are. */
  lemma {:induction false} MarkedExactly(rows: map<string, Row>, plan: seq<Decision>)
    ensures MarkAll(rows, plan).Keys == rows.Keys
    ensures forall id :: id in rows ==>
              MarkAll(rows, plan)[id] == rows[id].(deleted := rows[id].deleted || Chosen(plan, id))
  {
    if plan != [] {
      MarkedExactly(rows, plan[..|plan| - 1]);
      forall id | id in rows
        ensures MarkAll(rows, plan)[id] == rows[id].(deleted := rows[id].deleted || Chosen(plan, id))
      {
        ChosenGrows(plan, id);
      }
    }
  }

  lemma {:induction false} DeletedKeysExactly(rows: map<string, Row>, plan: seq<Decision>, key: string)
    ensures key in DeletedKeys(rows, plan)
            <==> exists id :: id in rows && !rows[id].deleted && Chosen(plan, id) && rows[id].key == key
  {
    if plan != [] {
      var init, d := plan[..|plan| - 1], plan[|plan| - 1];
      DeletedKeysExactly(rows, init, key);
      MarkedExactly(rows, init);
      forall id ensures Chosen(plan, id) <==> Chosen(init, id) || (d.verdict.Downsampled? && d.row.id == id) {
        ChosenGrows(plan, id);
      }
      hide Chosen, MarkAll;
    }
  }

  predicate LiveUnder(rows: map<string, Row>, key: string) {
    exists id :: id in rows && !rows[id].deleted && rows[id].key == key
  }

  /** Applying a plan marks the chosen rows and removes the blob of a row it marks exactly
      when no row that is still live has the same key; nothing else changes. */
  lemma PlanIsApplied(s: Artifacts, plan: seq<Decision>)
    ensures
      var after := ApplyPlan(s, plan);
      && after.rows.Keys == s.rows.Keys
      && (forall id :: id in s.rows ==>
            after.rows[id] == s.rows[id].(deleted := s.rows[id].deleted || Chosen(plan, id)))
      && (forall key :: key in after.blobs <==>
            key in s.blobs
            && !(exists id :: id in s.rows && !s.rows[id].deleted && Chosen(plan, id)
                              && s.rows[id].key == key && !LiveUnder(after.rows, key)))
      && (forall key :: key in after.blobs ==> after.blobs[key] == s.blobs[key])
  {
    MarkedExactly(s.rows, plan);
    var after := ApplyPlan(s, plan);
    forall key
      ensures key in DeletedKeys(s.rows, plan)
              <==> exists id :: id in s.rows && !s.rows[id].deleted && Chosen(plan, id) && s.rows[id].key == key
      ensures key in LiveKeys(after.rows) <==> LiveUnder(after.rows, key)
    {
      DeletedKeysExactly(s.rows, plan, key);
    }
    hide Chosen, MarkAll, DeletedKeys, LiveKeys, LiveUnder;
  }

  lemma ApplyKeepsSound(sha: Sha, s: Artifacts, plan: seq<Decision>)
    requires Sound(sha, s)
    ensures Sound(sha, ApplyPlan(s, plan))
  {
    var after := ApplyPlan(s, plan);
    MarkingKeepsRows(s.rows, plan);
    forall id | id in after.rows && !after.rows[id].deleted ensures Readable(sha, after, id) {
      assert Readable(sha, s, id);
      assert after.rows[id].key in LiveKeys(after.rows);
    }
  }

  // ---------- histories ----------

  datatype Op =
    | PutOp(data: Bytes, row: Option<RowRequest>)
    | PutStreamOp(chunks: seq<Bytes>, row: Option<RowRequest>)
    | ApplyOp(plan: seq<Decision>)
    | RoundOp(settings: Settings, now: int, inventory: seq<Row>)

  /** What reading a stream in chunks yields: everything up to the first empty chunk. */
  function Streamed(chunks: seq<Bytes>): Bytes {
    if chunks == [] || chunks[0] == [] then [] else chunks[0] + Streamed(chunks[1..])
  }

  function Flattened(chunks: seq<Bytes>): Bytes {
    if chunks == [] then [] else Flattened(chunks[..|chunks| - 1]) + chunks[|chunks| - 1]
  }

  lemma {:induction false} FlattenedFromFront(chunks: seq<Bytes>)
    requires chunks != []
    ensures Flattened(chunks) == chunks[0] + Flattened(chunks[1..])
  {
    if |chunks| > 1 {
      var init := chunks[..|chunks| - 1];
      FlattenedFromFront(init);
      assert chunks[1..][..|chunks| - 2] == init[1..];
    } else {
      assert chunks[..0] == [] && chunks[1..] == [];
    }
  }

  /** A stream is everything up to its first empty chunk. */
  lemma {:induction false} StreamEndsAtEmptyChunk(chunks: seq<Bytes>, n: nat)
    requires n <= |chunks| && (n < |chunks| ==> chunks[n] == [])
    requires forall i :: 0 <= i < n ==> chunks[i] != []
    ensures Streamed(chunks) == Flattened(chunks[..n])
  {
    if n > 0 {
      StreamEndsAtEmptyChunk(chunks[1..], n - 1);
      FlattenedFromFront(chunks[..n]);
      assert chunks[..n][1..] == chunks[1..][..n - 1];
    }
  }

  /** The inventory of a round lists the current rows, in any order. */
  predicate Lists(inventory: seq<Row>, rows: map<string, Row>) {
    && DistinctIds(inventory)
    && (forall i :: 0 <= i < |inventory| ==> inventory[i].id in rows && rows[inventory[i].id] == inventory[i])
    && (forall id :: id in rows ==> rows[id] in inventory)
  }

  function Perform(sha: Sha, s: Artifacts, op: Op): Artifacts {
    match op
    case PutOp(data, row) => PutData(sha, s, data, row).0
    case PutStreamOp(chunks, row) => PutData(sha, s, Streamed(chunks), row).0
    case ApplyOp(plan) => ApplyPlan(s, plan)
    case RoundOp(settings, now, inventory) => ApplyPlan(s, Plan(settings, now, inventory))
  }

  function PerformAll(sha: Sha, s: Artifacts, ops: seq<Op>): Artifacts {
    if ops == [] then s else Perform(sha, PerformAll(sha, s, ops[..|ops| - 1]), ops[|ops| - 1])
  }

  const NO_ARTIFACTS := Artifacts(map[], map[])

  /** After any sequence of puts, streams, plans and rounds, every row not soft-deleted can
      still be read, and what is read has the digest recorded when it was stored. */
  lemma {:induction false} LiveRowsStayReadable(sha: Sha, ops: seq<Op>)
    ensures Sound(sha, PerformAll(sha, NO_ARTIFACTS, ops))
  {
    if ops != [] {
      var before, op := PerformAll(sha, NO_ARTIFACTS, ops[..|ops| - 1]), ops[|ops| - 1];
      LiveRowsStayReadable(sha, ops[..|ops| - 1]);
      match op
      case PutOp(data, row) => PutKeepsSound(sha, before, data, row);
      case PutStreamOp(chunks, row) => PutKeepsSound(sha, before, Streamed(chunks), row);
      case ApplyOp(plan) => ApplyKeepsSound(sha, before, plan);
      case RoundOp(settings, now, inventory) => ApplyKeepsSound(sha, before, Plan(settings, now, inventory));
    }
  }

  // ---------- rows that no number of rounds deletes ----------

  /** Live, and either a boundary row or the oldest live row of its kind and run. */
  predicate Protected(s: Artifacts, x: string) {
    && x in s.rows && !s.rows[x].deleted && s.rows[x].id == x
    && (Boundary(s.rows[x]) || forall y :: y in s.rows && Rivals(s.rows[x], s.rows[y]) ==> Older(s.rows[x], s.rows[y]))
  }

  /** New rows of the group are later than row `x`, unless `x` is a boundary row, and rounds
      plan from the current rows. */
  predicate Respects(sha: Sha, s: Artifacts, x: string, op: Op)
    requires x in s.rows
  {
    match op
    case PutOp(data, row) =>
      row.Some? && !Boundary(s.rows[x]) ==> ComesLater(s.rows[x], NewRow(sha, data, row.value))
    case PutStreamOp(chunks, row) =>
      row.Some? && !Boundary(s.rows[x]) ==> ComesLater(s.rows[x], NewRow(sha, Streamed(chunks), row.value))
    case ApplyOp(_) => false
    case RoundOp(_, _, inventory) => Lists(inventory, s.rows)
  }

  predicate ComesLater(x: Row, y: Row) {
    GroupOf(y) == GroupOf(x) && y.id != x.id ==> Older(x, y)
  }

  lemma {:induction false} UnmarkedStays(rows: map<string, Row>, plan: seq<Decision>, x: string)
    requires x in rows && forall d :: d in plan && d.row.id == x ==> !d.verdict.Downsampled?
    ensures x in MarkAll(rows, plan) && MarkAll(rows, plan)[x] == rows[x]
  {
    if plan != [] { UnmarkedStays(rows, plan[..|plan| - 1], x); }
  }

  lemma RoundSparesProtected(s: Artifacts, x: string, settings: Settings, now: int, inventory: seq<Row>)
    requires Protected(s, x) && Lists(inventory, s.rows)
    ensures x in ApplyPlan(s, Plan(settings, now, inventory)).rows
    ensures ApplyPlan(s, Plan(settings, now, inventory)).rows[x] == s.rows[x]
  {
    var plan := Plan(settings, now, inventory);
    forall d | d in plan && d.row.id == x ensures !d.verdict.Downsampled? {
      PlanRowsAreListed(settings, now, inventory, d);
      OldestAndBoundariesAreKept(settings, now, inventory, d);
    }
    UnmarkedStays(s.rows, plan, x);
  }

  lemma PlanRowsAreListed(settings: Settings, now: int, inventory: seq<Row>, d: Decision)
    requires DistinctIds(inventory) && d in Plan(settings, now, inventory)
    ensures d.row in inventory
  {
    SortSorts(inventory);
    var i :| 0 <= i < |SortRows(inventory)| && SortRows(inventory)[i] == d.row;
    assert d.row in multiset(inventory);
  }

  lemma RoundKeepsProtected(s: Artifacts, x: string, settings: Settings, now: int, inventory: seq<Row>)
    requires Protected(s, x) && Lists(inventory, s.rows)
    ensures Protected(ApplyPlan(s, Plan(settings, now, inventory)), x)
  {
    RoundSparesProtected(s, x, settings, now, inventory);
    MarkingKeepsRows(s.rows, Plan(settings, now, inventory));
  }

  lemma StepKeepsProtected(sha: Sha, s: Artifacts, x: string, op: Op)
    requires Protected(s, x) && Respects(sha, s, x, op)
    ensures Protected(Perform(sha, s, op), x) && Perform(sha, s, op).rows[x] == s.rows[x]
  {
    if op.RoundOp? {
      RoundSparesProtected(s, x, op.settings, op.now, op.inventory);
      RoundKeepsProtected(s, x, op.settings, op.now, op.inventory);
    }
  }

  /** Through any number of puts and rounds, under whatever settings, boundary rows and the
      oldest row of each kind and run stay live, unchanged and readable. */
  lemma {:induction false} ProtectedRowsSurvive(sha: Sha, s: Artifacts, ops: seq<Op>, x: string)
    requires Sound(sha, s) && Protected(s, x)
    requires forall n :: 0 <= n < |ops| ==>
               x in PerformAll(sha, s, ops[..n]).rows && Respects(sha, PerformAll(sha, s, ops[..n]), x, ops[n])
    ensures var after := PerformAll(sha, s, ops);
            Sound(sha, after) && Protected(after, x) && after.rows[x] == s.rows[x] && Readable(sha, after, x)
  {
    if ops != [] {
      var m := |ops| - 1;
      forall n | 0 <= n < m
        ensures x in PerformAll(sha, s, ops[..m][..n]).rows
                && Respects(sha, PerformAll(sha, s, ops[..m][..n]), x, ops[..m][n])
      {
        assert ops[..m][..n] == ops[..n];
      }
      ProtectedRowsSurvive(sha, s, ops[..m], x);
      var before := PerformAll(sha, s, ops[..m]);
      StepKeepsProtected(sha, before, x, ops[m]);
      StepKeepsSound(sha, before, ops[m]);
    }
  }

  lemma StepKeepsSound(sha: Sha, s: Artifacts, op: Op)
    requires Sound(sha, s)
    ensures Sound(sha, Perform(sha, s, op))
  {
    match op
    case PutOp(data, row) => PutKeepsSound(sha, s, data, row);
    case PutStreamOp(chunks, row) => PutKeepsSound(sha, s, Streamed(chunks), row);
    case ApplyOp(plan) => ApplyKeepsSound(sha, s, plan);
    case RoundOp(settings, now, inventory) => ApplyKeepsSound(sha, s, Plan(settings, now, inventory));
  }

  /** When no other content has the digest of `data`, a live row stored for it still leads
      to `data` itself, whatever happened since. */
  lemma StoredContentComesBack(sha: Sha, s: Artifacts, data: Bytes, q: RowRequest, ops: seq<Op>)
    requires Sound(sha, s) && q.id !in s.rows
    requires forall other :: sha(other) == sha(data) ==> other == data
    ensures var after := PerformAll(sha, PutData(sha, s, data, Some(q)).0, ops);
            q.id in after.rows
            && (!after.rows[q.id].deleted ==>
                  after.rows[q.id].key in after.blobs && after.blobs[after.rows[q.id].key] == data)
  {
    PutKeepsSound(sha, s, data, Some(q));
    RowIsOnlyMarked(sha, PutData(sha, s, data, Some(q)).0, ops, q.id);
  }

  lemma {:induction false} RowIsOnlyMarked(sha: Sha, s: Artifacts, ops: seq<Op>, x: string)
    requires Sound(sha, s) && x in s.rows
    ensures var after := PerformAll(sha, s, ops);
            Sound(sha, after) && x in after.rows
            && (after.rows[x] == s.rows[x] || after.rows[x] == s.rows[x].(deleted := true))
            && (!after.rows[x].deleted ==> Readable(sha, after, x))
  {
    if ops != [] {
      var before, op := PerformAll(sha, s, ops[..|ops| - 1]), ops[|ops| - 1];
      RowIsOnlyMarked(sha, s, ops[..|ops| - 1], x);
      StepKeepsSound(sha, before, op);
      if op.ApplyOp? { MarkingKeepsRows(before.rows, op.plan); }
      if op.RoundOp? { MarkingKeepsRows(before.rows, Plan(op.settings, op.now, op.inventory)); }
    }
  }

  lemma SortedLosesNothing(keys: set<string>)
    ensures (set k | k in SortedKeys.Sorted(keys)) == keys
  {
  }

  // ---------- the store as an object ----------

  class FilesystemArtifactStore {
    const sha: Sha
    var blobs: map<string, Bytes>
    var rows: map<string, Row>

    function View(): Artifacts
      reads this
    {
      Artifacts(blobs, rows)
    }

    constructor (sha: Sha)
      ensures this.sha == sha && View() == NO_ARTIFACTS
    {
      this.sha := sha;
      blobs, rows := map[], map[];
    }

    method WriteIfAbsent(key: string, data: Bytes) returns (wrote: bool)
      modifies this`blobs
      ensures blobs == WithBlob(old(blobs), key, data) && (wrote <==> key !in old(blobs))
    {
      if key in blobs { return false; }
      blobs := blobs[key := data];
      return true;
    }

    method RecordMetadata(data: Bytes, row: Option<RowRequest>) returns (ok: bool)
      modifies this`rows
      ensures ok <==> row.None? || row.value.id !in old(rows)
      ensures rows == if row.Some? && ok then old(rows)[row.value.id := NewRow(sha, data, row.value)] else old(rows)
    {
      if row.None? { return true; }
      if row.value.id in rows { return false; }
      rows := rows[row.value.id := NewRow(sha, data, row.value)];
      return true;
    }

    method Put(data: Bytes, row: Option<RowRequest>) returns (ok: bool)
      modifies this
      ensures (View(), ok) == PutData(sha, old(View()), data, row)
      ensures ok <==> row.None? || row.value.id !in old(rows)
      ensures rows == if row.Some? && ok then old(rows)[row.value.id := rows[row.value.id]] else old(rows)
      ensures row.Some? && ok ==> RecordsRequest(rows[row.value.id], sha(data), row.value)
      ensures var d := sha(data); var key := d[..2] + "/" + d[2..4] + "/" + d;
              blobs == if key in old(blobs) then old(blobs) else old(blobs)[key := data]
    {
      var digest := sha(data);
      DigestsHaveKeys(digest);
      var key := StorageKeyFor(digest).value;
      var wrote := WriteIfAbsent(key, data);
      ok := RecordMetadata(data, row);
    }

    /** Reads the stream chunk by chunk into a temporary file, then stores it unless an
        object with that digest exists. */
    method PutStream(chunks: seq<Bytes>, row: Option<RowRequest>) returns (ok: bool)
      modifies this
      ensures (View(), ok) == PutData(sha, old(View()), Streamed(chunks), row)
    {
      var tmp: Bytes := [];
      var i := 0;
      while i < |chunks|
        invariant 0 <= i <= |chunks| && View() == old(View())
        invariant Streamed(chunks) == tmp + Streamed(chunks[i..])
      {
        if chunks[i] == [] { break; }
        tmp := tmp + chunks[i];
        i := i + 1;
      }
      assert Streamed(chunks) == tmp;
      var digest := sha(tmp);
      DigestsHaveKeys(digest);
      var key := StorageKeyFor(digest).value;
      var wrote := WriteIfAbsent(key, tmp);
      ok := RecordMetadata(tmp, row);
    }

    method Delete(key: string) returns (existed: bool)
      modifies this`blobs
      ensures blobs == old(blobs) - {key} && (existed <==> key in old(blobs))
    {
      existed := key in blobs;
      blobs := blobs - {key};
    }

    method ApplyRetention(plan: seq<Decision>) returns (softDeleted: nat, removed: seq<string>)
      modifies this
      ensures View() == ApplyPlan(old(View()), plan)
      ensures forall k :: k in removed <==> k in old(blobs) && k !in blobs
    {
      hide LiveKeys, SortedKeys.Sorted;
      var deletedKeys: set<string> := {};
      softDeleted := 0;
      for i := 0 to |plan|
        invariant rows == MarkAll(old(rows), plan[..i]) && deletedKeys == DeletedKeys(old(rows), plan[..i])
        invariant blobs == old(blobs)
      {
        assert plan[..i + 1][..i] == plan[..i];
        var decision := plan[i];
        if !decision.verdict.Downsampled? { continue; }
        if decision.row.id !in rows || rows[decision.row.id].deleted { continue; }
        var row := rows[decision.row.id];
        rows := rows[decision.row.id := row.(deleted := true)];
        deletedKeys := deletedKeys + {row.key};
        softDeleted := softDeleted + 1;
      }
      assert plan[..|plan|] == plan;
      SortedLosesNothing(deletedKeys - LiveKeys(rows));
      removed := RemoveBlobs(SortedKeys.Sorted(deletedKeys - LiveKeys(rows)));
    }

    method RemoveBlobs(removable: seq<string>) returns (removed: seq<string>)
      modifies this`blobs
      ensures blobs == old(blobs) - (set k | k in removable)
      ensures forall k :: k in removed <==> k in old(blobs) && k !in blobs
    {
      removed := [];
      for i := 0 to |removable|
        invariant blobs == old(blobs) - (set k | k in removable[..i])
        invariant forall k :: k in removed <==> k in old(blobs) && k !in blobs
      {
        var existed := Delete(removable[i]);
        if existed { removed := removed + [removable[i]]; }
      }
      assert removable[..|removable|] == removable;
    }
  }
}
