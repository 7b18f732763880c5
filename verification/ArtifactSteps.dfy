/** Storing and retention in their single steps.  A put writes its blob before its row, and
    a retention round commits its marks before it deletes blobs; other puts and rounds may
    come in between.  When exactly can a live row lose its blob? */
module ArtifactSteps {
  import opened Basics
  import opened Retention
  import opened ArtifactStore
  import SortedKeys

  /** Blobs and rows, the rows of puts whose blob step is done, and the keys of committed
      rounds whose blobs are still to be deleted. */
  datatype Store = Store(s: Artifacts, puts: seq<Row>, condemned: multiset<string>)

  datatype Move =
    | WriteBlob(data: Bytes, row: Option<RowRequest>)
    | InsertRow(k: nat)
    | Mark(plan: seq<Decision>)
    | DeleteBlob(key: string)
    | Crash

  function Removable(rows: map<string, Row>, plan: seq<Decision>): set<string> {
    DeletedKeys(rows, plan) - LiveKeys(MarkAll(rows, plan))
  }

  /** A move that does not apply changes nothing; a crash loses what is under way. */
  function Go(sha: Sha, st: Store, m: Move): Store {
    match m
    case WriteBlob(data, row) =>
      st.(s := Artifacts(WithBlob(st.s.blobs, KeyOf(sha(data)), data), st.s.rows),
      puts := st.puts + if row.Some? then [NewRow(sha, data, row.value)] else [])
    case InsertRow(k) =>
      if k >= |st.puts| then st
      else
        var q := st.puts[k];
        st.(s := if q.id in st.s.rows then st.s else Artifacts(st.s.blobs, st.s.rows[q.id := q]),
        puts := st.puts[..k] + st.puts[k + 1..])
    case Mark(plan) =>
      st.(s := Artifacts(st.s.blobs, MarkAll(st.s.rows, plan)),
      condemned := st.condemned + multiset(Removable(st.s.rows, plan)))
    case DeleteBlob(key) =>
      if key !in st.condemned then st
      else st.(s := Artifacts(st.s.blobs - {key}, st.s.rows), condemned := st.condemned - multiset{key})
    case Crash => st.(puts := [], condemned := multiset{})
  }

  function Play(sha: Sha, st: Store, moves: seq<Move>): Store {
    if moves == [] then st else Go(sha, Play(sha, st, moves[..|moves| - 1]), moves[|moves| - 1])
  }

  const NEW_STORE := Store(NO_ARTIFACTS, [], multiset{})

  // ---------- undisturbed operations ----------

  lemma PutIsTwoMoves(sha: Sha, st: Store, data: Bytes, q: RowRequest)
    ensures Go(sha, Go(sha, st, WriteBlob(data, Some(q))), InsertRow(|st.puts|))
            == st.(s := PutData(sha, st.s, data, Some(q)).0)
  {
    var st1 := Go(sha, st, WriteBlob(data, Some(q)));
    assert st1.puts[..|st.puts|] + st1.puts[|st.puts| + 1..] == st.puts;
  }

  function Deletions(keys: seq<string>): seq<Move> {
    seq(|keys|, i requires 0 <= i < |keys| => DeleteBlob(keys[i]))
  }

  lemma {:induction false} DeletionsDelete(sha: Sha, st: Store, keys: seq<string>, others: multiset<string>)
    requires st.condemned == others + multiset(keys)
    ensures Play(sha, st, Deletions(keys))
            == Store(Artifacts(st.s.blobs - (set k | k in keys), st.s.rows), st.puts, others)
  {
    if keys == [] {
      assert st.s.blobs - (set k | k in keys) == st.s.blobs;
    } else {
      var n := |keys| - 1;
      var before, last := keys[..n], keys[n];
      assert keys == before + [last];
      assert Deletions(keys)[..n] == Deletions(before);
      DeletionsDelete(sha, st, before, others + multiset{last});
      OneMoreDeletion(sha, Play(sha, st, Deletions(before)), last, others);
      KeysGrow(st.s.blobs, before, last);
    }
  }

  lemma OneMoreDeletion(sha: Sha, st: Store, key: string, others: multiset<string>)
    requires st.condemned == others + multiset{key}
    ensures Go(sha, st, DeleteBlob(key)) == Store(Artifacts(st.s.blobs - {key}, st.s.rows), st.puts, others)
  {
    assert others + multiset{key} - multiset{key} == others;
  }

  lemma KeysGrow(blobs: map<string, Bytes>, before: seq<string>, last: string)
    ensures blobs - (set k | k in before + [last]) == blobs - (set k | k in before) - {last}
  {
    assert (set k | k in before + [last]) == (set k | k in before) + {last};
  }

  lemma {:induction false} DistinctMultiset(keys: seq<string>, all: set<string>)
    requires forall i, j :: 0 <= i < j < |keys| ==> keys[i] != keys[j]
    requires forall k :: k in keys <==> k in all
    ensures multiset(keys) == multiset(all)
  {
    if keys != [] {
      var n := |keys| - 1;
      assert keys == keys[..n] + [keys[n]];
      assert keys[n] !in keys[..n];
      DistinctMultiset(keys[..n], all - {keys[n]});
    }
  }

  /** A round is its mark followed by its deletions, in sorted order. */
  lemma RoundIsMarkThenDeletions(sha: Sha, st: Store, plan: seq<Decision>)
    ensures Play(sha, Go(sha, st, Mark(plan)), Deletions(SortedKeys.Sorted(Removable(st.s.rows, plan))))
            == st.(s := ApplyPlan(st.s, plan))
  {
    hide MarkAll, DeletedKeys, LiveKeys, SortedKeys.Before;
    var keys := SortedKeys.Sorted(Removable(st.s.rows, plan));
    DistinctMultiset(keys, Removable(st.s.rows, plan));
    DeletionsDelete(sha, Go(sha, st, Mark(plan)), keys, st.condemned);
    assert (set k | k in keys) == Removable(st.s.rows, plan);
  }

  // ---------- careful moves lose nothing ----------

  predicate Free(st: Store, q: Row) {
    q.id !in st.s.rows
  }

  /** Live rows are readable, none of their blobs is condemned, and every row still to be
      inserted has its blob. */
  ghost predicate Clear(sha: Sha, st: Store) {
    && Sound(sha, st.s)
    && (forall k :: k in st.condemned ==> k !in LiveKeys(st.s.rows))
    && (forall q :: q in st.puts ==> !q.deleted && q.key == KeyOf(q.sha) && (Free(st, q) ==> q.key in st.s.blobs))
  }

  /** No row is inserted whose blob is condemned, and no blob is deleted that a row still to
      be inserted needs. */
  predicate Careful(st: Store, m: Move) {
    match m
    case InsertRow(k) => k < |st.puts| && Free(st, st.puts[k]) ==> st.puts[k].key !in st.condemned
    case DeleteBlob(key) => key in st.condemned ==> forall q :: q in st.puts && Free(st, q) ==> q.key != key
    case _ => true
  }

  lemma BlobHasDigest(sha: Sha, s: Artifacts, q: Row)
    requires KeyedByContent(sha, s.blobs) && q.key == KeyOf(q.sha) && q.key in s.blobs
    ensures sha(s.blobs[q.key]) == q.sha
  {
    KeysAreDistinct(sha(s.blobs[q.key]), q.sha);
  }

  lemma WriteKeepsClear(sha: Sha, st: Store, data: Bytes, row: Option<RowRequest>)
    requires Clear(sha, st)
    ensures Clear(sha, Go(sha, st, WriteBlob(data, row)))
  {
    PutKeepsSound(sha, st.s, data, None);
  }

  lemma InsertKeepsClearIff(sha: Sha, st: Store, k: nat)
    requires Clear(sha, st)
    ensures Clear(sha, Go(sha, st, InsertRow(k))) <==> Careful(st, InsertRow(k))
  {
    if k < |st.puts| && Free(st, st.puts[k]) {
      var q, after := st.puts[k], Go(sha, st, InsertRow(k)).s;
      assert q in st.puts;
      BlobHasDigest(sha, st.s, q);
      assert LiveKeys(after.rows) == LiveKeys(st.s.rows) + {q.key} by {
        forall key ensures key in LiveKeys(after.rows) <==> key in LiveKeys(st.s.rows) + {q.key} {
          if key in LiveKeys(st.s.rows) {
            var id :| id in st.s.rows && !st.s.rows[id].deleted && st.s.rows[id].key == key;
            assert after.rows[id].key == key;
          }
          if key == q.key { assert after.rows[q.id].key == key; }
        }
      }
      forall id | id in after.rows && !after.rows[id].deleted ensures Readable(sha, after, id) {
        if id != q.id { assert Readable(sha, st.s, id); }
      }
    }
  }

  lemma MarkingShrinksLive(rows: map<string, Row>, plan: seq<Decision>)
    ensures LiveKeys(MarkAll(rows, plan)) <= LiveKeys(rows)
  {
    MarkingKeepsRows(rows, plan);
    var after := MarkAll(rows, plan);
    forall key | key in LiveKeys(after) ensures key in LiveKeys(rows) {
      var id :| id in after && !after[id].deleted && after[id].key == key;
      assert rows[id].key == key;
    }
  }

  lemma MarkingKeepsSound(sha: Sha, s: Artifacts, plan: seq<Decision>)
    requires Sound(sha, s)
    ensures Sound(sha, Artifacts(s.blobs, MarkAll(s.rows, plan)))
  {
    var after := Artifacts(s.blobs, MarkAll(s.rows, plan));
    MarkingKeepsRows(s.rows, plan);
    forall id | id in after.rows && !after.rows[id].deleted ensures Readable(sha, after, id) {
      assert Readable(sha, s, id);
    }
  }

  lemma MarkKeepsClear(sha: Sha, st: Store, plan: seq<Decision>)
    requires Clear(sha, st)
    ensures Clear(sha, Go(sha, st, Mark(plan)))
  {
    MarkingKeepsSound(sha, st.s, plan);
    MarkingShrinksLive(st.s.rows, plan);
    MarkingKeepsRows(st.s.rows, plan);
    hide Sound, MarkAll, LiveKeys, DeletedKeys;
  }

  lemma DeleteKeepsClearIff(sha: Sha, st: Store, key: string)
    requires Clear(sha, st)
    ensures Clear(sha, Go(sha, st, DeleteBlob(key))) <==> Careful(st, DeleteBlob(key))
  {
    var after := Go(sha, st, DeleteBlob(key));
    if key in st.condemned {
      forall id | id in after.s.rows && !after.s.rows[id].deleted ensures Readable(sha, after.s, id) {
        assert Readable(sha, st.s, id) && st.s.rows[id].key in LiveKeys(st.s.rows);
      }
    }
  }

  /** From a clear store a move leads to a clear store exactly when it is careful. */
  lemma MoveKeepsClearIff(sha: Sha, st: Store, m: Move)
    requires Clear(sha, st)
    ensures Clear(sha, Go(sha, st, m)) <==> Careful(st, m)
  {
    hide Clear;
    match m
    case WriteBlob(data, row) => WriteKeepsClear(sha, st, data, row);
    case InsertRow(k) => InsertKeepsClearIff(sha, st, k);
    case Mark(plan) => MarkKeepsClear(sha, st, plan);
    case DeleteBlob(key) => DeleteKeepsClearIff(sha, st, key);
    case Crash => CrashKeepsClear(sha, st);
  }

  lemma CrashKeepsClear(sha: Sha, st: Store)
    requires Clear(sha, st)
    ensures Clear(sha, Go(sha, st, Crash))
  {
  }

  ghost predicate AlwaysCareful(sha: Sha, st: Store, moves: seq<Move>) {
    forall n :: 0 <= n < |moves| ==> Careful(Play(sha, st, moves[..n]), moves[n])
  }

  lemma {:induction false} CarefulMovesKeepClear(sha: Sha, st: Store, moves: seq<Move>)
    requires Clear(sha, st) && AlwaysCareful(sha, st, moves)
    ensures Clear(sha, Play(sha, st, moves))
  {
    hide Clear, Careful;
    if moves != [] {
      var n := |moves| - 1;
      forall i | 0 <= i < n ensures Careful(Play(sha, st, moves[..n][..i]), moves[..n][i]) {
        assert moves[..n][..i] == moves[..i];
      }
      CarefulMovesKeepClear(sha, st, moves[..n]);
      MoveKeepsClearIff(sha, Play(sha, st, moves[..n]), moves[n]);
    }
  }

  /** Whatever puts and rounds interleave: as long as every move is careful, every live row
      can be read. */
  lemma CarefulHistoriesStayReadable(sha: Sha, moves: seq<Move>)
    requires AlwaysCareful(sha, NEW_STORE, moves)
    ensures Sound(sha, Play(sha, NEW_STORE, moves).s)
  {
    CarefulMovesKeepClear(sha, NEW_STORE, moves);
  }

  // ---------- what the operations under way can lose ----------

  /** Content is being stored whose blob a committed round is about to delete. */
  predicate Overlap(st: Store) {
    exists q :: q in st.puts && Free(st, q) && q.key in st.condemned
  }

  predicate Finishing(moves: seq<Move>) {
    forall n :: 0 <= n < |moves| ==> moves[n].InsertRow? || moves[n].DeleteBlob?
  }

  /** Some live row cannot be read. */
  predicate Lost(sha: Sha, s: Artifacts) {
    exists id :: id in s.rows && !s.rows[id].deleted && !Readable(sha, s, id)
  }

  ghost predicate CanLose(sha: Sha, st: Store) {
    exists moves :: Finishing(moves) && Lost(sha, Play(sha, st, moves).s)
  }

  lemma NoOverlapStays(st: Store, sha: Sha, m: Move)
    requires !Overlap(st) && (m.InsertRow? || m.DeleteBlob?)
    ensures Careful(st, m) && !Overlap(Go(sha, st, m))
  {
    var after := Go(sha, st, m);
    forall q | q in after.puts && Free(after, q) ensures q.key !in after.condemned {
      assert q in st.puts && Free(st, q);
    }
    if m.InsertRow? && m.k < |st.puts| { assert st.puts[m.k] in st.puts; }
  }

  lemma {:induction false} FinishingLosesNothing(sha: Sha, st: Store, moves: seq<Move>)
    requires Clear(sha, st) && !Overlap(st) && Finishing(moves)
    ensures Clear(sha, Play(sha, st, moves)) && !Overlap(Play(sha, st, moves))
  {
    hide Clear, Overlap, Careful;
    if moves != [] {
      var n := |moves| - 1;
      FinishingLosesNothing(sha, st, moves[..n]);
      NoOverlapStays(Play(sha, st, moves[..n]), sha, moves[n]);
      MoveKeepsClearIff(sha, Play(sha, st, moves[..n]), moves[n]);
    }
  }

  /** The row is inserted, and then the blob is deleted. */
  lemma OverlapLoses(sha: Sha, st: Store) returns (moves: seq<Move>)
    requires Clear(sha, st) && Overlap(st)
    ensures Finishing(moves) && Lost(sha, Play(sha, st, moves).s)
  {
    var q :| q in st.puts && Free(st, q) && q.key in st.condemned;
    var k :| 0 <= k < |st.puts| && st.puts[k] == q;
    moves := [InsertRow(k), DeleteBlob(q.key)];
    PlayTwo(sha, st, InsertRow(k), DeleteBlob(q.key));
    var after := Play(sha, st, moves).s;
    assert q.id in after.rows && after.rows[q.id] == q && !Readable(sha, after, q.id);
  }

  lemma PlayTwo(sha: Sha, st: Store, m: Move, m': Move)
    ensures Play(sha, st, [m, m']) == Go(sha, Go(sha, st, m), m')
  {
    assert [m, m'][..1] == [m] && [m][..0] == [];
    assert Play(sha, st, [m]) == Go(sha, Play(sha, st, []), m);
  }

  /** From a clear store, the puts and rounds under way can in some order leave a live row
      without its blob if and only if content is being stored whose blob is condemned. */
  lemma CanLoseIffOverlap(sha: Sha, st: Store)
    requires Clear(sha, st)
    ensures CanLose(sha, st) <==> Overlap(st)
  {
    hide Overlap;
    if Overlap(st) {
      var moves := OverlapLoses(sha, st);
    } else {
      forall moves | Finishing(moves) ensures !Lost(sha, Play(sha, st, moves).s) {
        FinishingLosesNothing(sha, st, moves);
      }
    }
  }

  // ---------- a put during a round ----------

  /** Whenever a round condemns a blob, storing its content again before it is deleted finds
      the blob still there, and can lose it to the round. */
  lemma PutDuringRoundCanLose(sha: Sha, st: Store, plan: seq<Decision>, data: Bytes, q: RowRequest)
    requires Clear(sha, st) && KeyOf(sha(data)) in Removable(st.s.rows, plan) && q.id !in st.s.rows
    ensures var st1 := Go(sha, Go(sha, st, Mark(plan)), WriteBlob(data, Some(q)));
            Clear(sha, st1) && CanLose(sha, st1)
  {
    var st0 := Go(sha, st, Mark(plan));
    var st1 := Go(sha, st0, WriteBlob(data, Some(q)));
    MarkKeepsClear(sha, st, plan);
    WriteKeepsClear(sha, st0, data, Some(q));
    MarkingKeepsRows(st.s.rows, plan);
    var row := NewRow(sha, data, q);
    assert st1.puts[|st.puts|] == row;
    assert row in st1.puts && Free(st1, row) && row.key in st1.condemned;
    hide Clear, CanLose, Removable;
    CanLoseIffOverlap(sha, st1);
  }

  lemma {:induction false} PlayConcat(sha: Sha, st: Store, a: seq<Move>, b: seq<Move>)
    ensures Play(sha, st, a + b) == Play(sha, Play(sha, st, a), b)
  {
    if b == [] {
      assert a + b == a;
    } else {
      PlayConcat(sha, st, a, b[..|b| - 1]);
      assert (a + b)[..|a + b| - 1] == a + b[..|b| - 1];
    }
  }

  /** A store that holds one content once. */
  lemma StoredOnce(sha: Sha, data: Bytes, q: RowRequest) returns (st: Store)
    ensures st.s.rows == map[q.id := NewRow(sha, data, q)] && Clear(sha, st)
    ensures exists moves :: Play(sha, NEW_STORE, moves) == st
  {
    PutIsTwoMoves(sha, NEW_STORE, data, q);
    PutKeepsSound(sha, NO_ARTIFACTS, data, Some(q));
    st := NEW_STORE.(s := PutData(sha, NO_ARTIFACTS, data, Some(q)).0);
    PlayTwo(sha, NEW_STORE, WriteBlob(data, Some(q)), InsertRow(0));
  }

  /** Such a run: store, mark, and store the same content again. */
  lemma PutDuringRoundIsLost(sha: Sha, data: Bytes, first: RowRequest, second: RowRequest)
    requires first.id != second.id
    ensures exists moves :: Lost(sha, Play(sha, NEW_STORE, moves).s)
  {
    hide Clear, Play, Lost, Removable, Go;
    var st := StoredOnce(sha, data, first);
    var plan := [Decision(NewRow(sha, data, first), Downsampled)];
    OnlyRowIsRemovable(st.s.rows, NewRow(sha, data, first));
    PutDuringRoundCanLose(sha, st, plan, data, second);
    PlayTwo(sha, st, Mark(plan), WriteBlob(data, Some(second)));
    var start :| Play(sha, NEW_STORE, start) == st;
    var next := [Mark(plan), WriteBlob(data, Some(second))];
    var rest :| Finishing(rest) && Lost(sha, Play(sha, Play(sha, st, next), rest).s);
    PlayConcat(sha, NEW_STORE, start, next);
    PlayConcat(sha, NEW_STORE, start + next, rest);
  }

  lemma OnlyRowIsRemovable(rows: map<string, Row>, row: Row)
    requires rows == map[row.id := row] && !row.deleted
    ensures row.key in Removable(rows, [Decision(row, Downsampled)])
  {
    var plan := [Decision(row, Downsampled)];
    assert plan[..0] == [] && MarkAll(rows, []) == rows;
    assert MarkAll(rows, plan) == rows[row.id := row.(deleted := true)];
  }
}
