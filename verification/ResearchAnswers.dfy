/** The validators of the research models' answers: extracted findings become evidence only
    with a verbatim excerpt, and final answers only with saved evidence behind them. */
module ResearchAnswers {
  import opened Basics

  // ---------- text ----------

  predicate OccursAt(text: string, part: string, i: nat) {
    i + |part| <= |text| && text[i..i + |part|] == part
  }

  predicate Contains(text: string, part: string) {
    exists i: nat :: i <= |text| && OccursAt(text, part, i)
  }

  /** Library functions the validators call, known by name only. */
  datatype Library = Library(
    httpSource: string -> bool,       // urlsplit: http(s) scheme, a host, no user name
    blank: string -> bool,            // nothing but white space
    redact: string -> string,
    normal: string -> string)         // case-folded, white space collapsed

  const REDACTED := "[REDACTED]"

  // ---------- evidence ----------

  datatype Finding = Finding(field: string, value: string, excerpt: string)

  datatype Source = Source(url: string, title: string, contentHash: string, offset: nat)

  datatype Evidence = Evidence(id: string, finding: Finding, source: Source)

  /** The bounds of the response schema. */
  predicate WithinSchema(findings: seq<Finding>) {
    && |findings| <= 60
    && forall i :: 0 <= i < |findings| ==>
         findings[i].field != "" && 1 <= |findings[i].value| <= 2000 && 1 <= |findings[i].excerpt| <= 2000
  }

  /** A finding that may be saved: a requested field, a verbatim excerpt, no credentials. */
  predicate Supported(lib: Library, fields: set<string>, text: string, f: Finding) {
    && f.field in fields
    && !lib.blank(f.value) && !lib.blank(f.excerpt) && Contains(text, f.excerpt)
    && !Contains(f.excerpt, REDACTED) && lib.redact(f.value) == f.value
  }

  /** parse_extraction.  `parsed` is what the schema validator made of the response, if
      anything; `ids` are the identifiers drawn for the evidence. */
  method ParseExtraction(
    lib: Library, parsed: Option<seq<Finding>>, fields: set<string>, text: string, source: Source, ids: seq<string>)
    returns (r: Result<seq<Evidence>>)
    requires parsed.Some? ==> |ids| >= |parsed.value|
    ensures r.Ok? <==>
      && parsed.Some? && WithinSchema(parsed.value) && lib.httpSource(source.url)
      && forall i :: 0 <= i < |parsed.value| ==> Supported(lib, fields, text, parsed.value[i])
    ensures r.Ok? ==>
      && |r.value| == |parsed.value|
      && forall i :: 0 <= i < |r.value| ==> r.value[i] == Evidence(ids[i], parsed.value[i], source)
  {
    if parsed.None? || !WithinSchema(parsed.value) { return Err("invalid research extraction"); }
    if !lib.httpSource(source.url) { return Err("evidence must have an actual page URL"); }
    var findings := parsed.value;
    var evidence: seq<Evidence> := [];
    for i := 0 to |findings|
      invariant |evidence| == i
      invariant forall j :: 0 <= j < i ==>
        Supported(lib, fields, text, findings[j]) && evidence[j] == Evidence(ids[j], findings[j], source)
    {
      var f := findings[i];
      ghost var supported := Supported(lib, fields, text, f);
      if f.field !in fields { return Err("unrequested field"); }
      var occurs := Occurs(text, f.excerpt);
      if lib.blank(f.value) || lib.blank(f.excerpt) || !occurs { return Err("excerpt does not occur"); }
      var redacted := Occurs(f.excerpt, REDACTED);
      if redacted || lib.redact(f.value) != f.value { return Err("redacted credentials"); }
      evidence := evidence + [Evidence(ids[i], f, source)];
    }
    return Ok(evidence);
  }

  method Occurs(text: string, part: string) returns (found: bool)
    ensures found <==> Contains(text, part)
  {
    if |part| > |text| { return false; }
    for i := 0 to |text| - |part| + 1
      invariant forall j :: 0 <= j < i ==> !OccursAt(text, part, j)
    {
      if OccursAt(text, part, i) { return true; }
    }
    return false;
  }

  // ---------- answers ----------

  datatype Status = Found | Missing | Conflicting

  datatype FieldAnswer = FieldAnswer(answer: Option<string>, status: Status, evidenceIds: seq<string>)

  datatype FieldResult = FieldResult(answer: Option<string>, status: Status, sources: seq<Evidence>)

  /** Saved evidence by identifier; a later item replaces an earlier one. */
  function SavedBy(evidence: seq<Evidence>): map<string, Evidence> {
    if evidence == [] then map[]
    else SavedBy(evidence[..|evidence| - 1])[evidence[|evidence| - 1].id := evidence[|evidence| - 1]]
  }

  /** The distinct normalised values saved for a field. */
  function Values(lib: Library, saved: map<string, Evidence>, name: string): set<string> {
    set id | id in saved && saved[id].finding.field == name :: lib.normal(saved[id].finding.value)
  }

  function CitedValues(lib: Library, sources: seq<Evidence>): set<string> {
    set i | 0 <= i < |sources| :: lib.normal(sources[i].finding.value)
  }

  /** list(dict.fromkeys(ids)): each identifier once, at its first place. */
  function Distinct(ids: seq<string>): seq<string> {
    if ids == [] then []
    else
      var before, id := Distinct(ids[..|ids| - 1]), ids[|ids| - 1];
      if id in before then before else before + [id]
  }

  predicate CitesSaved(saved: map<string, Evidence>, name: string, ids: seq<string>) {
    forall i :: 0 <= i < |ids| ==> ids[i] in saved && saved[ids[i]].finding.field == name
  }

  function SavedOf(saved: map<string, Evidence>, ids: seq<string>): seq<Evidence> {
    if ids == [] then []
    else
      SavedOf(saved, ids[..|ids| - 1])
      + if ids[|ids| - 1] in saved then [saved[ids[|ids| - 1]]] else []
  }

  /** The answer with its citations replaced by the saved evidence, each once. */
  function Resolved(saved: map<string, Evidence>, a: FieldAnswer): FieldResult {
    FieldResult(a.answer, a.status, SavedOf(saved, Distinct(a.evidenceIds)))
  }

  /** An answer the validator lets through. */
  predicate Acceptable(lib: Library, saved: map<string, Evidence>, name: string, a: FieldAnswer) {
    && CitesSaved(saved, name, a.evidenceIds)
    && var values := Values(lib, saved, name);
       var sources := Resolved(saved, a).sources;
       match a.status
       case Missing => values == {} && a.answer.None? && sources == []
       case Found =>
         && |values| == 1 && sources != []
         && a.answer.Some? && a.answer.value != "" && !lib.blank(a.answer.value) && NoCredentials(lib, a.answer)
       case Conflicting =>
         |values| >= 2 && CitedValues(lib, sources) == values && NoCredentials(lib, a.answer)
  }

  predicate NoCredentials(lib: Library, answer: Option<string>) {
    answer.Some? ==> !Contains(answer.value, REDACTED) && lib.redact(answer.value) == answer.value
  }

  lemma {:induction false} DistinctCoversAll(ids: seq<string>)
    ensures forall id :: id in Distinct(ids) <==> id in ids
  {
    if ids != [] {
      DistinctCoversAll(ids[..|ids| - 1]);
      assert ids == ids[..|ids| - 1] + [ids[|ids| - 1]];
    }
  }

  /** parse_synthesis.  `parsed` lists the fields of the response in order, if it is valid. */
  method ParseSynthesis(
    lib: Library, parsed: Option<seq<(string, FieldAnswer)>>, fields: set<string>, evidence: seq<Evidence>)
    returns (r: Result<map<string, FieldResult>>)
    requires parsed.Some? ==> forall i, j :: 0 <= i < j < |parsed.value| ==> parsed.value[i].0 != parsed.value[j].0
    ensures r.Ok? <==> Accepted(lib, parsed, fields, evidence)
    ensures r.Ok? ==> r.value.Keys == fields
    ensures r.Ok? ==> forall i :: 0 <= i < |parsed.value| ==>
      parsed.value[i].0 in r.value && r.value[parsed.value[i].0] == Resolved(SavedBy(evidence), parsed.value[i].1)
  {
    hide Acceptable, Resolved, SavedBy;
    if evidence == [] { return Err("no collected evidence"); }
    if parsed.None? { return Err("invalid research result"); }
    var answers := parsed.value;
    if (set i | 0 <= i < |answers| :: answers[i].0) != fields { return Err("every requested field exactly once"); }
    var saved := SavedBy(evidence);
    var result: map<string, FieldResult> := map[];
    for i := 0 to |answers|
      invariant result.Keys == set j | 0 <= j < i :: answers[j].0
      invariant forall j :: 0 <= j < i ==>
        Acceptable(lib, saved, answers[j].0, answers[j].1) && result[answers[j].0] == Resolved(saved, answers[j].1)
    {
      var one := ResolveField(lib, saved, answers[i].0, answers[i].1);
      if one.Err? { return Err(one.why); }
      result := result[answers[i].0 := one.value];
    }
    return Ok(result);
  }

  predicate Accepted(
    lib: Library, parsed: Option<seq<(string, FieldAnswer)>>, fields: set<string>, evidence: seq<Evidence>)
  {
    && evidence != [] && parsed.Some?
    && (set i | 0 <= i < |parsed.value| :: parsed.value[i].0) == fields
    && forall i :: 0 <= i < |parsed.value| ==>
         Acceptable(lib, SavedBy(evidence), parsed.value[i].0, parsed.value[i].1)
  }

  /** The checks for one field, in the order of the source. */
  method ResolveField(lib: Library, saved: map<string, Evidence>, name: string, a: FieldAnswer)
    returns (r: Result<FieldResult>)
    ensures r.Ok? <==> Acceptable(lib, saved, name, a)
    ensures r.Ok? ==> r.value == Resolved(saved, a)
  {
    hide Contains;
    var ids := Distinct(a.evidenceIds);
    DistinctCoversAll(a.evidenceIds);
    var citations: seq<Evidence> := [];
    for i := 0 to |ids|
      invariant forall j :: 0 <= j < i ==> ids[j] in saved && saved[ids[j]].finding.field == name
      invariant citations == SavedOf(saved, ids[..i])
    {
      assert ids[..i + 1][..i] == ids[..i];
      if ids[i] !in saved || saved[ids[i]].finding.field != name {
        assert ids[i] in a.evidenceIds;
        return Err("citation does not refer to saved evidence");
      }
      citations := citations + [saved[ids[i]]];
    }
    assert ids[..|ids|] == ids;
    forall i | 0 <= i < |a.evidenceIds|
      ensures a.evidenceIds[i] in saved && saved[a.evidenceIds[i]].finding.field == name
    {
      assert a.evidenceIds[i] in ids;
    }
    assert CitesSaved(saved, name, a.evidenceIds);
    var values := Values(lib, saved, name);
    var citedValues := CitedValues(lib, citations);
    var ok: bool;
    match a.status {
      case Missing => ok := values == {} && a.answer.None? && citations == [];
      case Found =>
        ok := citations != [] && a.answer.Some? && a.answer.value != "" && !lib.blank(a.answer.value) && |values| == 1;
      case Conflicting => ok := citations != [] && |values| >= 2 && citedValues == values;
    }
    if !ok { return Err("answer does not fit the saved evidence"); }
    if !a.status.Missing? && a.answer.Some? {
      var redacted := Occurs(a.answer.value, REDACTED);
      if redacted || lib.redact(a.answer.value) != a.answer.value { return Err("result contains credentials"); }
    }
    return Ok(FieldResult(a.answer, a.status, citations));
  }

  // ---------- when an answer is accepted ----------

  /** What is saved under the identifier: the last piece of evidence that has it. */
  predicate SavedUnder(evidence: seq<Evidence>, i: int, id: string) {
    0 <= i < |evidence| && evidence[i].id == id && forall j :: i < j < |evidence| ==> evidence[j].id != id
  }

  lemma {:induction false} LastOneIsSaved(evidence: seq<Evidence>, id: string)
    ensures id in SavedBy(evidence) <==> exists i :: SavedUnder(evidence, i, id)
    ensures forall i :: SavedUnder(evidence, i, id) ==> id in SavedBy(evidence) && SavedBy(evidence)[id] == evidence[i]
  {
    if evidence != [] {
      var n := |evidence| - 1;
      LastOneIsSaved(evidence[..n], id);
      if evidence[n].id == id {
        assert SavedUnder(evidence, n, id);
      } else {
        forall i ensures SavedUnder(evidence, i, id) <==> SavedUnder(evidence[..n], i, id) {}
      }
    }
  }

  predicate ComesBefore(ids: seq<string>, x: string, y: string) {
    exists p :: 0 <= p < |ids| && ids[p] == x && y !in ids[..p]
  }

  lemma StillComesBefore(ids: seq<string>, x: string, y: string)
    requires ids != [] && x != y
    requires ComesBefore(ids[..|ids| - 1], x, y) || (x in ids[..|ids| - 1] && y !in ids[..|ids| - 1])
    ensures ComesBefore(ids, x, y)
  {
    var before := ids[..|ids| - 1];
    var p :| 0 <= p < |before| && before[p] == x && y !in before[..p];
    assert ids[p] == x && ids[..p] == before[..p];
  }

  /** The identifiers come once each, in the order of their first places. */
  lemma {:induction false} DistinctKeepsFirsts(ids: seq<string>)
    ensures forall i, j :: 0 <= i < j < |Distinct(ids)| ==> Distinct(ids)[i] != Distinct(ids)[j]
    ensures forall i, j :: 0 <= i < j < |Distinct(ids)| ==> ComesBefore(ids, Distinct(ids)[i], Distinct(ids)[j])
  {
    if ids != [] {
      var before, after := Distinct(ids[..|ids| - 1]), Distinct(ids);
      DistinctKeepsFirsts(ids[..|ids| - 1]);
      DistinctCoversAll(ids[..|ids| - 1]);
      hide ComesBefore;
      forall i, j | 0 <= i < j < |after|
        ensures after[i] != after[j] && ComesBefore(ids, after[i], after[j])
      {
        assert after[i] == before[i] && before[i] in before;
        if j < |before| { assert after[j] == before[j]; }
        StillComesBefore(ids, after[i], after[j]);
      }
    }
  }

  lemma {:induction false} SavedOfEach(saved: map<string, Evidence>, ids: seq<string>)
    requires forall i :: 0 <= i < |ids| ==> ids[i] in saved
    ensures |SavedOf(saved, ids)| == |ids|
    ensures forall i :: 0 <= i < |ids| ==> SavedOf(saved, ids)[i] == saved[ids[i]]
  {
    if ids != [] { SavedOfEach(saved, ids[..|ids| - 1]); }
  }

  /** The piece of evidence is what is saved under the identifier. */
  ghost predicate IsSaved(evidence: seq<Evidence>, id: string, piece: Evidence) {
    exists i :: SavedUnder(evidence, i, id) && evidence[i] == piece
  }

  /** The identifier is that of evidence saved for the field. */
  ghost predicate IsFor(evidence: seq<Evidence>, id: string, name: string) {
    exists i :: SavedUnder(evidence, i, id) && evidence[i].finding.field == name
  }

  lemma SavedIff(evidence: seq<Evidence>, id: string, name: string)
    ensures id in SavedBy(evidence) ==> IsSaved(evidence, id, SavedBy(evidence)[id])
    ensures id in SavedBy(evidence) && SavedBy(evidence)[id].finding.field == name <==> IsFor(evidence, id, name)
  {
    LastOneIsSaved(evidence, id);
  }

  lemma CitesSavedIff(evidence: seq<Evidence>, name: string, ids: seq<string>)
    ensures CitesSaved(SavedBy(evidence), name, ids) <==> forall id :: id in ids ==> IsFor(evidence, id, name)
  {
    forall id
      ensures id in SavedBy(evidence) && SavedBy(evidence)[id].finding.field == name <==> IsFor(evidence, id, name)
    {
      SavedIff(evidence, id, name);
    }
    hide IsFor, SavedBy;
  }

  /** The sources of an answer that cites saved evidence only: what is saved under each cited
      identifier, once each, in the order of the citations. */
  lemma SourcesAreCited(evidence: seq<Evidence>, name: string, a: FieldAnswer)
    requires forall id :: id in a.evidenceIds ==> IsFor(evidence, id, name)
    ensures var sources := Resolved(SavedBy(evidence), a).sources;
            && |sources| == |Distinct(a.evidenceIds)|
            && forall k :: 0 <= k < |sources| ==> IsSaved(evidence, Distinct(a.evidenceIds)[k], sources[k])
  {
    hide SavedOf, SavedBy, Distinct, IsFor, IsSaved;
    var ids := Distinct(a.evidenceIds);
    DistinctCoversAll(a.evidenceIds);
    CitesSavedIff(evidence, name, a.evidenceIds);
    forall k | 0 <= k < |ids| ensures ids[k] in SavedBy(evidence) {
      assert ids[k] in a.evidenceIds;
    }
    SavedOfEach(SavedBy(evidence), ids);
    forall k | 0 <= k < |ids| ensures IsSaved(evidence, ids[k], SavedOf(SavedBy(evidence), ids)[k]) {
      SavedIff(evidence, ids[k], name);
    }
  }

  /** A value that is saved for the field. */
  ghost predicate Held(lib: Library, evidence: seq<Evidence>, name: string, value: string) {
    exists i, id :: SavedUnder(evidence, i, id) && evidence[i].finding.field == name
                    && lib.normal(evidence[i].finding.value) == value
  }

  /** A value that one of the citations holds. */
  ghost predicate Cited(lib: Library, evidence: seq<Evidence>, ids: seq<string>, value: string) {
    exists i, id :: id in ids && SavedUnder(evidence, i, id) && lib.normal(evidence[i].finding.value) == value
  }

  lemma ValuesAreHeld(lib: Library, evidence: seq<Evidence>, name: string)
    ensures forall v :: v in Values(lib, SavedBy(evidence), name) <==> Held(lib, evidence, name, v)
  {
    hide SavedBy;
    var saved := SavedBy(evidence);
    forall v ensures v in Values(lib, saved, name) <==> Held(lib, evidence, name, v) {
      if v in Values(lib, saved, name) {
        var id :| id in saved && saved[id].finding.field == name && lib.normal(saved[id].finding.value) == v;
        LastOneIsSaved(evidence, id);
      }
      if Held(lib, evidence, name, v) {
        var i, id :| SavedUnder(evidence, i, id) && evidence[i].finding.field == name
                     && lib.normal(evidence[i].finding.value) == v;
        LastOneIsSaved(evidence, id);
      }
    }
  }

  lemma CitedAreSources(lib: Library, evidence: seq<Evidence>, name: string, a: FieldAnswer)
    requires forall id :: id in a.evidenceIds ==> IsFor(evidence, id, name)
    ensures forall v :: v in CitedValues(lib, Resolved(SavedBy(evidence), a).sources)
                        <==> Cited(lib, evidence, a.evidenceIds, v)
    ensures Resolved(SavedBy(evidence), a).sources == [] <==> a.evidenceIds == []
  {
    hide SavedOf, SavedBy, Resolved;
    var ids, sources := Distinct(a.evidenceIds), Resolved(SavedBy(evidence), a).sources;
    SourcesAreCited(evidence, name, a);
    DistinctCoversAll(a.evidenceIds);
    assert ids == [] <==> a.evidenceIds == [] by {
      if ids != [] { assert ids[0] in ids; }
      if a.evidenceIds != [] { assert a.evidenceIds[0] in ids; }
    }
    forall v ensures v in CitedValues(lib, sources) <==> Cited(lib, evidence, a.evidenceIds, v) {
      if v in CitedValues(lib, sources) {
        var k :| 0 <= k < |sources| && lib.normal(sources[k].finding.value) == v;
        var i :| SavedUnder(evidence, i, ids[k]) && evidence[i] == sources[k];
        assert ids[k] in a.evidenceIds;
      }
      if Cited(lib, evidence, a.evidenceIds, v) {
        var i, id :| id in a.evidenceIds && SavedUnder(evidence, i, id) && lib.normal(evidence[i].finding.value) == v;
        var k :| 0 <= k < |ids| && ids[k] == id;
        assert IsSaved(evidence, id, sources[k]);
      }
    }
  }

  /** An answer is accepted if and only if its citations are of evidence saved for its field
      and its status fits the values saved: none for missing, one for found, and for
      conflicting at least two, all of them cited. */
  lemma AcceptableIff(lib: Library, evidence: seq<Evidence>, name: string, a: FieldAnswer, values: set<string>)
    requires forall v :: v in values <==> Held(lib, evidence, name, v)
    ensures
      Acceptable(lib, SavedBy(evidence), name, a)
      <==>
      && (forall id :: id in a.evidenceIds ==> IsFor(evidence, id, name))
      && (a.status.Missing? ==> |values| == 0 && a.answer.None? && a.evidenceIds == [])
      && (a.status.Found? ==>
            |values| == 1 && a.evidenceIds != []
            && a.answer.Some? && a.answer.value != "" && !lib.blank(a.answer.value))
      && (a.status.Conflicting? ==>
            |values| >= 2 && forall v :: v in values <==> Cited(lib, evidence, a.evidenceIds, v))
      && (!a.status.Missing? && a.answer.Some? ==>
            !Contains(a.answer.value, REDACTED) && lib.redact(a.answer.value) == a.answer.value)
  {
    hide Contains, SavedBy, Held, Cited, IsFor;
    var saved := SavedBy(evidence);
    ValuesAreHeld(lib, evidence, name);
    assert Values(lib, saved, name) == values;
    CitesSavedIff(evidence, name, a.evidenceIds);
    if CitesSaved(saved, name, a.evidenceIds) {
      CitedAreSources(lib, evidence, name, a);
      hide Resolved, CitedValues, Values;
      assert CitedValues(lib, Resolved(saved, a).sources) == values
             <==> forall v :: v in values <==> Cited(lib, evidence, a.evidenceIds, v);
    }
  }

  // ---------- what an accepted result says ----------

  lemma {:induction false} SavedIsEvidence(evidence: seq<Evidence>)
    ensures forall id :: id in SavedBy(evidence) ==> SavedBy(evidence)[id] in evidence && SavedBy(evidence)[id].id == id
  {
    if evidence != [] {
      SavedIsEvidence(evidence[..|evidence| - 1]);
      assert evidence == evidence[..|evidence| - 1] + [evidence[|evidence| - 1]];
    }
  }

  lemma {:induction false} SourcesAreSaved(saved: map<string, Evidence>, name: string, ids: seq<string>)
    requires CitesSaved(saved, name, ids)
    ensures forall s :: s in SavedOf(saved, ids) ==>
      exists id :: id in saved && saved[id] == s && s.finding.field == name
  {
    if ids != [] { SourcesAreSaved(saved, name, ids[..|ids| - 1]); }
  }

  /** The status of an accepted answer is fixed by the saved evidence, a conflicting answer
      cites every distinct value, and every source is saved evidence for that very field. */
  lemma AcceptedAnswerFitsEvidence(
    lib: Library, parsed: Option<seq<(string, FieldAnswer)>>, fields: set<string>, evidence: seq<Evidence>, i: nat)
    requires Accepted(lib, parsed, fields, evidence) && i < |parsed.value|
    ensures
      var (name, a) := parsed.value[i];
      var r, values := Resolved(SavedBy(evidence), a), Values(lib, SavedBy(evidence), name);
      && (r.status == Missing <==> |values| == 0)
      && (r.status == Found <==> |values| == 1)
      && (r.status == Conflicting <==> |values| >= 2)
      && (r.status == Missing ==> r.sources == [] && r.answer.None?)
      && (r.status == Found ==> r.sources != [])
      && (r.status == Conflicting ==> CitedValues(lib, r.sources) == values)
      && (forall s :: s in r.sources ==> s in evidence && s.finding.field == name)
  {
    var (name, a) := parsed.value[i];
    var saved := SavedBy(evidence);
    assert Acceptable(lib, saved, name, a);
    DistinctCoversAll(a.evidenceIds);
    forall j | 0 <= j < |Distinct(a.evidenceIds)|
      ensures Distinct(a.evidenceIds)[j] in saved && saved[Distinct(a.evidenceIds)[j]].finding.field == name
    {
      assert Distinct(a.evidenceIds)[j] in a.evidenceIds;
    }
    SourcesAreSaved(saved, name, Distinct(a.evidenceIds));
    SavedIsEvidence(evidence);
  }
}
