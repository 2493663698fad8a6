/** The scope planner of crates/assistant-runtime/src/lib.rs: which datasets and memories a prompt is
    answered from, and what policy follows. Prompt matching is reduced to its verdicts. */
module ScopePlanner {
  import opened Prelude

  datatype Intent = StaticPage | Report | DataQuestion | OrdinaryChat

  /** A visible dataset with the verdicts of the name match and the business-hint match. */
  datatype Dataset = Dataset(id: string, byName: bool, byHint: bool)

  datatype Confidence = High | Medium | Low
  datatype Source = UserSelected | Planner

  datatype Candidate =
    | DatasetCandidate(id: string, confidence: Confidence, source: Source)
    | MemoryCandidate

  datatype Input = Input(
    intent: Intent,
    selected: Option<string>,
    visible: seq<Dataset>,
    memoryAvailable: bool,
    memoryHinted: bool)

  const MAX_CANDIDATES := 4

  /** What `dedupe_candidates` compares: the kind, and the id of a dataset. */
  predicate SameKey(a: Candidate, b: Candidate) {
    match (a, b)
    case (DatasetCandidate(i, _, _), DatasetCandidate(j, _, _)) => i == j
    case (MemoryCandidate, MemoryCandidate) => true
    case _ => false
  }

  predicate HasKey(cs: seq<Candidate>, c: Candidate) {
    exists i :: 0 <= i < |cs| && SameKey(cs[i], c)
  }

  predicate DistinctKeys(cs: seq<Candidate>) {
    forall i, j :: 0 <= i < j < |cs| ==> !SameKey(cs[i], cs[j])
  }

  // ----- Gathering ---------------------------------------------------------------------------------

  predicate IsVisible(visible: seq<Dataset>, id: string) {
    exists i :: 0 <= i < |visible| && visible[i].id == id
  }

  function SelectedPart(inp: Input): seq<Candidate> {
    if inp.selected.Some? && IsVisible(inp.visible, inp.selected.value)
    then [DatasetCandidate(inp.selected.value, High, UserSelected)] else []
  }

  /** A dataset the planner proposes on its own. */
  predicate Proposed(inp: Input, d: Dataset) {
    inp.intent != OrdinaryChat && inp.selected != Some(d.id) && (d.byName || d.byHint)
  }

  function Proposal(d: Dataset): Candidate {
    DatasetCandidate(d.id, if d.byName then High else Medium, Planner)
  }

  function ProposedPart(inp: Input, n: nat): seq<Candidate>
    requires n <= |inp.visible|
  {
    if n == 0 then []
    else ProposedPart(inp, n - 1) + if Proposed(inp, inp.visible[n - 1]) then [Proposal(inp.visible[n - 1])] else []
  }

  /** Dataset candidates in the order they are pushed, before deduplication. */
  function DatasetPart(inp: Input): seq<Candidate> {
    SelectedPart(inp) + ProposedPart(inp, |inp.visible|)
  }

  predicate MemoryWanted(inp: Input) {
    inp.memoryAvailable && inp.memoryHinted
  }

  /** First occurrence of each key, in order. */
  function Dedupe(cs: seq<Candidate>): seq<Candidate> {
    if cs == [] then []
    else
      var rest := Dedupe(cs[..|cs| - 1]);
      if HasKey(rest, cs[|cs| - 1]) then rest else rest + [cs[|cs| - 1]]
  }

  function Shortlist(cs: seq<Candidate>): seq<Candidate> {
    if |cs| <= MAX_CANDIDATES then cs else cs[..MAX_CANDIDATES]
  }

  /** The candidates `plan_scope` returns. */
  function Candidates(inp: Input): seq<Candidate> {
    Shortlist(Dedupe(DatasetPart(inp) + if MemoryWanted(inp) then [MemoryCandidate] else []))
  }

  /** `dedupe_candidates` with its growing set of seen keys. */
  method DedupeLoop(cs: seq<Candidate>) returns (r: seq<Candidate>)
    ensures r == Dedupe(cs)
  {
    var seen: set<(bool, string)> := {};
    r := [];
    for n := 0 to |cs|
      invariant r == Dedupe(cs[..n])
      invariant forall c :: KeyOf(c) in seen <==> HasKey(r, c)
    {
      assert cs[..n + 1][..n] == cs[..n];
      var key := KeyOf(cs[n]);
      if key !in seen {
        ghost var before := r;
        seen := seen + {key};
        r := r + [cs[n]];
        forall c ensures HasKey(r, c) <==> HasKey(before, c) || SameKey(cs[n], c) {
          if HasKey(before, c) {
            var i :| 0 <= i < |before| && SameKey(before[i], c);
            assert r[i] == before[i];
          }
          if SameKey(cs[n], c) { assert r[|before|] == cs[n]; }
        }
      }
    }
    assert cs[..|cs|] == cs;
  }

  /** The formatted key of a candidate, as a pair of its kind and id. */
  function KeyOf(c: Candidate): (bool, string) {
    match c
    case DatasetCandidate(id, _, _) => (true, id)
    case MemoryCandidate => (false, "local-thread")
  }

  /** The search for the selected dataset. */
  method FindVisible(visible: seq<Dataset>, id: string) returns (found: bool)
    ensures found <==> IsVisible(visible, id)
  {
    for i := 0 to |visible|
      invariant forall j :: 0 <= j < i ==> visible[j].id != id
    {
      if visible[i].id == id { return true; }
    }
    found := false;
  }

  /** `plan_scope` up to the candidate list: push, loop, push, deduplicate, truncate. */
  method PlanCandidates(inp: Input) returns (r: seq<Candidate>)
    ensures r == Candidates(inp)
  {
    var found := inp.selected.Some?;
    if found {
      found := FindVisible(inp.visible, inp.selected.value);
    }
    var raw := if found then [DatasetCandidate(inp.selected.value, High, UserSelected)] else [];
    assert raw == SelectedPart(inp);
    if inp.intent != OrdinaryChat {
      for i := 0 to |inp.visible|
        invariant raw == SelectedPart(inp) + ProposedPart(inp, i)
      {
        var d := inp.visible[i];
        if inp.selected != Some(d.id) && (d.byName || d.byHint) {
          raw := raw + [Proposal(d)];
        }
      }
    } else {
      NothingProposed(inp, |inp.visible|);
    }
    assert raw == DatasetPart(inp);
    if inp.memoryAvailable && inp.memoryHinted {
      raw := raw + [MemoryCandidate];
    }
    assert raw == DatasetPart(inp) + if MemoryWanted(inp) then [MemoryCandidate] else [];
    r := DedupeLoop(raw);
    if |r| > MAX_CANDIDATES {
      r := r[..MAX_CANDIDATES];
    }
  }

  lemma {:induction false} NothingProposed(inp: Input, n: nat)
    requires inp.intent == OrdinaryChat && n <= |inp.visible|
    ensures ProposedPart(inp, n) == []
  {
    if n > 0 { NothingProposed(inp, n - 1); }
  }

  // ----- Deduplication facts -------------------------------------------------------------------------

  lemma {:induction false} DedupeDistinct(cs: seq<Candidate>)
    ensures DistinctKeys(Dedupe(cs))
    ensures forall c :: c in Dedupe(cs) ==> c in cs
  {
    if cs != [] {
      DedupeDistinct(cs[..|cs| - 1]);
    }
  }

  lemma {:induction false} DedupeHead(cs: seq<Candidate>)
    requires cs != []
    ensures Dedupe(cs) != [] && Dedupe(cs)[0] == cs[0]
  {
    if |cs| > 1 {
      DedupeHead(cs[..|cs| - 1]);
    } else {
      assert cs[..0] == [];
    }
  }

  lemma {:induction false} DedupeKeys(cs: seq<Candidate>, c: Candidate)
    ensures HasKey(Dedupe(cs), c) <==> HasKey(cs, c)
  {
    if cs != [] {
      var init, last := cs[..|cs| - 1], cs[|cs| - 1];
      DedupeKeys(init, c);
      DedupeKeys(init, last);
      assert HasKey(cs, c) <==> HasKey(init, c) || SameKey(last, c) by {
        if HasKey(init, c) {
          var i :| 0 <= i < |init| && SameKey(init[i], c);
          assert cs[i] == init[i];
        }
        if SameKey(last, c) { assert cs[|cs| - 1] == last; }
      }
      var rest := Dedupe(init);
      if HasKey(rest, last) {
        var i :| 0 <= i < |rest| && SameKey(rest[i], last);
      } else {
        var r := rest + [last];
        if HasKey(rest, c) {
          var i :| 0 <= i < |rest| && SameKey(rest[i], c);
          assert r[i] == rest[i];
        }
        assert r[|rest|] == last;
      }
    }
  }

  lemma {:induction false} PartIsDatasets(inp: Input, n: nat)
    requires n <= |inp.visible|
    ensures forall c :: c in ProposedPart(inp, n) ==>
              c.DatasetCandidate? && IsVisible(inp.visible, c.id) && c.source == Planner && c.confidence != Low
  {
    if n > 0 { PartIsDatasets(inp, n - 1); }
  }

  // ----- Results ---------------------------------------------------------------------------------------

  /** Visible dataset `i` fits the prompt, and the prompt is not ordinary chat. */
  predicate Fits(inp: Input, i: nat) {
    i < |inp.visible| && inp.intent != OrdinaryChat && (inp.visible[i].byName || inp.visible[i].byHint)
  }

  /** The first visible dataset under `id` that fits is at `i`. */
  predicate FitsFirst(inp: Input, id: string, i: nat) {
    Fits(inp, i) && inp.visible[i].id == id && forall j: nat :: j < i && Fits(inp, j) ==> inp.visible[j].id != id
  }

  /** Where a candidate may come from: memory if it is there and hinted at; the user's own selection, with
      high confidence; or a visible dataset that fits and is not the selection, with high confidence exactly
      if its first fitting entry fits by name. */
  ghost predicate Offered(inp: Input, c: Candidate) {
    match c
    case MemoryCandidate => inp.memoryAvailable && inp.memoryHinted
    case DatasetCandidate(id, confidence, UserSelected) =>
      inp.selected == Some(id) && confidence == High && exists i :: 0 <= i < |inp.visible| && inp.visible[i].id == id
    case DatasetCandidate(id, confidence, Planner) =>
      inp.selected != Some(id)
      && exists i: nat :: FitsFirst(inp, id, i) && confidence == if inp.visible[i].byName then High else Medium
  }

  /** A deduplicated list keeps the first candidate of every key. */
  lemma {:induction false} DedupeFirst(cs: seq<Candidate>, c: Candidate)
    requires c in Dedupe(cs)
    ensures exists k :: 0 <= k < |cs| && cs[k] == c && forall j :: 0 <= j < k ==> !SameKey(cs[j], c)
  {
    var init, last := cs[..|cs| - 1], cs[|cs| - 1];
    if c in Dedupe(init) {
      DedupeFirst(init, c);
      var k :| 0 <= k < |init| && init[k] == c && forall j :: 0 <= j < k ==> !SameKey(init[j], c);
      assert cs[k] == c && forall j :: 0 <= j < k ==> cs[j] == init[j];
    } else {
      DedupeKeys(init, c);
      forall j | 0 <= j < |init| ensures !SameKey(cs[j], c) { assert cs[j] == init[j]; }
    }
  }

  predicate Under(c: Candidate, id: string) {
    c.DatasetCandidate? && c.id == id
  }

  /** The entry that the `k`th proposal among the first `n` entries stems from. */
  function Origin(inp: Input, n: nat, k: nat): (i: nat)
    requires n <= |inp.visible| && k < |ProposedPart(inp, n)|
    ensures i < n
  {
    if k < |ProposedPart(inp, n - 1)| then Origin(inp, n - 1, k) else n - 1
  }

  lemma {:induction false} OriginMeans(inp: Input, n: nat, k: nat)
    requires n <= |inp.visible| && k < |ProposedPart(inp, n)|
    ensures var i := Origin(inp, n, k);
            && Fits(inp, i) && inp.selected != Some(inp.visible[i].id)
            && ProposedPart(inp, n)[k] ==
               DatasetCandidate(inp.visible[i].id, if inp.visible[i].byName then High else Medium, Planner)
  {
    if k < |ProposedPart(inp, n - 1)| { OriginMeans(inp, n - 1, k); }
  }

  lemma {:induction false} OriginsAscend(inp: Input, n: nat, k: nat, l: nat)
    requires n <= |inp.visible| && k < l < |ProposedPart(inp, n)|
    ensures Origin(inp, n, k) < Origin(inp, n, l)
  {
    if l < |ProposedPart(inp, n - 1)| { OriginsAscend(inp, n - 1, k, l); }
  }

  /** Every fitting entry but the selection is proposed, at its place. */
  lemma {:induction false} AllProposed(inp: Input, n: nat, i: nat) returns (k: nat)
    requires i < n <= |inp.visible| && Fits(inp, i) && inp.selected != Some(inp.visible[i].id)
    ensures k < |ProposedPart(inp, n)| && Origin(inp, n, k) == i
    ensures Under(ProposedPart(inp, n)[k], inp.visible[i].id)
  {
    if i == n - 1 { k := |ProposedPart(inp, n - 1)|; } else { k := AllProposed(inp, n - 1, i); }
  }

  function Raw(inp: Input): seq<Candidate> {
    DatasetPart(inp) + if MemoryWanted(inp) then [MemoryCandidate] else []
  }

  /** The first proposal under an id stems from the first entry under that id that fits. */
  lemma {:induction false} FirstProposal(inp: Input, k: nat)
    requires var part := ProposedPart(inp, |inp.visible|);
             k < |part| && forall j :: 0 <= j < k ==> !SameKey(part[j], part[k])
    ensures var part := ProposedPart(inp, |inp.visible|);
            part[k].DatasetCandidate? && FitsFirst(inp, part[k].id, Origin(inp, |inp.visible|, k))
  {
    var n := |inp.visible|;
    var part, i := ProposedPart(inp, n), Origin(inp, n, k);
    OriginMeans(inp, n, k);
    forall j: nat | j < i && Fits(inp, j) ensures inp.visible[j].id != part[k].id {
      if inp.visible[j].id == part[k].id {
        var m := AllProposed(inp, n, j);
        if k < m { OriginsAscend(inp, n, k, m); }
        assert false;
      }
    }
  }

  /** At most four candidates, no key twice, each of them legitimate. */
  lemma {:induction false} CandidatesAreSound(inp: Input)
    ensures |Candidates(inp)| <= 4
    ensures DistinctKeys(Candidates(inp))
    ensures forall c :: c in Candidates(inp) ==> Offered(inp, c)
  {
    DedupeDistinct(Raw(inp));
    forall c | c in Candidates(inp) ensures Offered(inp, c) {
      assert c in Dedupe(Raw(inp));
      DedupeFirst(Raw(inp), c);
      var k :| 0 <= k < |Raw(inp)| && Raw(inp)[k] == c && forall j :: 0 <= j < k ==> !SameKey(Raw(inp)[j], c);
      RawOffered(inp, k);
    }
  }

  lemma {:induction false} RawOffered(inp: Input, k: nat)
    requires k < |Raw(inp)| && forall j :: 0 <= j < k ==> !SameKey(Raw(inp)[j], Raw(inp)[k])
    ensures Offered(inp, Raw(inp)[k])
    ensures var sel, part := SelectedPart(inp), ProposedPart(inp, |inp.visible|);
            |sel| <= k < |sel| + |part| ==>
              && Raw(inp)[k] == part[k - |sel|] && part[k - |sel|].DatasetCandidate?
              && part[k - |sel|].source == Planner
              && FitsFirst(inp, part[k - |sel|].id, Origin(inp, |inp.visible|, k - |sel|))
  {
    hide FitsFirst, SameKey;
    var raw, sel, part := Raw(inp), SelectedPart(inp), ProposedPart(inp, |inp.visible|);
    if |sel| <= k < |sel| + |part| {
      var m := k - |sel|;
      forall j | 0 <= j < m ensures !SameKey(part[j], part[m]) { assert part[j] == raw[|sel| + j]; }
      FirstProposal(inp, m);
      OriginMeans(inp, |inp.visible|, m);
    }
  }

  /** A visible user selection heads the list. */
  lemma {:induction false} SelectionFirst(inp: Input)
    requires inp.selected.Some? && IsVisible(inp.visible, inp.selected.value)
    ensures Candidates(inp) != []
    ensures Candidates(inp)[0] == DatasetCandidate(inp.selected.value, High, UserSelected)
  {
    DedupeHead(Raw(inp));
  }

  /** Two entries of a deduplicated list stand in the order of their first occurrences. */
  lemma {:induction false} DedupeOrder(cs: seq<Candidate>, k: nat, l: nat) returns (p: nat, q: nat)
    requires k < l < |Dedupe(cs)|
    ensures p < q < |cs| && cs[p] == Dedupe(cs)[k] && cs[q] == Dedupe(cs)[l]
    ensures forall j :: 0 <= j < p ==> !SameKey(cs[j], cs[p])
    ensures forall j :: 0 <= j < q ==> !SameKey(cs[j], cs[q])
  {
    var init, last := cs[..|cs| - 1], cs[|cs| - 1];
    var rest := Dedupe(init);
    if l < |rest| {
      p, q := DedupeOrder(init, k, l);
      assert forall j :: 0 <= j < |init| ==> cs[j] == init[j];
    } else {
      assert rest[k] in rest;
      DedupeFirst(init, rest[k]);
      p :| 0 <= p < |init| && init[p] == rest[k] && forall j :: 0 <= j < p ==> !SameKey(init[j], rest[k]);
      q := |cs| - 1;
      DedupeKeys(init, last);
      forall j | 0 <= j < q ensures !SameKey(cs[j], last) { assert cs[j] == init[j]; }
    }
  }

  /** Among the planner's own proposals, the order is that of the visible datasets; the user's selection
      comes before them, and memory after everything. */
  lemma {:induction false} CandidatesInOrder(inp: Input, k: nat, l: nat)
    requires k < l < |Candidates(inp)|
    ensures var c, d := Candidates(inp)[k], Candidates(inp)[l];
            && c.DatasetCandidate?
            && (d.DatasetCandidate? ==> d.source == Planner)
            && (d.DatasetCandidate? && c.source == Planner ==>
                  exists i: nat, j: nat :: i < j && FitsFirst(inp, c.id, i) && FitsFirst(inp, d.id, j))
  {
    var sel, part := SelectedPart(inp), ProposedPart(inp, |inp.visible|);
    var p, q := DedupeOrder(Raw(inp), k, l);
    hide Dedupe, FitsFirst, SameKey, ProposedPart;
    RawOffered(inp, p);
    RawOffered(inp, q);
    if |sel| <= p && q < |sel| + |part| { OriginsAscend(inp, |inp.visible|, p - |sel|, q - |sel|); }
  }

  /** The distinct datasets that could be offered: the selection and all that fit. */
  function DatasetIds(inp: Input): set<string> {
    set i | 0 <= i < |inp.visible| && (Fits(inp, i) || inp.selected == Some(inp.visible[i].id)) :: inp.visible[i].id
  }

  lemma {:induction false} PartHasIds(inp: Input, id: string)
    ensures id in DatasetIds(inp) <==> exists k :: 0 <= k < |DatasetPart(inp)| && Under(DatasetPart(inp)[k], id)
  {
    hide ProposedPart;
    var sel, n := SelectedPart(inp), |inp.visible|;
    var all, part := DatasetPart(inp), ProposedPart(inp, n);
    if k :| 0 <= k < |all| && Under(all[k], id) {
      if k >= |sel| { OriginMeans(inp, n, k - |sel|); }
    }
    if id in DatasetIds(inp) {
      if inp.selected == Some(id) {
        assert Under(all[0], id);
      } else {
        var i :| 0 <= i < n && Fits(inp, i) && inp.visible[i].id == id;
        var k := AllProposed(inp, n, i);
        assert Under(all[|sel| + k], id);
      }
    }
  }

  function IdsOf(cs: seq<Candidate>): set<string> {
    set i | 0 <= i < |cs| && cs[i].DatasetCandidate? :: cs[i].id
  }

  lemma {:induction false} IdsCount(cs: seq<Candidate>)
    requires DistinctKeys(cs) && forall i :: 0 <= i < |cs| ==> cs[i].DatasetCandidate?
    ensures |IdsOf(cs)| == |cs|
  {
    if cs != [] {
      var rest, last := cs[..|cs| - 1], cs[|cs| - 1];
      IdsCount(rest);
      assert IdsOf(cs) == IdsOf(rest) + {last.id};
      assert last.id !in IdsOf(rest);
    }
  }

  /** Before memory is added, deduplication leaves one candidate per dataset that could be offered. */
  lemma {:induction false} DistinctDatasets(inp: Input)
    ensures |Dedupe(DatasetPart(inp))| == |DatasetIds(inp)|
    ensures forall c :: c in Dedupe(DatasetPart(inp)) ==> c.DatasetCandidate?
  {
    hide ProposedPart, Dedupe;
    var part := DatasetPart(inp);
    DedupeDistinct(part);
    forall c | c in part ensures c.DatasetCandidate? {
      var k :| 0 <= k < |part| && part[k] == c;
      if k >= |SelectedPart(inp)| { OriginMeans(inp, |inp.visible|, k - |SelectedPart(inp)|); }
    }
    var short := Dedupe(part);
    assert forall i :: 0 <= i < |short| ==> short[i] in short;
    IdsCount(short);
    forall id ensures id in IdsOf(short) <==> id in DatasetIds(inp) {
      var c := DatasetCandidate(id, Low, Planner);
      PartHasIds(inp, id);
      DedupeKeys(part, c);
      assert HasKey(part, c) <==> exists k :: 0 <= k < |part| && Under(part[k], id) by {
        if k :| 0 <= k < |part| && Under(part[k], id) { assert SameKey(part[k], c); }
        if k :| 0 <= k < |part| && SameKey(part[k], c) { assert Under(part[k], id); }
      }
      if id in IdsOf(short) {
        var k :| 0 <= k < |short| && short[k].DatasetCandidate? && short[k].id == id;
        assert SameKey(short[k], c);
      }
      if HasKey(short, c) { var k :| 0 <= k < |short| && SameKey(short[k], c); }
    }
    assert IdsOf(short) == DatasetIds(inp);
  }

  /** Conversation memory is offered exactly when it is available, hinted at, and fewer than four distinct
      datasets could be offered. */
  lemma {:induction false} MemorySurvives(inp: Input)
    ensures MemoryCandidate in Candidates(inp) <==>
            inp.memoryAvailable && inp.memoryHinted && |DatasetIds(inp)| < 4
  {
    var part := DatasetPart(inp);
    DistinctDatasets(inp);
    hide DatasetIds, DatasetPart;
    var short := Dedupe(part);
    if MemoryWanted(inp) {
      var raw := part + [MemoryCandidate];
      assert raw[..|raw| - 1] == part;
      assert forall i :: 0 <= i < |short| ==> short[i] in short;
      assert !HasKey(short, MemoryCandidate);
      assert Dedupe(raw) == short + [MemoryCandidate];
      if |short| < 4 { assert Candidates(inp)[|short|] == MemoryCandidate; }
    } else {
      assert part + [] == part;
    }
  }

  /** Unless the list is full, every dataset that could be offered is on it. */
  lemma {:induction false} GatheredIsOffered(inp: Input, id: string)
    requires id in DatasetIds(inp) && |Candidates(inp)| < 4
    ensures exists k :: 0 <= k < |Candidates(inp)| && Under(Candidates(inp)[k], id)
  {
    var raw, c := Raw(inp), DatasetCandidate(id, Low, Planner);
    PartHasIds(inp, id);
    var i :| 0 <= i < |DatasetPart(inp)| && Under(DatasetPart(inp)[i], id);
    assert raw[i] == DatasetPart(inp)[i] && SameKey(raw[i], c);
    DedupeKeys(raw, c);
    var k :| 0 <= k < |Dedupe(raw)| && SameKey(Dedupe(raw)[k], c);
    assert Candidates(inp)[k] == Dedupe(raw)[k];
    assert Under(Candidates(inp)[k], id);
  }

  // ----- Scope and policy --------------------------------------------------------------------------------

  datatype Mode = ModeUserSelected | ModePreselected | ModeOrdinaryChat

  datatype Retrieval = NotRequested | Standard | DetailFirst

  datatype ToolAction =
    | RetrievalSearch | RetrievalReadDetail | MediaDetail | ResolveVideoUrl | ExtractPptTranscript
    | PlanStaticPage | PlanReport | AnswerOrdinaryChat

  /** Verdicts about the prompt that the policy depends on. */
  datatype Prompt = Prompt(mediaDetail: bool, videoPpt: bool, directVideo: bool)

  /** `tolerant` is the context budget, `history` whether history is supplied beyond its default. */
  datatype Policy = Policy(
    retrieval: Retrieval,
    preferDetail: bool,
    tolerant: bool,
    history: bool,
    actions: seq<ToolAction>)

  datatype Scope = Scope(mode: Mode, dataset: Option<string>, memory: bool, policy: Policy)

  function When(b: bool, a: ToolAction): seq<ToolAction> {
    if b then [a] else []
  }

  /** The retrieval and media actions. */
  function MediaActions(hasDataset: bool, preferDetail: bool, p: Prompt): seq<ToolAction> {
    When(hasDataset, RetrievalSearch)
    + When(preferDetail, RetrievalReadDetail)
    + When(p.mediaDetail && (!p.videoPpt || hasDataset), MediaDetail)
    + When(p.videoPpt && p.directVideo, ResolveVideoUrl)
    + When(p.videoPpt, ExtractPptTranscript)
  }

  /** `recommended_tool_actions_for_scope`. */
  function Actions(intent: Intent, hasDataset: bool, preferDetail: bool, p: Prompt): seq<ToolAction> {
    var wanted := MediaActions(hasDataset, preferDetail, p) + When(intent == StaticPage, PlanStaticPage)
                  + When(intent == Report, PlanReport);
    if wanted == [] then [AnswerOrdinaryChat] else wanted
  }

  /** `supply_policy_for_scope`. */
  function PolicyFor(intent: Intent, hasDataset: bool, hasMemory: bool, p: Prompt): Policy {
    var preferDetail := hasDataset && (intent == StaticPage || intent == Report || p.mediaDetail || p.videoPpt);
    Policy(if !hasDataset then NotRequested else if preferDetail then DetailFirst else Standard,
           preferDetail, preferDetail || hasMemory, hasMemory, Actions(intent, hasDataset, preferDetail, p))
  }

  /** The two tests of the scope choice: chosen by the user, or any but a low-confidence dataset. */
  predicate Eligible(c: Candidate, byUser: bool) {
    c.DatasetCandidate? && if byUser then c.source == UserSelected else c.confidence != Low
  }

  function FirstEligible(cs: seq<Candidate>, byUser: bool): (r: Option<nat>)
    ensures r.Some? ==> r.value < |cs| && Eligible(cs[r.value], byUser)
    ensures r.Some? ==> forall i :: 0 <= i < r.value ==> !Eligible(cs[i], byUser)
    ensures r.None? ==> forall i :: 0 <= i < |cs| ==> !Eligible(cs[i], byUser)
  {
    if cs == [] then None
    else if Eligible(cs[0], byUser) then Some(0)
    else match FirstEligible(cs[1..], byUser)
      case None => None
      case Some(i) => Some(i + 1)
  }

  /** `selected_scope_from_candidates`. */
  function ScopeOf(cs: seq<Candidate>, intent: Intent, p: Prompt): Scope {
    var memory := MemoryCandidate in cs;
    match FirstEligible(cs, true)
    case Some(i) => Scope(ModeUserSelected, Some(cs[i].id), memory, PolicyFor(intent, true, memory, p))
    case None =>
      match FirstEligible(cs, false)
      case Some(i) => Scope(ModePreselected, Some(cs[i].id), memory, PolicyFor(intent, true, memory, p))
      case None => Scope(ModeOrdinaryChat, None, memory, PolicyFor(intent, false, memory, p))
  }

  /** The order in which actions are recommended. */
  function ActionRank(a: ToolAction): nat {
    match a
    case RetrievalSearch => 0
    case RetrievalReadDetail => 1
    case MediaDetail => 2
    case ResolveVideoUrl => 3
    case ExtractPptTranscript => 4
    case PlanStaticPage => 5
    case PlanReport => 6
    case AnswerOrdinaryChat => 7
  }

  /** What the policy says. Detail is preferred for a page, a report, media details or slides, if there is a
      dataset at all; each action is recommended on its own condition, and the ordinary answer exactly when
      nothing else is. */
  predicate PolicySays(policy: Policy, intent: Intent, hasDataset: bool, hasMemory: bool, p: Prompt) {
    var page, report := intent == StaticPage, intent == Report;
    var acts := policy.actions;
    && (policy.preferDetail <==> hasDataset && (page || report || p.mediaDetail || p.videoPpt))
    && (policy.retrieval == NotRequested <==> !hasDataset)
    && (policy.retrieval == DetailFirst <==> policy.preferDetail)
    && (policy.tolerant <==> policy.preferDetail || hasMemory) && (policy.history <==> hasMemory)
    && (RetrievalSearch in acts <==> hasDataset)
    && (RetrievalReadDetail in acts <==> policy.preferDetail)
    && (MediaDetail in acts <==> p.mediaDetail && (hasDataset || !p.videoPpt))
    && (ResolveVideoUrl in acts <==> p.videoPpt && p.directVideo)
    && (ExtractPptTranscript in acts <==> p.videoPpt)
    && (PlanStaticPage in acts <==> page) && (PlanReport in acts <==> report)
    && (AnswerOrdinaryChat in acts <==> !hasDataset && !p.mediaDetail && !p.videoPpt && !page && !report)
    && acts != [] && (forall i, j :: 0 <= i < j < |acts| ==> ActionRank(acts[i]) < ActionRank(acts[j]))
  }

  predicate Ranked(acts: seq<ToolAction>) {
    forall i, j :: 0 <= i < j < |acts| ==> ActionRank(acts[i]) < ActionRank(acts[j])
  }

  predicate Below(acts: seq<ToolAction>, r: nat) {
    forall i :: 0 <= i < |acts| ==> ActionRank(acts[i]) < r
  }

  /** Appending an optional action of rank `r`. */
  lemma {:induction false} RankedWhen(acts: seq<ToolAction>, b: bool, a: ToolAction, r: nat)
    requires Ranked(acts) && Below(acts, r) && ActionRank(a) == r
    ensures Ranked(acts + When(b, a)) && Below(acts + When(b, a), r + 1)
    ensures forall x :: x in acts + When(b, a) <==> x in acts || (b && x == a)
  {
    hide ActionRank;
  }

  lemma {:induction false} PolicyMeaning(intent: Intent, hasDataset: bool, hasMemory: bool, p: Prompt)
    ensures PolicySays(PolicyFor(intent, hasDataset, hasMemory, p), intent, hasDataset, hasMemory, p)
  {
    var policy := PolicyFor(intent, hasDataset, hasMemory, p);
    ActionsMean(intent, hasDataset, policy.preferDetail, p);
    hide Actions, ActionRank;
  }

  lemma {:induction false} MediaMean(hasDataset: bool, preferDetail: bool, p: Prompt)
    ensures var acts := MediaActions(hasDataset, preferDetail, p);
            && Ranked(acts) && Below(acts, 5)
            && forall x :: x in acts <==>
                 || (x == RetrievalSearch && hasDataset)
                 || (x == RetrievalReadDetail && preferDetail)
                 || (x == MediaDetail && p.mediaDetail && (!p.videoPpt || hasDataset))
                 || (x == ResolveVideoUrl && p.videoPpt && p.directVideo)
                 || (x == ExtractPptTranscript && p.videoPpt)
  {
    hide When, Ranked, Below;
    var a1 := [] + When(hasDataset, RetrievalSearch);
    var a2 := a1 + When(preferDetail, RetrievalReadDetail);
    var a3 := a2 + When(p.mediaDetail && (!p.videoPpt || hasDataset), MediaDetail);
    var a4 := a3 + When(p.videoPpt && p.directVideo, ResolveVideoUrl);
    assert a1 == When(hasDataset, RetrievalSearch);
    RankedNone();
    RankedWhen([], hasDataset, RetrievalSearch, 0);
    RankedWhen(a1, preferDetail, RetrievalReadDetail, 1);
    RankedWhen(a2, p.mediaDetail && (!p.videoPpt || hasDataset), MediaDetail, 2);
    RankedWhen(a3, p.videoPpt && p.directVideo, ResolveVideoUrl, 3);
    RankedWhen(a4, p.videoPpt, ExtractPptTranscript, 4);
  }

  lemma {:induction false} ActionsMean(intent: Intent, hasDataset: bool, preferDetail: bool, p: Prompt)
    requires preferDetail ==> hasDataset
    ensures var acts := Actions(intent, hasDataset, preferDetail, p);
            && Ranked(acts) && acts != []
            && (RetrievalSearch in acts <==> hasDataset)
            && (RetrievalReadDetail in acts <==> preferDetail)
            && (MediaDetail in acts <==> p.mediaDetail && (!p.videoPpt || hasDataset))
            && (ResolveVideoUrl in acts <==> p.videoPpt && p.directVideo)
            && (ExtractPptTranscript in acts <==> p.videoPpt)
            && (PlanStaticPage in acts <==> intent == StaticPage)
            && (PlanReport in acts <==> intent == Report)
            && (AnswerOrdinaryChat in acts <==>
                  !hasDataset && !p.mediaDetail && !p.videoPpt && intent != StaticPage && intent != Report)
  {
    hide When, Ranked, Below, MediaActions;
    var media := MediaActions(hasDataset, preferDetail, p);
    var page := media + When(intent == StaticPage, PlanStaticPage);
    var wanted := page + When(intent == Report, PlanReport);
    MediaMean(hasDataset, preferDetail, p);
    RankedNone();
    RankedWhen(media, intent == StaticPage, PlanStaticPage, 5);
    RankedWhen(page, intent == Report, PlanReport, 6);
    if wanted != [] { assert wanted[0] in wanted; }
  }

  lemma {:induction false} RankedNone()
    ensures Ranked([]) && Below([], 0) && Ranked([AnswerOrdinaryChat])
  {
  }

  /** The planned scope: the dataset of the first candidate if that is a dataset, which is the user's own
      visible selection if there is one; memory and policy follow. */
  lemma {:induction false} PlanMeaning(inp: Input, p: Prompt)
    ensures var cs, s := Candidates(inp), ScopeOf(Candidates(inp), inp.intent, p);
            && (s.dataset.Some? <==> cs != [] && cs[0].DatasetCandidate?)
            && (s.dataset.Some? ==> s.dataset.value == cs[0].id && s.dataset.value in DatasetIds(inp))
            && (s.mode == ModeOrdinaryChat <==> s.dataset.None?)
            && (s.mode == ModeUserSelected <==> inp.selected.Some? && IsVisible(inp.visible, inp.selected.value))
            && (s.mode == ModeUserSelected ==> s.dataset == inp.selected)
            && (s.memory <==> inp.memoryAvailable && inp.memoryHinted && |DatasetIds(inp)| < 4)
            && PolicySays(s.policy, inp.intent, s.dataset.Some?, s.memory, p)
  {
    hide PolicyFor, PolicySays;
    var cs, memory := Candidates(inp), MemoryCandidate in Candidates(inp);
    MemorySurvives(inp);
    PolicyMeaning(inp.intent, true, memory, p);
    PolicyMeaning(inp.intent, false, memory, p);
    ScopeHead(inp);
    hide Candidates, DatasetIds, IsVisible, Offered;
  }

  /** Every dataset candidate is eligible, and a user's selection is the first. */
  lemma {:induction false} ScopeHead(inp: Input)
    ensures var cs := Candidates(inp);
            && (forall i :: 0 <= i < |cs| && cs[i].DatasetCandidate? ==> cs[i].confidence != Low)
            && (forall i :: 0 <= i < |cs| && cs[i].DatasetCandidate? && cs[i].source == UserSelected ==> i == 0)
            && (forall i :: 0 <= i < |cs| && cs[i].DatasetCandidate? ==> cs[0].DatasetCandidate?)
            && (cs != [] && cs[0].DatasetCandidate? ==> cs[0].id in DatasetIds(inp))
            && (cs != [] && cs[0].DatasetCandidate? && cs[0].source == UserSelected <==>
                  inp.selected.Some? && IsVisible(inp.visible, inp.selected.value))
            && (cs != [] && cs[0].DatasetCandidate? && cs[0].source == UserSelected ==> inp.selected == Some(cs[0].id))
  {
    var cs := Candidates(inp);
    CandidatesAreSound(inp);
    forall i | 0 <= i < |cs| ensures Offered(inp, cs[i]) { assert cs[i] in cs; }
    forall i | 0 < i < |cs|
      ensures cs[0].DatasetCandidate? && (cs[i].DatasetCandidate? ==> cs[i].source == Planner)
    {
      CandidatesInOrder(inp, 0, i);
    }
    if inp.selected.Some? && IsVisible(inp.visible, inp.selected.value) { SelectionFirst(inp); }
    hide Candidates;
    if cs != [] && cs[0].DatasetCandidate? && cs[0].source == Planner {
      var i: nat :| FitsFirst(inp, cs[0].id, i);
      assert Fits(inp, i) && inp.visible[i].id == cs[0].id;
    }
  }
}
