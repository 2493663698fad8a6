/** The stale-response guards of apps/web/app/HomePageClient.js. Requests are issued and settle in
    any order; numbered refs decide which response may write and which one ends the spinner.
    `refreshWorkspace` records the request that started the spinner; `refreshMessages` and
    `refreshReportDetail` only compare with the newest request. */
module LoadGuard {
  import opened Prelude

  datatype Variant = Workspace | Messages

  /** `latest` is the load-id ref, `loadingId` the workspace's second ref (always 0 otherwise),
      `pending` the outstanding requests with their silence, `shown` the request whose data is on
      screen. The last two fields are history: the newest visible request, and whether a silent one
      was issued while it was outstanding. */
  datatype State = State(
    latest: nat,
    loadingId: nat,
    loading: bool,
    pending: map<nat, bool>,
    shown: Option<nat>,
    visible: nat,
    overtaken: bool)

  const INITIAL := State(0, 0, false, map[], None, 0, false)

  /** `Deselect` is the effect that runs when the selection becomes empty. */
  datatype Action = Issue(silent: bool) | Settle(id: nat, ok: bool) | Deselect

  function IssueStep(v: Variant, s: State, silent: bool): State {
    var id := s.latest + 1;
    var s1 := s.(latest := id, pending := s.pending[id := silent]);
    if silent then s1.(overtaken := s.overtaken || s.visible in s.pending)
    else s1.(loading := true, loadingId := if v == Workspace then id else 0, visible := id, overtaken := false)
  }

  function SettleStep(v: Variant, s: State, id: nat, ok: bool): State {
    if id !in s.pending then s else
    var silent := s.pending[id];
    var ends := !silent && if v == Workspace then s.loadingId == id else s.latest == id;
    s.(pending := s.pending - {id},
       shown := if s.latest == id && ok then Some(id) else s.shown,
       loading := s.loading && !ends,
       loadingId := if ends then 0 else s.loadingId)
  }

  /** Only the workspace effect invalidates what is in flight; the others just clear the data. */
  function DeselectStep(v: Variant, s: State): State {
    if v == Messages then s.(shown := None)
    else s.(latest := s.latest + 1, loadingId := 0, loading := false, shown := None, visible := 0, overtaken := false)
  }

  function Do(v: Variant, s: State, a: Action): State {
    match a
    case Issue(silent) => IssueStep(v, s, silent)
    case Settle(id, ok) => SettleStep(v, s, id, ok)
    case Deselect => DeselectStep(v, s)
  }

  function Run(v: Variant, s: State, actions: seq<Action>): State
    decreases |actions|
  {
    if actions == [] then s else Run(v, Do(v, s, actions[0]), actions[1..])
  }

  // ----- Invariants -----------------------------------------------------------------------------

  predicate Numbered(s: State) {
    && (forall id :: id in s.pending ==> 0 < id <= s.latest)
    && (s.shown.Some? ==> s.shown.value <= s.latest)
    && s.visible <= s.latest && s.loadingId <= s.latest
    && (s.visible in s.pending ==> !s.pending[s.visible])
  }

  /** The workspace spinner is on exactly while the recorded visible request is outstanding. */
  predicate SpinnerTracks(s: State) {
    && (s.loading <==> s.loadingId != 0)
    && (s.loadingId != 0 ==> s.loadingId in s.pending && !s.pending[s.loadingId] && s.loadingId == s.visible)
    && (s.visible in s.pending ==> s.loadingId == s.visible)
  }

  /** The other spinners are on while the newest visible request is outstanding, and stay on once a
      silent request has overtaken it. */
  predicate SpinnerMayStick(s: State) {
    && s.loadingId == 0
    && (s.loading <==> s.visible in s.pending || s.overtaken)
    && (s.visible in s.pending && s.latest != s.visible ==> s.overtaken)
    && (s.overtaken ==> s.visible < s.latest)
    && (forall id :: id in s.pending && !s.pending[id] ==> id <= s.visible)
  }

  predicate Inv(v: Variant, s: State) {
    Numbered(s) && if v == Workspace then SpinnerTracks(s) else SpinnerMayStick(s)
  }

  lemma {:induction false} DoKeeps(v: Variant, s: State, a: Action)
    requires Inv(v, s)
    ensures Inv(v, Do(v, s, a))
    ensures Do(v, s, a).latest >= s.latest
  {
  }

  lemma {:induction false} RunKeeps(v: Variant, s: State, actions: seq<Action>)
    requires Inv(v, s)
    ensures Inv(v, Run(v, s, actions))
    ensures Run(v, s, actions).latest >= s.latest
    decreases |actions|
  {
    if actions != [] {
      DoKeeps(v, s, actions[0]);
      RunKeeps(v, Do(v, s, actions[0]), actions[1..]);
    }
  }

  // ----- Results ----------------------------------------------------------------------------------

  // ----- Actions so far ---------------------------------------------------------------------------------

  /** How far the load-id ref has been counted up: by every request, and in the workspace by every clearing
      too. The request issued at position `i` has the number `Count(v, actions[..i + 1])`. */
  function Count(v: Variant, actions: seq<Action>): nat {
    if actions == [] then 0
    else
      var last := actions[|actions| - 1];
      Count(v, actions[..|actions| - 1]) + if last.Issue? || (v == Workspace && last == Deselect) then 1 else 0
  }

  predicate Settles(a: Action, id: nat) {
    a.Settle? && a.id == id
  }

  /** The request issued at `i` settles after `i` and before `j`. */
  predicate SettlesBetween(v: Variant, actions: seq<Action>, i: nat, j: nat)
    requires i < j <= |actions|
  {
    exists k :: i < k < j && Settles(actions[k], Count(v, actions[..i + 1]))
  }

  /** The request with number `id` was issued at `i`, and nothing has settled it since. */
  predicate Waits(v: Variant, actions: seq<Action>, id: nat, i: nat) {
    i < |actions| && actions[i].Issue? && Count(v, actions[..i + 1]) == id && !SettlesBetween(v, actions, i, |actions|)
  }

  ghost predicate Outstanding(v: Variant, actions: seq<Action>, id: nat) {
    exists i: nat :: Waits(v, actions, id, i)
  }

  lemma {:induction false} RunSnoc(v: Variant, s: State, actions: seq<Action>, a: Action)
    ensures Run(v, s, actions + [a]) == Do(v, Run(v, s, actions), a)
    decreases |actions|
  {
    hide Do;
    if actions == [] {
      assert [a][1..] == [];
    } else {
      RunSnoc(v, Do(v, s, actions[0]), actions[1..], a);
      assert (actions + [a])[1..] == actions[1..] + [a];
    }
  }

  lemma {:induction false} CountSnoc(v: Variant, actions: seq<Action>, a: Action)
    ensures Count(v, actions + [a]) ==
            Count(v, actions) + if a.Issue? || (v == Workspace && a == Deselect) then 1 else 0
  {
    assert (actions + [a])[..|actions|] == actions;
  }

  lemma {:induction false} CountGrows(v: Variant, actions: seq<Action>, i: nat)
    requires i <= |actions|
    ensures Count(v, actions[..i]) <= Count(v, actions)
    decreases |actions|
  {
    if i == |actions| {
      assert actions[..i] == actions;
    } else {
      CountGrows(v, actions[..|actions| - 1], i);
      assert actions[..|actions| - 1][..i] == actions[..i];
    }
  }

  /** Appending an action does not change what happened before it. */
  lemma {:induction false} SnocKeeps(v: Variant, actions: seq<Action>, a: Action, i: nat)
    requires i < |actions|
    ensures (actions + [a])[..i + 1] == actions[..i + 1]
    ensures a != Issue(false) ==> (LastVisible(actions + [a], i) <==> LastVisible(actions, i))
    ensures forall j :: i < j <= |actions| ==>
              (SettlesBetween(v, actions + [a], i, j) <==> SettlesBetween(v, actions, i, j))
    ensures SettlesBetween(v, actions + [a], i, |actions| + 1) <==>
              SettlesBetween(v, actions, i, |actions|) || Settles(a, Count(v, actions[..i + 1]))
  {
    hide Settles, Count;
    var more, id := actions + [a], Count(v, actions[..i + 1]);
    assert more[..i + 1] == actions[..i + 1];
    if a != Issue(false) && LastVisible(more, i) {
      forall k | i < k < |actions| ensures actions[k] != Issue(false) { assert more[k] == actions[k]; }
    }
    forall j | i < j <= |actions|
      ensures SettlesBetween(v, more, i, j) <==> SettlesBetween(v, actions, i, j)
    {
      if k :| i < k < j && Settles(more[k], id) { assert actions[k] == more[k]; }
      if k :| i < k < j && Settles(actions[k], id) { assert actions[k] == more[k]; }
    }
    if k :| i < k < |actions| + 1 && Settles(more[k], id) { assert k < |actions| ==> actions[k] == more[k]; }
    if k :| i < k < |actions| && Settles(actions[k], id) { assert more[k] == actions[k]; }
    assert more[|actions|] == a;
  }

  /** How one more action changes what is outstanding. */
  lemma {:induction false} SnocOutstanding(v: Variant, actions: seq<Action>, a: Action, id: nat)
    ensures Outstanding(v, actions + [a], id) <==>
            (Outstanding(v, actions, id) && !Settles(a, id)) || (a.Issue? && id == Count(v, actions) + 1)
  {
    hide SettlesBetween, Settles, Count;
    var more, n := actions + [a], |actions|;
    CountSnoc(v, actions, a);
    assert more[..n + 1] == more;
    NothingAfter(v, more, n);
    if i: nat :| Waits(v, more, id, i) {
      if i < n {
        SnocKeeps(v, actions, a, i);
        assert more[i] == actions[i];
        assert Waits(v, actions, id, i);
      }
    }
    if Outstanding(v, actions, id) && !Settles(a, id) {
      var i: nat :| Waits(v, actions, id, i);
      SnocKeeps(v, actions, a, i);
      assert more[i] == actions[i];
      assert Waits(v, more, id, i);
    }
    if a.Issue? && id == Count(v, actions) + 1 {
      assert Waits(v, more, id, n);
    }
  }

  lemma {:induction false} NothingAfter(v: Variant, actions: seq<Action>, i: nat)
    requires i + 1 == |actions|
    ensures !SettlesBetween(v, actions, i, |actions|)
  {
  }

  /** The refs say which requests have been issued and not settled. */
  lemma {:induction false} PendingMeans(v: Variant, actions: seq<Action>)
    ensures var s := Run(v, INITIAL, actions);
            && s.latest == Count(v, actions)
            && forall id :: id in s.pending <==> Outstanding(v, actions, id)
  {
    hide Outstanding, Settles;
    if actions == [] {
      NothingOutstanding(v);
    } else {
      var rest, a := actions[..|actions| - 1], actions[|actions| - 1];
      assert actions == rest + [a];
      PendingMeans(v, rest);
      RunSnoc(v, INITIAL, rest, a);
      CountSnoc(v, rest, a);
      var s := Run(v, INITIAL, rest);
      forall id: nat ensures id in Do(v, s, a).pending <==> Outstanding(v, actions, id) {
        SnocOutstanding(v, rest, a, id);
        SettledId(a, id);
      }
    }
  }

  lemma {:induction false} SettledId(a: Action, id: nat)
    ensures Settles(a, id) <==> a.Settle? && a.id == id
  {
  }

  lemma {:induction false} NothingOutstanding(v: Variant)
    ensures forall id: nat :: !Outstanding(v, [], id)
  {
  }

  // ----- What is shown ----------------------------------------------------------------------------------------

  /** At `k`, the newest request so far settles successfully. */
  ghost predicate Wins(v: Variant, actions: seq<Action>, k: nat) {
    && k < |actions| && actions[k].Settle? && actions[k].ok
    && actions[k].id == Count(v, actions[..k]) && Outstanding(v, actions[..k], actions[k].id)
  }

  /** The last such settling, with no clearing after it. */
  ghost predicate ShownBy(v: Variant, actions: seq<Action>, k: nat) {
    Wins(v, actions, k) && forall j: nat :: k < j < |actions| ==> !Wins(v, actions, j) && actions[j] != Deselect
  }

  lemma {:induction false} SnocWins(v: Variant, actions: seq<Action>, a: Action, k: nat)
    requires k < |actions|
    ensures Wins(v, actions + [a], k) <==> Wins(v, actions, k)
  {
    assert (actions + [a])[..k] == actions[..k] && (actions + [a])[k] == actions[k];
  }

  lemma {:induction false} SnocShown(v: Variant, actions: seq<Action>, a: Action, k: nat)
    requires k < |actions|
    ensures ShownBy(v, actions + [a], k) <==>
            ShownBy(v, actions, k) && !Wins(v, actions + [a], |actions|) && a != Deselect
  {
    hide Wins;
    var more := actions + [a];
    SnocWins(v, actions, a, k);
    forall j: nat | j < |actions|
      ensures (Wins(v, more, j) <==> Wins(v, actions, j)) && more[j] == actions[j]
    {
      SnocWins(v, actions, a, j);
    }
    assert more[|actions|] == a;
  }

  /** Under every interleaving, in both variants, the data on screen stems from the last request that settled
      successfully while it was the newest, unless the selection has been cleared since. */
  lemma {:induction false} ShownExactly(v: Variant, actions: seq<Action>)
    ensures var s := Run(v, INITIAL, actions);
            && (s.shown.Some? <==> exists k: nat :: ShownBy(v, actions, k))
            && forall k: nat :: ShownBy(v, actions, k) ==> s.shown == Some(actions[k].id)
  {
    hide Wins, ShownBy;
    forall k: nat | ShownBy(v, actions, k) ensures k < |actions| && actions[k].Settle? {
      ShownPosition(v, actions, k);
    }
    if actions != [] {
      var rest, a, n := actions[..|actions| - 1], actions[|actions| - 1], |actions| - 1;
      assert actions == rest + [a];
      ShownExactly(v, rest);
      RunSnoc(v, INITIAL, rest, a);
      var s := Run(v, INITIAL, rest);
      SettlingShows(v, rest, a);
      forall k: nat | k < n
        ensures ShownBy(v, actions, k) <==> ShownBy(v, rest, k) && !Wins(v, actions, n) && a != Deselect
        ensures actions[k] == rest[k]
      {
        SnocShown(v, rest, a, k);
      }
      LastShown(v, actions);
      if !Wins(v, actions, n) && a != Deselect && s.shown.Some? {
        var k: nat :| ShownBy(v, rest, k);
        ShownPosition(v, rest, k);
        assert ShownBy(v, actions, k);
      }
    }
  }

  lemma {:induction false} ShownPosition(v: Variant, actions: seq<Action>, k: nat)
    requires ShownBy(v, actions, k)
    ensures k < |actions| && actions[k].Settle?
  {
  }

  lemma {:induction false} LastShown(v: Variant, actions: seq<Action>)
    requires actions != []
    ensures ShownBy(v, actions, |actions| - 1) <==> Wins(v, actions, |actions| - 1)
  {
  }

  /** One action: a winning settling is shown, a clearing blanks, everything else leaves the screen alone. */
  lemma {:induction false} SettlingShows(v: Variant, actions: seq<Action>, a: Action)
    ensures var s, n := Run(v, INITIAL, actions), |actions|;
            && (Wins(v, actions + [a], n) ==> a.Settle? && Do(v, s, a).shown == Some(a.id))
            && (a == Deselect ==> !Wins(v, actions + [a], n) && Do(v, s, a).shown.None?)
            && (!Wins(v, actions + [a], n) && a != Deselect ==> Do(v, s, a).shown == s.shown)
  {
    hide Outstanding, Count;
    PendingMeans(v, actions);
    assert (actions + [a])[..|actions|] == actions;
  }

  // ----- Spinners -----------------------------------------------------------------------------------------------

  /** The last visible request is issued at `i`. */
  predicate LastVisible(actions: seq<Action>, i: nat) {
    i < |actions| && actions[i] == Issue(false) && forall k :: i < k < |actions| ==> actions[k] != Issue(false)
  }

  lemma {:induction false} OneLastVisible(actions: seq<Action>, i: nat, j: nat)
    requires LastVisible(actions, i) && LastVisible(actions, j)
    ensures i == j
  {
  }

  /** The last visible request, issued at `i`, is neither settled nor cleared away. */
  predicate VisibleOpen(v: Variant, actions: seq<Action>, i: nat) {
    && LastVisible(actions, i) && !SettlesBetween(v, actions, i, |actions|)
    && forall k :: i < k < |actions| ==> actions[k] != Deselect
  }

  lemma {:induction false} SnocVisible(v: Variant, actions: seq<Action>, a: Action, i: nat)
    requires i < |actions|
    ensures VisibleOpen(v, actions + [a], i) <==>
            VisibleOpen(v, actions, i) && a != Issue(false) && a != Deselect && !Settles(a, Count(v, actions[..i + 1]))
  {
    hide SettlesBetween, Settles, Count;
    var more := actions + [a];
    SnocKeeps(v, actions, a, i);
    assert more[|actions|] == a;
    assert forall k :: 0 <= k < |actions| ==> more[k] == actions[k];
  }

  /** The workspace's second ref names the last visible request while it is open. */
  ghost predicate Names(s: State, actions: seq<Action>) {
    && (s.loadingId == 0 <==> forall i: nat :: !VisibleOpen(Workspace, actions, i))
    && forall i: nat :: VisibleOpen(Workspace, actions, i) ==> s.loadingId == Count(Workspace, actions[..i + 1])
  }

  lemma {:induction false} NamesNext(s: State, actions: seq<Action>, a: Action)
    requires Inv(Workspace, s) && Names(s, actions) && s.latest == Count(Workspace, actions)
    ensures Names(Do(Workspace, s, a), actions + [a])
  {
    hide VisibleOpen, Count;
    var more, n := actions + [a], |actions|;
    CountSnoc(Workspace, actions, a);
    LastOpens(actions, a);
    forall i: nat | i < n
      ensures VisibleOpen(Workspace, more, i) <==>
              VisibleOpen(Workspace, actions, i) && a != Issue(false) && a != Deselect
              && !(a.Settle? && a.id == Count(Workspace, actions[..i + 1]))
      ensures more[..i + 1] == actions[..i + 1]
    {
      SnocVisible(Workspace, actions, a, i);
      SnocKeeps(Workspace, actions, a, i);
    }
    assert more[..n + 1] == more;
    if !(forall i: nat :: !VisibleOpen(Workspace, actions, i)) {
      var i: nat :| VisibleOpen(Workspace, actions, i);
      OpenPosition(actions, i);
    }
    forall i: nat | VisibleOpen(Workspace, more, i) ensures i <= n { OpenPosition(more, i); }
    forall i: nat | VisibleOpen(Workspace, actions, i) ensures i < n { OpenPosition(actions, i); }
  }

  lemma {:induction false} OpenPosition(actions: seq<Action>, i: nat)
    requires VisibleOpen(Workspace, actions, i)
    ensures i < |actions|
  {
  }

  lemma {:induction false} LastOpens(actions: seq<Action>, a: Action)
    ensures VisibleOpen(Workspace, actions + [a], |actions|) <==> a == Issue(false)
  {
    if a == Issue(false) { NothingAfter(Workspace, actions + [a], |actions|); }
  }

  lemma {:induction false} RunNames(actions: seq<Action>)
    ensures Names(Run(Workspace, INITIAL, actions), actions)
  {
    hide Do, Inv, Names;
    StartsNamed();
    if actions != [] {
      var rest, a := actions[..|actions| - 1], actions[|actions| - 1];
      assert actions == rest + [a];
      RunNames(rest);
      RunKeeps(Workspace, INITIAL, rest);
      PendingMeans(Workspace, rest);
      RunSnoc(Workspace, INITIAL, rest, a);
      NamesNext(Run(Workspace, INITIAL, rest), rest, a);
    }
  }

  lemma {:induction false} StartsNamed()
    ensures Inv(Workspace, INITIAL) && Names(INITIAL, [])
  {
  }

  /** Under every interleaving the workspace spinner is on exactly while the last visible request is neither
      settled nor cleared away; it stands for that very request, and is off when nothing is outstanding. */
  lemma {:induction false} WorkspaceSpinner(actions: seq<Action>)
    ensures var s := Run(Workspace, INITIAL, actions);
            && (s.loading <==> exists i: nat :: VisibleOpen(Workspace, actions, i))
            && (s.loading <==> s.loadingId in s.pending && !s.pending[s.loadingId])
            && (s.pending == map[] ==> !s.loading)
  {
    hide VisibleOpen;
    RunKeeps(Workspace, INITIAL, actions);
    RunNames(actions);
  }

  /** A silent request is issued at `j` while the last visible request, issued at `i`, is unanswered. */
  predicate Overtakes(actions: seq<Action>, i: nat, j: nat) {
    && LastVisible(actions, i) && i < j < |actions| && actions[j] == Issue(true)
    && !SettlesBetween(Messages, actions, i, j)
  }

  ghost predicate Overtaken(actions: seq<Action>) {
    exists i: nat, j: nat :: Overtakes(actions, i, j)
  }

  /** What the history fields of the state say about the actions so far. */
  ghost predicate Remembers(s: State, actions: seq<Action>) {
    && s.latest == Count(Messages, actions)
    && (s.visible == 0 ==> forall i: nat :: !LastVisible(actions, i))
    && (s.visible != 0 ==>
          exists i: nat :: && LastVisible(actions, i)
                           && s.visible == Count(Messages, actions[..i + 1])
                           && (s.visible in s.pending <==> !SettlesBetween(Messages, actions, i, |actions|)))
    && (s.overtaken <==> Overtaken(actions))
  }

  /** How one more action changes whether the last visible request has been overtaken. */
  lemma {:induction false} SnocOvertaken(actions: seq<Action>, a: Action, i: nat)
    requires LastVisible(actions, i) && a != Issue(false)
    ensures Overtaken(actions + [a]) <==>
            Overtaken(actions) || (a == Issue(true) && !SettlesBetween(Messages, actions, i, |actions|))
  {
    var more := actions + [a];
    SnocKeeps(Messages, actions, a, i);
    if Overtaken(more) {
      var i': nat, j: nat :| Overtakes(more, i', j);
      OneLastVisible(more, i, i');
      if j < |actions| {
        assert more[j] == actions[j];
        assert Overtakes(actions, i, j);
      }
    }
    if Overtaken(actions) {
      var i': nat, j: nat :| Overtakes(actions, i', j);
      OneLastVisible(actions, i, i');
      assert more[j] == actions[j];
      assert Overtakes(more, i, j);
    }
    if a == Issue(true) && !SettlesBetween(Messages, actions, i, |actions|) {
      assert Overtakes(more, i, |actions|);
    }
  }

  /** The history fields keep their meaning when the last visible request stays the same. */
  lemma {:induction false} RemembersSame(s: State, actions: seq<Action>, a: Action)
    requires Inv(Messages, s) && Remembers(s, actions) && a != Issue(false)
    ensures Remembers(Do(Messages, s, a), actions + [a])
  {
    hide Count, SettlesBetween;
    var more, s' := actions + [a], Do(Messages, s, a);
    CountSnoc(Messages, actions, a);
    if s.visible == 0 {
      forall i: nat ensures !LastVisible(more, i) {
        if i < |actions| { SnocKeeps(Messages, actions, a, i); }
      }
    } else {
      var i: nat :| && LastVisible(actions, i) && s.visible == Count(Messages, actions[..i + 1])
                    && (s.visible in s.pending <==> !SettlesBetween(Messages, actions, i, |actions|));
      SnocKeeps(Messages, actions, a, i);
      SnocOvertaken(actions, a, i);
      assert LastVisible(more, i) && s'.visible == Count(Messages, more[..i + 1]);
    }
  }

  lemma {:induction false} RemembersVisible(s: State, actions: seq<Action>)
    requires Inv(Messages, s) && Remembers(s, actions)
    ensures Remembers(Do(Messages, s, Issue(false)), actions + [Issue(false)])
  {
    var more, i := actions + [Issue(false)], |actions|;
    CountSnoc(Messages, actions, Issue(false));
    assert more[..i + 1] == more;
    assert LastVisible(more, i);
    assert !SettlesBetween(Messages, more, i, |more|);
    forall i': nat, j: nat ensures !Overtakes(more, i', j) {
      if LastVisible(more, i') { OneLastVisible(more, i, i'); }
    }
  }

  lemma {:induction false} StartsClean()
    ensures Inv(Messages, INITIAL) && Remembers(INITIAL, [])
  {
  }

  lemma {:induction false} RunRemembers(actions: seq<Action>)
    ensures Remembers(Run(Messages, INITIAL, actions), actions)
  {
    hide Do, Inv, Remembers;
    StartsClean();
    if actions != [] {
      var rest, a := actions[..|actions| - 1], actions[|actions| - 1];
      assert actions == rest + [a];
      RunRemembers(rest);
      RunKeeps(Messages, INITIAL, rest);
      RunSnoc(Messages, INITIAL, rest, a);
      var s := Run(Messages, INITIAL, rest);
      if a == Issue(false) { RemembersVisible(s, rest); } else { RemembersSame(s, rest, a); }
    }
  }

  /** The message and report spinners at rest: on exactly when a silent poll is issued after the last
      visible load and before that load settles. */
  lemma {:induction false} MessageSpinnerAtRest(actions: seq<Action>)
    ensures var s := Run(Messages, INITIAL, actions);
            s.pending == map[] ==> (s.loading <==> Overtaken(actions))
  {
    hide Overtaken;
    RunKeeps(Messages, INITIAL, actions);
    RunRemembers(actions);
  }

  /** The same spinners at any time: on exactly while the last visible load is unsettled, or once a silent
      poll has overtaken it. */
  lemma {:induction false} MessageSpinner(actions: seq<Action>)
    ensures Run(Messages, INITIAL, actions).loading <==>
            || Overtaken(actions)
            || exists i: nat :: LastVisible(actions, i) && !SettlesBetween(Messages, actions, i, |actions|)
  {
    hide Overtaken, SettlesBetween, Count;
    RunKeeps(Messages, INITIAL, actions);
    RunRemembers(actions);
    var s := Run(Messages, INITIAL, actions);
    if s.visible != 0 {
      var i: nat :| LastVisible(actions, i) && (s.visible in s.pending <==> !SettlesBetween(Messages, actions, i, |actions|));
      forall j: nat | LastVisible(actions, j) ensures j == i { OneLastVisible(actions, i, j); }
    }
  }

  /** A run that ends at rest with the spinner on: a poll overtakes the visible load. */
  lemma {:induction false} MessageSpinnerSticks()
    ensures var s := Run(Messages, INITIAL, [Issue(false), Issue(true), Settle(1, true), Settle(2, true)]);
            s.pending == map[] && s.loading
  {
    var s1 := Do(Messages, INITIAL, Issue(false));
    var s2 := Do(Messages, s1, Issue(true));
    var s3 := Do(Messages, s2, Settle(1, true));
    var s4 := Do(Messages, s3, Settle(2, true));
    var rest := [Issue(false), Issue(true), Settle(1, true), Settle(2, true)];
    assert rest[1..] == [Issue(true), Settle(1, true), Settle(2, true)];
    assert rest[1..][1..] == [Settle(1, true), Settle(2, true)];
    assert rest[1..][1..][1..] == [Settle(2, true)];
    assert rest[1..][1..][1..][1..] == [];
    assert Run(Messages, INITIAL, rest) == Run(Messages, s2, rest[1..][1..]);
    assert Run(Messages, s2, rest[1..][1..]) == Run(Messages, s4, []);
    assert s4.pending == map[];
  }

  /** A response is put on screen only if its request is the newest one issued. */
  lemma {:induction false} OnlyNewestWrites(v: Variant, s: State, a: Action)
    requires Inv(v, s)
    ensures Do(v, s, a).shown != s.shown && Do(v, s, a).shown.Some? ==>
              a.Settle? && a.ok && Do(v, s, a).shown == Some(s.latest) && s.latest in s.pending
  {
  }

  /** Once a newer request has been issued, no later response of an older one is ever shown. */
  lemma {:induction false} StaleNeverShown(v: Variant, s: State, actions: seq<Action>, id: nat)
    requires Inv(v, s) && id < s.latest && s.shown != Some(id)
    ensures Run(v, s, actions).shown != Some(id)
    decreases |actions|
  {
    if actions != [] {
      DoKeeps(v, s, actions[0]);
      OnlyNewestWrites(v, s, actions[0]);
      StaleNeverShown(v, Do(v, s, actions[0]), actions[1..], id);
    }
  }

  predicate NoIssue(actions: seq<Action>) {
    forall i :: 0 <= i < |actions| ==> !actions[i].Issue?
  }

  /** While nothing newer is issued, a state whose newest number belongs to no request stays blank. */
  lemma {:induction false} BlankStays(s: State, actions: seq<Action>)
    requires Inv(Workspace, s) && s.latest !in s.pending && s.shown.None? && NoIssue(actions)
    ensures Run(Workspace, s, actions).shown.None?
    decreases |actions|
  {
    if actions != [] {
      DoKeeps(Workspace, s, actions[0]);
      OnlyNewestWrites(Workspace, s, actions[0]);
      forall i | 0 <= i < |actions[1..]| ensures !actions[1..][i].Issue? {
        assert actions[1..][i] == actions[i + 1];
      }
      BlankStays(Do(Workspace, s, actions[0]), actions[1..]);
    }
  }

  /** After the workspace selection is cleared, nothing in flight comes back on screen: until a new
      request is issued, no interleaving of settling requests shows anything. */
  lemma {:induction false} WorkspaceClearSticks(s: State, actions: seq<Action>)
    requires Inv(Workspace, s) && NoIssue(actions)
    ensures Run(Workspace, Do(Workspace, s, Deselect), actions).shown.None?
  {
    DoKeeps(Workspace, s, Deselect);
    BlankStays(Do(Workspace, s, Deselect), actions);
  }

  /** The other effects do not number the clearing, so the newest response still in flight is shown
      afterwards, and exactly that one. */
  lemma {:induction false} MessageClearLeaks(s: State, id: nat)
    requires Inv(Messages, s) && id in s.pending
    ensures Do(Messages, Do(Messages, s, Deselect), Settle(id, true)).shown ==
            if id == s.latest then Some(id) else None
  {
  }

  // ----- The component's own form ---------------------------------------------------------------------

  /** Refs and state of the component, updated by interleaved handlers. */
  class Loader {
    const variant: Variant
    var latest: nat
    var loadingId: nat
    var loading: bool
    var pending: map<nat, bool>
    var shown: Option<nat>
    ghost var visible: nat
    ghost var overtaken: bool

    ghost function View(): State
      reads this
    {
      State(latest, loadingId, loading, pending, shown, visible, overtaken)
    }

    ghost predicate Valid()
      reads this
    {
      Inv(variant, View())
    }

    constructor (variant: Variant)
      ensures Valid() && View() == INITIAL && this.variant == variant
    {
      this.variant := variant;
      latest, loadingId, loading, pending, shown := 0, 0, false, map[], None;
      visible, overtaken := 0, false;
    }

    /** The part of a refresh before its first await. */
    method Begin(silent: bool) returns (loadId: nat)
      requires Valid()
      modifies this
      ensures Valid() && View() == IssueStep(variant, old(View()), silent)
      ensures loadId == latest && loadId !in old(pending)
    {
      DoKeeps(variant, View(), Issue(silent));
      loadId := latest + 1;
      latest := loadId;
      if silent {
        overtaken := overtaken || visible in pending;
      } else {
        loading := true;
        if variant == Workspace { loadingId := loadId; } else { loadingId := 0; }
        visible, overtaken := loadId, false;
      }
      pending := pending[loadId := silent];
    }

    /** The part after the await: guarded write, then the finally block. */
    method End(loadId: nat, ok: bool)
      requires Valid() && loadId in pending
      modifies this
      ensures Valid() && View() == SettleStep(variant, old(View()), loadId, ok)
    {
      DoKeeps(variant, View(), Settle(loadId, ok));
      var silent := pending[loadId];
      pending := pending - {loadId};
      if latest == loadId && ok { shown := Some(loadId); }
      if variant == Workspace {
        if !silent && loadingId == loadId {
          loadingId := 0;
          loading := false;
        }
      } else if latest == loadId && !silent {
        loading := false;
        loadingId := 0;
      }
    }

    /** The effect on an empty selection. */
    method Clear()
      requires Valid()
      modifies this
      ensures Valid() && View() == DeselectStep(variant, old(View()))
    {
      DoKeeps(variant, View(), Deselect);
      if variant == Workspace {
        latest := latest + 1;
        loadingId := 0;
        loading := false;
        visible, overtaken := 0, false;
      }
      shown := None;
    }
  }
}
