/** The execution policy of crates/codex-host-agent/src/lib.rs: the workspace label, the path checks
    and the guards in front of a real Codex launch. Paths are Unix paths, read as `std::path` reads
    them. The flat field checks of fixed-task packages are reduced to one verdict. */
module HostPolicy {
  import opened Prelude

  // ----- Paths ---------------------------------------------------------------------------------

  /** Split at every slash. */
  function Segments(s: string): (r: seq<string>)
    ensures r != []
  {
    if s == [] then [""]
    else
      var rest := Segments(s[1..]);
      if s[0] == '/' then [""] + rest else [[s[0]] + rest[0]] + rest[1..]
  }

  /** Segments that name something: neither empty nor the current directory. */
  function Names(segs: seq<string>): seq<string> {
    if segs == [] then []
    else (if segs[0] == "" || segs[0] == "." then [] else [segs[0]]) + Names(segs[1..])
  }

  /** `Path::components`: a root marker, a leading `.`, and the names. */
  function Components(path: string): seq<string> {
    if path != [] && path[0] == '/' then ["/"] + Names(Segments(path[1..]))
    else (if Segments(path)[0] == "." then ["."] else []) + Names(Segments(path))
  }

  /** `Path::join` with a relative path. */
  function Join(root: string, rel: string): string {
    if root == [] then rel
    else if root[|root| - 1] == '/' then root + rel
    else root + "/" + rel
  }

  predicate IsName(s: string) {
    s != [] && s != "." && s != ".." && '/' !in s
  }

  /** Prefix a character to the first segment, or open a new one. */
  function Consed(c: char, segs: seq<string>): (r: seq<string>)
    requires segs != []
    ensures r != []
  {
    if c == '/' then [""] + segs else [[c] + segs[0]] + segs[1..]
  }

  lemma {:induction false} SegmentsCons(c: char, s: string)
    ensures Segments([c] + s) == Consed(c, Segments(s))
  {
    assert ([c] + s)[1..] == s;
  }

  lemma {:induction false} ConsedAppend(c: char, a: seq<string>, b: seq<string>)
    requires a != []
    ensures Consed(c, a + b) == Consed(c, a) + b
  {
    assert (a + b)[0] == a[0] && (a + b)[1..] == a[1..] + b;
  }

  lemma {:induction false} SegmentsJoin(a: string, b: string)
    ensures Segments(a + "/" + b) == Segments(a) + Segments(b)
  {
    if a == [] {
      SegmentsCons('/', b);
      assert a + "/" + b == ['/'] + b;
    } else {
      hide Segments, Consed;
      var c, t := a[0], a[1..];
      SegmentsJoin(t, b);
      SegmentsCons(c, t);
      SegmentsCons(c, t + "/" + b);
      ConsedAppend(c, Segments(t), Segments(b));
      assert a == [c] + t && a + "/" + b == [c] + (t + "/" + b);
    }
  }

  lemma {:induction false} SegmentsOfName(s: string)
    requires '/' !in s
    ensures Segments(s) == [s]
  {
    if s != [] {
      SegmentsOfName(s[1..]);
      assert [s[0]] + s[1..] == s;
    }
  }

  lemma {:induction false} NamesAppend(a: seq<string>, b: seq<string>)
    ensures Names(a + b) == Names(a) + Names(b)
  {
    if a == [] {
      assert a + b == b;
    } else {
      NamesAppend(a[1..], b);
      var ab := a + b;
      assert ab[0] == a[0] && ab[1..] == a[1..] + b;
      ConcatAssoc(if a[0] == "" || a[0] == "." then [] else [a[0]], Names(a[1..]), Names(b));
    }
  }

  lemma {:induction false} NamesOfOne(s: string)
    ensures Names([s]) == if s == "" || s == "." then [] else [s]
  {
    assert [s][1..] == [];
  }

  /** Joining a name to a relative path adds that name and keeps the first segment. */
  lemma {:induction false} JoinSegments(root: string, name: string)
    requires IsName(name)
    ensures Names(Segments(Join(root, name))) == Names(Segments(root)) + [name]
    ensures root != [] ==> Segments(Join(root, name))[0] == Segments(root)[0]
  {
    hide Segments, Names;
    SegmentsOfName(name);
    SegmentsOfName("");
    NamesOfOne(name);
    NamesOfOne("");
    if root != [] {
      if root[|root| - 1] == '/' {
        var a := root[..|root| - 1];
        assert root == a + "/" + "" && Join(root, name) == a + "/" + name;
        SegmentsJoin(a, "");
        SegmentsJoin(a, name);
        NamesAppend(Segments(a), [""]);
        NamesAppend(Segments(a), [name]);
      } else {
        SegmentsJoin(root, name);
        NamesAppend(Segments(root), [name]);
      }
    }
  }

  /** Joining a name adds exactly one component. */
  lemma {:induction false} JoinAddsOne(root: string, name: string)
    requires IsName(name)
    ensures Components(Join(root, name)) == Components(root) + [name]
  {
    hide Segments, Names;
    if root == [] {
      SegmentsOfName(name);
      SegmentsOfName("");
      NamesOfOne(name);
      NamesOfOne("");
      assert name[0] in name;
    } else if root[0] == '/' {
      JoinSegments(root[1..], name);
      assert Join(root, name)[0] == '/';
      assert Join(root, name)[1..] == Join(root[1..], name) by {
        if |root| > 1 { assert root[1..][|root| - 2] == root[|root| - 1]; }
      }
    } else {
      JoinSegments(root, name);
      assert Join(root, name)[0] == root[0];
    }
  }

  // ----- Workspace label -----------------------------------------------------------------------

  const MAX_LABEL := 96

  predicate LabelChar(c: char) {
    'a' <= c <= 'z' || 'A' <= c <= 'Z' || '0' <= c <= '9' || c == '-' || c == '_'
  }

  function Sanitize(s: string): (r: string)
    ensures |r| == |s| && forall i :: 0 <= i < |r| ==> LabelChar(r[i])
  {
    seq(|s|, i requires 0 <= i < |s| => if LabelChar(s[i]) then s[i] else '-')
  }

  /** `trim_matches('-')`. */
  function TrimDashes(s: string): (r: string)
    ensures |r| <= |s| && forall c :: c in r ==> c in s
    ensures r != [] ==> r[0] != '-' && r[|r| - 1] != '-'
  {
    if s == [] then []
    else if s[0] == '-' then TrimDashes(s[1..])
    else if s[|s| - 1] == '-' then TrimDashes(s[..|s| - 1])
    else s
  }

  /** Trimming removes dashes at the two ends and nothing else. */
  lemma {:induction false} TrimDashesExactly(s: string) returns (i: nat, j: nat)
    ensures i <= j <= |s| && TrimDashes(s) == s[i..j]
    ensures forall k :: 0 <= k < i || j <= k < |s| ==> s[k] == '-'
    ensures i < j ==> s[i] != '-' && s[j - 1] != '-'
  {
    if s == [] {
      i, j := 0, 0;
    } else if s[0] == '-' {
      var i', j' := TrimDashesExactly(s[1..]);
      i, j := i' + 1, j' + 1;
      assert s[1..][i'..j'] == s[i..j];
      forall k | 0 <= k < i || j <= k < |s| ensures s[k] == '-' {
        if k > 0 { assert s[1..][k - 1] == s[k]; }
      }
    } else if s[|s| - 1] == '-' {
      var rest := s[..|s| - 1];
      i, j := TrimDashesExactly(rest);
      assert rest[i..j] == s[i..j];
      forall k | 0 <= k < i || j <= k < |s| ensures s[k] == '-' {
        if k < |s| - 1 { assert rest[k] == s[k]; }
      }
    } else {
      i, j := 0, |s|;
    }
  }

  /** What the label is made of: the memory-space id if it is not blank, otherwise the run id. */
  function LabelSource(memorySpace: Option<string>, blank: bool, runId: string): string {
    if memorySpace.Some? && !blank then memorySpace.value else "codex-host-task-" + runId
  }

  /** `task_workspace_label`; `blank` is the verdict that the memory-space id is only whitespace. */
  function Label(memorySpace: Option<string>, blank: bool, runId: string): string {
    var trimmed := TrimDashes(Sanitize(LabelSource(memorySpace, blank, runId)));
    var safe := if |trimmed| <= MAX_LABEL then trimmed else trimmed[..MAX_LABEL];
    if safe == [] then "codex-host-task" else safe
  }

  /** Whatever the ids contain, the label is one clean path component. */
  lemma {:induction false} LabelIsClean(memorySpace: Option<string>, blank: bool, runId: string)
    ensures var tag := Label(memorySpace, blank, runId);
            && 1 <= |tag| <= 96
            && (forall c :: c in tag ==> LabelChar(c))
            && IsName(tag)
  {
    var tag := Label(memorySpace, blank, runId);
    var safe := Sanitize(LabelSource(memorySpace, blank, runId));
    forall c | c in tag ensures LabelChar(c) {
      if tag != "codex-host-task" {
        assert c in TrimDashes(safe);
        assert c in safe;
      }
    }
    assert tag[0] in tag;
    assert !LabelChar('/') && !LabelChar('.');
    assert tag[0] != '.';
  }

  /** The label is the source between its outermost usable characters, with every other unusable character
      turned into a dash, cut at 96; the fallback stands in only for a source with nothing usable. */
  lemma {:induction false} LabelExactly(memorySpace: Option<string>, blank: bool, runId: string)
    returns (source: string, i: nat, j: nat)
    ensures source == if memorySpace.Some? && !blank then memorySpace.value else "codex-host-task-" + runId
    ensures i <= j <= |source|
    ensures forall k :: 0 <= k < i || j <= k < |source| ==> source[k] == '-' || !LabelChar(source[k])
    ensures i < j ==> source[i] != '-' && LabelChar(source[i]) && source[j - 1] != '-' && LabelChar(source[j - 1])
    ensures var tag := Label(memorySpace, blank, runId);
            if i == j then tag == "codex-host-task"
            else && |tag| == (if j - i <= 96 then j - i else 96)
                 && forall k :: 0 <= k < |tag| ==>
                      tag[k] == if LabelChar(source[i + k]) then source[i + k] else '-'
  {
    source := LabelSource(memorySpace, blank, runId);
    SanitizeExactly(source);
    var tag, safe := Label(memorySpace, blank, runId), Sanitize(source);
    i, j := TrimDashesExactly(safe);
    hide Sanitize, TrimDashes, LabelChar;
    var trimmed := safe[i..j];
    if i < j {
      assert tag == if |trimmed| <= 96 then trimmed else trimmed[..96];
      forall k | 0 <= k < |tag| ensures tag[k] == safe[i + k] {
      }
    }
  }

  lemma {:induction false} SanitizeExactly(s: string)
    ensures |Sanitize(s)| == |s|
    ensures forall k :: 0 <= k < |s| ==> Sanitize(s)[k] == if LabelChar(s[k]) then s[k] else '-'
  {
  }

  // ----- Path policy -------------------------------------------------------------------------------

  const REPO_ROOT := "/srv/aiv3/repo"

  function Normalize(path: string): string {
    TrimSlashes(seq(|path|, i requires 0 <= i < |path| => if path[i] == '\\' then '/' else path[i]))
  }

  /** `trim_end_matches('/')`. */
  function TrimSlashes(s: string): string {
    if s != [] && s[|s| - 1] == '/' then TrimSlashes(s[..|s| - 1]) else s
  }

  /** The text of the repository root, or that text, a slash and more. */
  predicate SpellsRepo(text: string) {
    text == REPO_ROOT || REPO_ROOT + "/" <= text
  }

  /** `path_is_under_v3_product_repo`: a comparison of spellings. */
  predicate UnderRepo(path: string) {
    SpellsRepo(Normalize(path))
  }

  /** The path a process with working directory `cwd` reaches under the name `path`. */
  function Resolve(cwd: string, path: string): string {
    if Absolute(path) then path else Join(cwd, path)
  }

  /** An absolute path names the repository or something in it. */
  predicate InsideRepo(path: string) {
    Components(REPO_ROOT) <= Components(path)
  }

  predicate HasParent(path: string) {
    ".." in Components(path)
  }

  /** `validate_task_workspace_scope`. */
  predicate ScopeAccepted(root: string, workspace: string) {
    && !HasParent(root) && !HasParent(workspace)
    && !UnderRepo(root) && !UnderRepo(workspace)
    && Components(root) <= Components(workspace)
  }

  /** For a workspace the plan builder made, the containment test and the workspace's own
      parent-component test are always passed: only the configured root and the product repository
      decide. */
  lemma {:induction false} BuilderStaysInside(root: string, tag: string)
    requires IsName(tag)
    ensures Components(root) <= Components(Join(root, tag))
    ensures HasParent(Join(root, tag)) <==> HasParent(root)
    ensures ScopeAccepted(root, Join(root, tag)) <==>
            !HasParent(root) && !UnderRepo(root) && !UnderRepo(Join(root, tag))
  {
    hide UnderRepo;
    JoinAddsOne(root, tag);
  }

  // ----- Inside the product repository ---------------------------------------------------------------

  const REPO_NAMES := ["srv", "aiv3", "repo"]

  predicate Absolute(path: string) {
    path != [] && path[0] == '/'
  }

  /** The names of a path: its components without root marker and leading `.`. */
  function NamesOf(path: string): seq<string> {
    Names(Segments(if Absolute(path) then path[1..] else path))
  }

  function Joined(segs: seq<string>): string {
    if segs == [] then ""
    else if |segs| == 1 then segs[0]
    else segs[0] + "/" + Joined(segs[1..])
  }

  function Lead(path: string): string {
    if Absolute(path) then "/" else ""
  }

  /** The path written without empty and `.` segments. */
  function Collapse(path: string): string {
    Lead(path) + Joined(NamesOf(path))
  }

  /** The path is written that way already, but for one slash at its end. */
  predicate Plain(path: string) {
    path == Collapse(path) || (NamesOf(path) != [] && path == Collapse(path) + "/")
  }

  predicate AllNames(segs: seq<string>) {
    forall i :: 0 <= i < |segs| ==> segs[i] != "" && '/' !in segs[i]
  }

  lemma {:induction false} SegmentsHaveNoSlash(s: string)
    ensures forall i :: 0 <= i < |Segments(s)| ==> '/' !in Segments(s)[i]
  {
    if s != [] { SegmentsHaveNoSlash(s[1..]); }
  }

  lemma {:induction false} NamesAreNames(segs: seq<string>)
    requires forall i :: 0 <= i < |segs| ==> '/' !in segs[i]
    ensures AllNames(Names(segs))
  {
    if segs != [] { NamesAreNames(segs[1..]); }
  }

  lemma {:induction false} NamesOfAreNames(path: string)
    ensures AllNames(NamesOf(path))
  {
    var text := if Absolute(path) then path[1..] else path;
    SegmentsHaveNoSlash(text);
    NamesAreNames(Segments(text));
  }

  lemma {:induction false} SegmentsJoined(segs: seq<string>)
    requires segs != [] && AllNames(segs)
    ensures Segments(Joined(segs)) == segs
  {
    hide Segments;
    SegmentsOfName(segs[0]);
    if |segs| > 1 {
      SegmentsJoined(segs[1..]);
      SegmentsJoin(segs[0], Joined(segs[1..]));
    }
  }

  lemma {:induction false} JoinedAppend(segs: seq<string>, more: seq<string>)
    requires segs != [] && more != []
    ensures Joined(segs + more) == Joined(segs) + "/" + Joined(more)
  {
    var all := segs + more;
    assert all[0] == segs[0] && all[1..] == segs[1..] + more;
    if |segs| > 1 { JoinedAppend(segs[1..], more); }
  }

  lemma {:induction false} RepoText()
    ensures REPO_ROOT == "/" + Joined(REPO_NAMES)
  {
    assert REPO_NAMES[1..] == ["aiv3", "repo"] && ["aiv3", "repo"][1..] == ["repo"];
    assert Joined(REPO_NAMES) == "srv" + "/" + ("aiv3" + "/" + "repo");
  }

  lemma {:induction false} RepoSpelling()
    ensures REPO_ROOT == "/" + Joined(REPO_NAMES)
    ensures AllNames(REPO_NAMES) && Components(REPO_ROOT) == ["/"] + REPO_NAMES
  {
    hide Segments, Joined, Names;
    RepoText();
    SegmentsJoined(REPO_NAMES);
    assert REPO_ROOT[1..] == Joined(REPO_NAMES);
    NamesOfNames(REPO_NAMES);
  }

  lemma {:induction false} NamesOfNames(segs: seq<string>)
    requires AllNames(segs) && "." !in segs
    ensures Names(segs) == segs
  {
    if segs != [] { NamesOfNames(segs[1..]); }
  }

  /** One text continues another at a slash exactly when its list of names does. */
  lemma {:induction false} PrefixByNames(base: seq<string>, segs: seq<string>)
    requires base != [] && AllNames(base) && AllNames(segs)
    ensures base <= segs <==> Joined(segs) == Joined(base) || Joined(base) + "/" <= Joined(segs)
  {
    hide Segments, Joined;
    var text, start := Joined(segs), Joined(base);
    if base <= segs {
      var more := segs[|base|..];
      assert segs == base + more;
      if more == [] {
        assert segs == base;
      } else {
        JoinedAppend(base, more);
      }
    }
    SegmentsJoined(base);
    JoinedEnd(base);
    if segs == [] {
      JoinedNil();
    } else {
      SegmentsJoined(segs);
      if start + "/" <= text {
        var rest := text[|start| + 1..];
        assert text == start + "/" + rest;
        SegmentsJoin(start, rest);
      }
    }
  }

  lemma {:induction false} JoinedNil()
    ensures Joined([]) == ""
  {
  }

  lemma {:induction false} ConsPrefix<T>(x: T, a: seq<T>, b: seq<T>)
    ensures [x] + a <= [x] + b <==> a <= b
    ensures [x] + a == [x] + b <==> a == b
  {
    var xa, xb := [x] + a, [x] + b;
    assert xa[1..] == a && xb[1..] == b;
    if xa <= xb { assert xb[..|xa|][1..] == b[..|a|]; }
    if a <= b { assert xb[..|xa|] == [x] + b[..|a|]; }
  }

  /** Comparing the collapsed spelling would decide exactly whether a path lies in the repository. */
  lemma {:induction false} CollapsedTestExact(path: string)
    ensures InsideRepo(path) <==> SpellsRepo(Collapse(path))
  {
    hide Segments, Names, Joined, NamesOf;
    NamesOfAreNames(path);
    if Absolute(path) {
      var names := NamesOf(path);
      AbsoluteComponents(path);
      AbsoluteTestExact(names);
    } else {
      RelativeIsOutside(path);
    }
  }

  lemma {:induction false} AbsoluteComponents(path: string)
    requires Absolute(path)
    ensures Components(path) == ["/"] + NamesOf(path)
  {
    hide Segments, Names;
  }

  lemma {:induction false} AbsoluteTestExact(names: seq<string>)
    requires AllNames(names)
    ensures Components(REPO_ROOT) <= ["/"] + names <==> SpellsRepo("/" + Joined(names))
  {
    hide Joined, Components;
    RepoSpelling();
    var repo := Joined(REPO_NAMES);
    ConsPrefix("/", REPO_NAMES, names);
    PrefixByNames(REPO_NAMES, names);
    ConsPrefix('/', repo, Joined(names));
    ConsPrefix('/', repo + "/", Joined(names));
    assert REPO_ROOT + "/" == "/" + (repo + "/");
  }

  lemma {:induction false} RelativeIsOutside(path: string)
    requires !Absolute(path)
    ensures !InsideRepo(path) && !SpellsRepo(Collapse(path))
  {
    hide Segments, Names, Joined, NamesOf;
    NamesOfAreNames(path);
    var names := NamesOf(path);
    if names == [] {
      JoinedNil();
    } else {
      JoinedStart(names);
    }
    RelativeComponents(path);
    RepoSpelling();
    StartsAlike(REPO_ROOT, Collapse(path));
    StartsAlike(REPO_ROOT + "/", Collapse(path));
    StartsAlike(Components(REPO_ROOT), Components(path));
  }

  lemma {:induction false} StartsAlike<T>(a: seq<T>, b: seq<T>)
    requires a != []
    ensures a <= b ==> b != [] && b[0] == a[0]
  {
  }

  lemma {:induction false} JoinedStart(segs: seq<string>)
    requires segs != [] && AllNames(segs)
    ensures Joined(segs) != "" && Joined(segs)[0] != '/'
  {
    assert segs[0][0] in segs[0];
  }

  lemma {:induction false} RelativeComponents(path: string)
    requires !Absolute(path)
    ensures Components(path) != [] ==> Components(path)[0] != "/"
  {
    hide Segments, Names;
    NamesOfAreNames(path);
    assert '/' in "/";
  }

  /** Neither the replacement of backslashes nor the trimming hides a repository spelling. */
  lemma {:induction false} TrimKeepsSpelling(text: string)
    requires SpellsRepo(text)
    ensures SpellsRepo(TrimSlashes(text))
  {
    if text[|text| - 1] == '/' {
      var rest := text[..|text| - 1];
      assert SpellsRepo(rest) by {
        if |rest| == |REPO_ROOT| {
          assert rest == (REPO_ROOT + "/")[..|REPO_ROOT|];
        } else {
          assert rest[..|REPO_ROOT| + 1] == text[..|REPO_ROOT| + 1];
        }
      }
      TrimKeepsSpelling(rest);
    }
  }

  lemma {:induction false} NormalizeKeepsSpelling(path: string)
    requires SpellsRepo(path)
    ensures UnderRepo(path)
  {
    var text := seq(|path|, i requires 0 <= i < |path| => if path[i] == '\\' then '/' else path[i]);
    var n := |REPO_ROOT|;
    assert '\\' !in REPO_ROOT + "/";
    if path == REPO_ROOT {
      assert text == path by {
        forall i | 0 <= i < |path| ensures text[i] == path[i] { assert path[i] in REPO_ROOT + "/"; }
      }
    } else {
      assert text[..n + 1] == path[..n + 1] by {
        forall i | 0 <= i < n + 1 ensures text[i] == path[i] {
          assert path[i] == (REPO_ROOT + "/")[i];
          assert path[i] in REPO_ROOT + "/";
        }
      }
    }
    TrimKeepsSpelling(text);
  }

  /** Resolving a relative path appends its names. */
  lemma {:induction false} ResolveNames(cwd: string, path: string)
    requires Absolute(cwd)
    ensures Absolute(Resolve(cwd, path))
    ensures NamesOf(Resolve(cwd, path)) == (if Absolute(path) then [] else NamesOf(cwd)) + NamesOf(path)
  {
    hide Segments, Names;
    if !Absolute(path) {
      var text := Join(cwd, path)[1..];
      var a := if cwd[|cwd| - 1] == '/' then cwd[..|cwd| - 1] else cwd;
      if a == [] {
        assert text == path && cwd[1..] == "";
        SegmentsOfName("");
        NamesOfOne("");
      } else {
        assert text == a[1..] + "/" + path;
        SegmentsJoin(a[1..], path);
        NamesAppend(Segments(a[1..]), Segments(path));
        if a != cwd {
          assert cwd[1..] == a[1..] + "/" + "";
          SegmentsJoin(a[1..], "");
          SegmentsOfName("");
          NamesAppend(Segments(a[1..]), [""]);
          NamesOfOne("");
        }
      }
    }
  }

  /** Either kind of slash passes for a slash. */
  predicate Alike(c: char, r: char) {
    c == r || (r == '/' && c == '\\')
  }

  predicate SpelledAlike(text: string, repo: string) {
    && |repo| <= |text| && (forall k :: 0 <= k < |repo| ==> Alike(text[k], repo[k]))
    && (|text| > |repo| ==> Alike(text[|repo|], '/'))
  }

  lemma {:induction false} TrimmedSpelling(text: string)
    requires '\\' !in text
    ensures SpellsRepo(TrimSlashes(text)) <==> SpelledAlike(text, REPO_ROOT)
  {
    var n := |REPO_ROOT|;
    assert REPO_ROOT[n - 1] == 'o' && '\\' !in REPO_ROOT;
    if text != [] && text[|text| - 1] == '/' {
      var rest := text[..|text| - 1];
      TrimmedSpelling(rest);
      if |rest| >= n {
        assert SpelledAlike(rest, REPO_ROOT) <==> SpelledAlike(text, REPO_ROOT);
      } else {
        assert |text| == n ==> !Alike(text[n - 1], REPO_ROOT[n - 1]);
      }
    } else {
      assert SpelledAlike(text, REPO_ROOT) ==> text[..n] == REPO_ROOT;
      if SpelledAlike(text, REPO_ROOT) && |text| > n { assert text[..n + 1] == REPO_ROOT + "/"; }
      if REPO_ROOT + "/" <= text {
        assert forall k :: 0 <= k < n ==> text[k] == (REPO_ROOT + "/")[k];
        assert text[n] == (REPO_ROOT + "/")[n];
      }
    }
  }

  /** The worker's test, character by character: the path starts like the repository root, in either kind of
      slash, and then ends or goes on with a slash of either kind. */
  lemma {:induction false} UnderRepoExactly(path: string)
    ensures UnderRepo(path) <==> SpelledAlike(path, REPO_ROOT)
  {
    var text := seq(|path|, i requires 0 <= i < |path| => if path[i] == '\\' then '/' else path[i]);
    TrimmedSpelling(text);
    assert '\\' !in REPO_ROOT;
    forall k | 0 <= k < |REPO_ROOT| && k < |path| ensures Alike(text[k], REPO_ROOT[k]) <==> Alike(path[k], REPO_ROOT[k]) {
      assert REPO_ROOT[k] in REPO_ROOT;
    }
  }

  lemma {:induction false} NamesKeep(segs: seq<string>, s: string)
    requires s != "" && s != "."
    ensures s in Names(segs) <==> s in segs
  {
    if segs != [] { NamesKeep(segs[1..], s); }
  }

  /** A path has a parent component exactly if it is written with a `..` between slashes or ends. */
  lemma {:induction false} HasParentExactly(path: string)
    ensures HasParent(path) <==> ".." in Segments(path)
  {
    hide Names;
    if Absolute(path) {
      NamesKeep(Segments(path[1..]), "..");
      SegmentsCons('/', path[1..]);
      assert path == ['/'] + path[1..];
    } else {
      NamesKeep(Segments(path), "..");
    }
  }

  lemma {:induction false} JoinNames(root: string, tag: string)
    requires IsName(tag)
    ensures NamesOf(Join(root, tag)) == NamesOf(root) + [tag]
    ensures Absolute(Join(root, tag)) <==> Absolute(root)
  {
    hide Segments, Names;
    if Absolute(root) {
      JoinSegments(root[1..], tag);
      assert Join(root, tag)[1..] == Join(root[1..], tag) by {
        if |root| > 1 { assert root[1..][|root| - 2] == root[|root| - 1]; }
      }
    } else {
      JoinSegments(root, tag);
      if root == [] { assert tag[0] in tag; }
    }
  }

  lemma {:induction false} CollapseJoin(root: string, tag: string)
    requires IsName(tag)
    ensures var names := NamesOf(root);
            Collapse(Join(root, tag)) == Lead(root) + if names == [] then tag else Joined(names) + "/" + tag
  {
    hide NamesOf, Joined, Join, Absolute, IsName;
    var names := NamesOf(root);
    JoinNames(root, tag);
    JoinedOne(tag);
    if names == [] {
      assert names + [tag] == [tag];
    } else {
      JoinedAppend(names, [tag]);
    }
  }

  /** Below a plainly written root, workspaces are written plainly. */
  lemma {:induction false} JoinStaysPlain(root: string, tag: string)
    requires IsName(tag) && Plain(root)
    ensures Collapse(Join(root, tag)) == Join(root, tag)
  {
    CollapseJoin(root, tag);
    hide NamesOf, Joined, Join, IsName;
    var names := NamesOf(root);
    NamesOfAreNames(root);
    if names == [] {
      JoinedNil();
      assert root == Lead(root);
      LeadJoin(root, tag);
    } else {
      JoinedEnd(names);
      PlainJoin(root, Lead(root), Joined(names), tag);
      ConcatAssoc(Lead(root), Joined(names), "/");
      ConcatAssoc(Lead(root), Joined(names) + "/", tag);
    }
  }

  lemma {:induction false} LeadJoin(root: string, tag: string)
    requires root == Lead(root)
    ensures Join(root, tag) == root + tag
  {
  }

  lemma {:induction false} JoinedOne(s: string)
    ensures Joined([s]) == s
  {
  }

  lemma {:induction false} PlainJoin(root: string, lead: string, text: string, tag: string)
    requires text != "" && text[|text| - 1] != '/'
    requires root == lead + text || root == lead + text + "/"
    ensures Join(root, tag) == lead + text + "/" + tag
  {
    var whole := lead + text;
    assert whole[|whole| - 1] == text[|text| - 1];
    if root != whole { assert root == whole + "/"; }
  }

  lemma {:induction false} JoinedEnd(segs: seq<string>)
    requires segs != [] && AllNames(segs)
    ensures Joined(segs) != "" && Joined(segs)[|Joined(segs)| - 1] != '/'
  {
    if |segs| == 1 {
      var s := segs[0];
      assert s[|s| - 1] in s;
    } else {
      JoinedEnd(segs[1..]);
    }
  }

  // ----- Preparation ---------------------------------------------------------------------------------

  datatype Mode = DryRun | PlanOnly | CodexExec | CloudflareOrchestrator

  datatype Profile = Profile(kind: string, baseUrl: Option<string>, envKey: Option<string>, allowed: seq<string>)

  /** `valid` is the verdict of the template's own field checks. */
  datatype FixedTask = FixedTask(templateId: string, valid: bool)

  datatype Context = Context(
    runId: string,
    capability: string,
    hasTask: bool,
    memorySpace: Option<string>,
    blankSpace: bool,
    fixedTask: Option<FixedTask>)

  datatype Config = Config(
    mode: Mode,
    profile: Profile,
    hostKind: string,
    allowExec: bool,
    root: Option<string>,
    effort: Option<string>)

  datatype Plan = Plan(writable: bool, workspace: Option<string>, tag: string)

  datatype Decision = Decision(mode: Mode, plan: Option<Plan>)

  const FIXED_TEMPLATES := ["static_page_image2_data_publish", "answer_quality_autofix", "data_ingestion_analysis"]
  const HOSTS := ["windows_jump", "mac_host", "linux_host", "aiv3_server", "cloudflare_codex"]
  const EFFORTS := ["none", "minimal", "low", "medium", "high", "xhigh"]
  const WRITERS :=
    ["propose_patch", "customer_artifact_request", "generated_static_page_edit", "generated_static_page_publish"]
  const COMPLEX_REQUEST := "customer_complex_request"
  const PRODUCT_CHANGE := "v3_product_change_request"

  predicate Allows(p: Profile, capability: string) {
    (p.kind == "dry-run" && p.allowed == []) || capability in p.allowed
  }

  predicate Planning(mode: Mode) {
    mode == PlanOnly || mode == CodexExec
  }

  /** `validate_fixed_task_policy`. */
  predicate FixedTaskAccepted(cfg: Config, ctx: Context) {
    (ctx.capability !in FIXED_TEMPLATES && ctx.fixedTask.None?)
    || (&& ctx.fixedTask.Some?
        && ctx.fixedTask.value.templateId == ctx.capability
        && (cfg.mode == DryRun || cfg.hostKind in HOSTS)
        && ctx.fixedTask.value.valid
        && (Planning(cfg.mode) ==> cfg.root.Some?))
  }

  predicate KeyChar(c: char) {
    'a' <= c <= 'z' || 'A' <= c <= 'Z' || '0' <= c <= '9' || c == '_'
  }

  /** `validate_provider_env_key_name` on the trimmed name. */
  predicate EnvKeyAccepted(key: string) {
    && 1 <= |key| <= 128
    && (forall c :: c in key ==> KeyChar(c))
    && !('0' <= key[0] <= '9')
  }

  /** What `build_codex_command_plan` insists on. */
  predicate Buildable(cfg: Config, ctx: Context) {
    && (ctx.fixedTask.Some? || ctx.hasTask)
    && (cfg.profile.kind == "codex-compatible-shim" ==>
          && cfg.profile.baseUrl.Some?
          && (cfg.profile.envKey.Some? ==> EnvKeyAccepted(cfg.profile.envKey.value)))
    && (cfg.effort.Some? ==> cfg.effort.value in EFFORTS)
  }

  /** `codex_sandbox_for_context`: whether the sandbox may write its workspace. */
  predicate Writable(ctx: Context) {
    if ctx.capability in WRITERS then true
    else if ctx.capability == COMPLEX_REQUEST || ctx.capability == PRODUCT_CHANGE then false
    else ctx.fixedTask.Some?
  }

  function BuildPlan(cfg: Config, ctx: Context): Plan {
    var tag := Label(ctx.memorySpace, ctx.blankSpace, ctx.runId);
    Plan(Writable(ctx), if cfg.root.Some? then Some(Join(cfg.root.value, tag)) else None, tag)
  }

  /** `validate_real_exec_guard`. */
  predicate ExecAccepted(cfg: Config, plan: Plan) {
    && cfg.allowExec
    && cfg.hostKind in HOSTS
    && (cfg.profile.kind == "codex-native" || cfg.profile.kind == "codex-compatible-shim")
    && cfg.root.Some? && plan.workspace.Some?
    && ScopeAccepted(cfg.root.value, plan.workspace.value)
  }

  /** `CodexHostAgentPolicy::prepare`. */
  function Prepare(cfg: Config, ctx: Context): Result<Decision> {
    if !Allows(cfg.profile, ctx.capability) then Err
    else if ctx.capability == PRODUCT_CHANGE then Err
    else if !FixedTaskAccepted(cfg, ctx) then Err
    else if Planning(cfg.mode) && !Buildable(cfg, ctx) then Err
    else
      var plan := if Planning(cfg.mode) then Some(BuildPlan(cfg, ctx)) else None;
      if cfg.mode == CodexExec && !ExecAccepted(cfg, plan.value) then Err
      else if cfg.mode == CloudflareOrchestrator && cfg.hostKind != "cloudflare_codex" then Err
      else Ok(Decision(cfg.mode, plan))
  }

  // The guards, spelled out.

  predicate Named(capability: string, p: Profile) {
    || (exists i :: 0 <= i < |p.allowed| && p.allowed[i] == capability)
    || (p.kind == "dry-run" && |p.allowed| == 0)
  }

  predicate RemoteHost(kind: string) {
    || kind == "windows_jump" || kind == "mac_host" || kind == "linux_host"
    || kind == "aiv3_server" || kind == "cloudflare_codex"
  }

  predicate NeedsTemplate(capability: string) {
    || capability == "static_page_image2_data_publish" || capability == "answer_quality_autofix"
    || capability == "data_ingestion_analysis"
  }

  predicate KnownEffort(effort: string) {
    || effort == "none" || effort == "minimal" || effort == "low"
    || effort == "medium" || effort == "high" || effort == "xhigh"
  }

  /** What every mode demands. A fixed task, which three capabilities need, is valid and for the very
      capability; outside a dry run it wants a remote host. */
  predicate Admitted(cfg: Config, ctx: Context) {
    && Named(ctx.capability, cfg.profile)
    && ctx.capability != "v3_product_change_request"
    && (NeedsTemplate(ctx.capability) ==> ctx.fixedTask.Some?)
    && (ctx.fixedTask.Some? ==>
          && ctx.fixedTask.value.valid && ctx.fixedTask.value.templateId == ctx.capability
          && (cfg.mode != DryRun ==> RemoteHost(cfg.hostKind)))
  }

  /** What the modes that plan a command demand besides. */
  predicate Plannable(cfg: Config, ctx: Context) {
    && (ctx.fixedTask.Some? ==> cfg.root.Some?)
    && (ctx.fixedTask.None? ==> ctx.hasTask)
    && (cfg.effort.Some? ==> KnownEffort(cfg.effort.value))
    && (cfg.profile.kind == "codex-compatible-shim" ==>
          && cfg.profile.baseUrl.Some?
          && (cfg.profile.envKey.Some? ==>
                var key := cfg.profile.envKey.value;
                && 1 <= |key| <= 128 && !('0' <= key[0] <= '9')
                && forall i :: 0 <= i < |key| ==>
                     key[i] == '_' || 'a' <= key[i] <= 'z' || 'A' <= key[i] <= 'Z' || '0' <= key[i] <= '9'))
  }

  /** What a real launch demands besides. */
  predicate Launchable(cfg: Config, ctx: Context) {
    && cfg.allowExec && RemoteHost(cfg.hostKind)
    && (cfg.profile.kind == "codex-native" || cfg.profile.kind == "codex-compatible-shim")
    && cfg.root.Some? && ".." !in Segments(cfg.root.value)
    && !SpelledAlike(cfg.root.value, "/srv/aiv3/repo")
    && !SpelledAlike(Join(cfg.root.value, Label(ctx.memorySpace, ctx.blankSpace, ctx.runId)), "/srv/aiv3/repo")
  }

  lemma {:induction false} AdmittedExactly(cfg: Config, ctx: Context)
    ensures Admitted(cfg, ctx) && (ctx.fixedTask.Some? && Planning(cfg.mode) ==> cfg.root.Some?) <==>
            Allows(cfg.profile, ctx.capability) && ctx.capability != PRODUCT_CHANGE && FixedTaskAccepted(cfg, ctx)
  {
    assert Named(ctx.capability, cfg.profile) <==> Allows(cfg.profile, ctx.capability);
    HostList(cfg.hostKind);
    TemplateList(ctx.capability);
  }

  lemma {:induction false} HostList(kind: string)
    ensures kind in HOSTS <==> RemoteHost(kind)
  {
  }

  lemma {:induction false} TemplateList(capability: string)
    ensures capability in FIXED_TEMPLATES <==> NeedsTemplate(capability)
  {
  }

  lemma {:induction false} EffortList(effort: string)
    ensures effort in EFFORTS <==> KnownEffort(effort)
  {
  }

  lemma {:induction false} PlannableExactly(cfg: Config, ctx: Context)
    ensures Plannable(cfg, ctx) <==> Buildable(cfg, ctx) && (ctx.fixedTask.Some? ==> cfg.root.Some?)
  {
    if cfg.effort.Some? { EffortList(cfg.effort.value); }
    if cfg.profile.envKey.Some? {
      var key := cfg.profile.envKey.value;
      assert (forall c :: c in key ==> KeyChar(c)) <==> (forall i :: 0 <= i < |key| ==> KeyChar(key[i]));
    }
  }

  /** Exactly which requests each mode accepts; the containment test is not among the guards because it
      cannot fail. */
  lemma {:induction false} PrepareExactly(cfg: Config, ctx: Context)
    ensures Prepare(cfg, ctx).Ok? <==>
            && Admitted(cfg, ctx)
            && match cfg.mode
               case DryRun => true
               case PlanOnly => Plannable(cfg, ctx)
               case CodexExec => Plannable(cfg, ctx) && Launchable(cfg, ctx)
               case CloudflareOrchestrator => cfg.hostKind == "cloudflare_codex"
  {
    hide Label, UnderRepo, HasParent, Join, FixedTaskAccepted, Buildable, Allows, Admitted, Plannable, SpelledAlike,
         Segments, RemoteHost;
    AdmittedExactly(cfg, ctx);
    PlannableExactly(cfg, ctx);
    HostList(cfg.hostKind);
    LabelIsClean(ctx.memorySpace, ctx.blankSpace, ctx.runId);
    if cfg.root.Some? {
      var workspace := Join(cfg.root.value, Label(ctx.memorySpace, ctx.blankSpace, ctx.runId));
      BuilderStaysInside(cfg.root.value, Label(ctx.memorySpace, ctx.blankSpace, ctx.runId));
      UnderRepoExactly(cfg.root.value);
      UnderRepoExactly(workspace);
      HasParentExactly(cfg.root.value);
    }
  }

  predicate MayWrite(ctx: Context) {
    || ctx.capability == "propose_patch" || ctx.capability == "customer_artifact_request"
    || ctx.capability == "generated_static_page_edit" || ctx.capability == "generated_static_page_publish"
    || (ctx.fixedTask.Some? && ctx.capability != "customer_complex_request"
        && ctx.capability != "v3_product_change_request")
  }

  lemma {:induction false} MayWriteExactly(ctx: Context)
    ensures Writable(ctx) <==> MayWrite(ctx)
  {
  }

  /** What an accepted request gets: the requested mode, and a plan exactly in the modes that make one. The
      plan's workspace hangs below the root if there is one, and its sandbox is writable exactly for the
      four capabilities and for fixed tasks. */
  lemma {:induction false} PreparedPlan(cfg: Config, ctx: Context)
    requires Prepare(cfg, ctx).Ok?
    ensures var d := Prepare(cfg, ctx).value;
            && d.mode == cfg.mode
            && (d.plan.Some? <==> cfg.mode == PlanOnly || cfg.mode == CodexExec)
            && (d.plan.Some? ==>
                  && d.plan.value.tag == Label(ctx.memorySpace, ctx.blankSpace, ctx.runId)
                  && (d.plan.value.workspace.Some? <==> cfg.root.Some?)
                  && (cfg.root.Some? ==> d.plan.value.workspace == Some(Join(cfg.root.value, d.plan.value.tag)))
                  && (d.plan.value.writable <==> MayWrite(ctx)))
  {
    hide Label, UnderRepo, HasParent, Join, FixedTaskAccepted, Buildable, Allows, Writable, MayWrite, ScopeAccepted;
    MayWriteExactly(ctx);
  }

  /** Below a plainly written root the worker's own test misses nothing. */
  lemma {:induction false} PlainIsOutside(root: string, tag: string)
    requires IsName(tag) && Plain(root) && !UnderRepo(Join(root, tag))
    ensures !InsideRepo(Join(root, tag))
  {
    hide Join, Plain, Collapse, InsideRepo, SpellsRepo, UnderRepo;
    JoinStaysPlain(root, tag);
    CollapsedTestExact(Join(root, tag));
    if SpellsRepo(Join(root, tag)) { NormalizeKeepsSpelling(Join(root, tag)); }
  }

  /** An approved launch runs in the root plus exactly one component of 1 to 96 label characters, with
      no parent component anywhere; it may write only for the four listed capabilities or a fixed task
      that matches the capability. */
  lemma {:induction false} ApprovedWorkspace(cfg: Config, ctx: Context)
    requires cfg.mode == CodexExec && Prepare(cfg, ctx).Ok?
    ensures var plan := Prepare(cfg, ctx).value.plan;
            && plan.Some? && plan.value.workspace.Some? && cfg.root.Some?
            && Components(plan.value.workspace.value) == Components(cfg.root.value) + [plan.value.tag]
            && 1 <= |plan.value.tag| <= 96
            && (forall c :: c in plan.value.tag ==> LabelChar(c))
            && plan.value.workspace.value == Join(cfg.root.value, plan.value.tag) && IsName(plan.value.tag)
            && !HasParent(plan.value.workspace.value)
            && !UnderRepo(plan.value.workspace.value)
            && (plan.value.writable ==>
                  ctx.capability in WRITERS
                  || (ctx.fixedTask.Some? && ctx.fixedTask.value.templateId == ctx.capability))
  {
    hide Label, UnderRepo, HasParent, Join, Buildable, Allows;
    LabelIsClean(ctx.memorySpace, ctx.blankSpace, ctx.runId);
    JoinAddsOne(cfg.root.value, Label(ctx.memorySpace, ctx.blankSpace, ctx.runId));
  }

  /** The names a launch ends up under: those of the working directory count for a relative root only. */
  function LaunchNames(cwd: string, root: string, tag: string): seq<string> {
    (if Absolute(root) then [] else NamesOf(cwd)) + NamesOf(root) + [tag]
  }

  /** Where an approved launch runs, for every working directory of the agent. It is inside the product
      repository exactly if the collapsed spelling of the resolved workspace is the repository's, that
      is, if the names of working directory, root and label, one after the other, start with the
      repository's. It never is below a plainly written absolute root, and always is if the root is
      relative and the agent itself runs inside. */
  lemma {:induction false} LaunchPlace(cfg: Config, ctx: Context, cwd: string)
    requires cfg.mode == CodexExec && Prepare(cfg, ctx).Ok? && Absolute(cwd)
    ensures var plan := Prepare(cfg, ctx).value.plan;
            && plan.Some? && plan.value.workspace.Some? && cfg.root.Some?
            && var root, place := cfg.root.value, Resolve(cwd, plan.value.workspace.value);
               && (InsideRepo(place) <==> SpellsRepo(Collapse(place)))
               && (InsideRepo(place) <==> REPO_NAMES <= LaunchNames(cwd, root, plan.value.tag))
               && (Absolute(root) && Plain(root) ==> !InsideRepo(place))
               && (!Absolute(root) && InsideRepo(cwd) ==> InsideRepo(place))
  {
    hide Label, UnderRepo, HasParent, Join, Buildable, Allows, Plain, Collapse, InsideRepo, SpellsRepo, Prepare,
         NamesOf, Resolve;
    ApprovedWorkspace(cfg, ctx);
    var root, plan := cfg.root.value, Prepare(cfg, ctx).value.plan.value;
    var place := Resolve(cwd, plan.workspace.value);
    JoinNames(root, plan.tag);
    ResolveNames(cwd, plan.workspace.value);
    ConcatAssoc(if Absolute(root) then [] else NamesOf(cwd), NamesOf(root), [plan.tag]);
    CollapsedTestExact(place);
    InsideByNames(place);
    InsideByNames(cwd);
    if Absolute(root) && Plain(root) {
      PlainIsOutside(root, plan.tag);
      ResolveAbsolute(cwd, plan.workspace.value);
    }
  }

  lemma {:induction false} ResolveAbsolute(cwd: string, path: string)
    requires Absolute(path)
    ensures Resolve(cwd, path) == path
  {
  }

  lemma {:induction false} InsideByNames(path: string)
    requires Absolute(path)
    ensures InsideRepo(path) <==> REPO_NAMES <= NamesOf(path)
  {
    hide NamesOf;
    AbsoluteComponents(path);
    RepoSpelling();
    ConsPrefix("/", REPO_NAMES, NamesOf(path));
  }

  const DOUBLED_ROOT := "/srv/aiv3//repo"

  lemma {:induction false} DoubledSlashComponents()
    ensures Components(DOUBLED_ROOT) == Components(REPO_ROOT)
  {
    hide Segments, Names;
    var tail := "" + "/" + "repo";
    assert DOUBLED_ROOT[1..] == "srv/aiv3" + "/" + tail;
    assert REPO_ROOT[1..] == "srv/aiv3" + "/" + "repo";
    SegmentsJoin("srv/aiv3", tail);
    SegmentsJoin("", "repo");
    SegmentsJoin("srv/aiv3", "repo");
    SegmentsOfName("");
    SegmentsOfName("repo");
    NamesAppend(Segments("srv/aiv3"), [""] + ["repo"]);
    NamesAppend(Segments("srv/aiv3"), ["repo"]);
    NamesAppend([""], ["repo"]);
    NamesOfOne("");
    NamesOfOne("repo");
  }

  lemma {:induction false} DoubledSlashPasses(path: string)
    requires DOUBLED_ROOT <= path && path[|path| - 1] != '/' && path[|path| - 1] != '\\'
    ensures !UnderRepo(path)
  {
    assert Normalize(path)[10] == DOUBLED_ROOT[10] == '/';
    assert REPO_ROOT[10] == 'r' && (REPO_ROOT + "/")[10] == 'r';
  }

  /** A launch that passes every guard but the path checks, with the given root. */
  function PatchConfig(root: string): Config {
    Config(CodexExec, Profile("codex-native", None, None, ["propose_patch"]), "linux_host", true, Some(root), None)
  }

  const PATCH_TASK := Context("1", "propose_patch", true, None, false, None)
  const PATCH_LABEL := Label(None, false, "1")

  lemma {:induction false} PatchApproved(root: string)
    requires !HasParent(root) && !UnderRepo(root) && !UnderRepo(Join(root, PATCH_LABEL))
    ensures Prepare(PatchConfig(root), PATCH_TASK).Ok?
    ensures Prepare(PatchConfig(root), PATCH_TASK).value.plan == Some(Plan(true, Some(Join(root, PATCH_LABEL)), PATCH_LABEL))
  {
    hide Label, Join, Segments, SpelledAlike;
    var cfg := PatchConfig(root);
    assert cfg.profile.allowed[0] == "propose_patch";
    UnderRepoExactly(root);
    UnderRepoExactly(Join(root, PATCH_LABEL));
    HasParentExactly(root);
    PrepareExactly(cfg, PATCH_TASK);
    PreparedPlan(cfg, PATCH_TASK);
  }

  lemma {:induction false} PatchLabel()
    ensures IsName(PATCH_LABEL) && PATCH_LABEL[|PATCH_LABEL| - 1] !in "/\\"
  {
    hide Label;
    LabelIsClean(None, false, "1");
    assert LabelChar(PATCH_LABEL[|PATCH_LABEL| - 1]);
  }

  /** Witness: a doubled slash in an absolute root carries a writable launch into the product repository
      past every guard, wherever the agent runs. */
  lemma {:induction false} DoubledSlashGetsIn(cwd: string)
    ensures var d := Prepare(PatchConfig(DOUBLED_ROOT), PATCH_TASK);
            && d.Ok? && d.value.plan.Some? && d.value.plan.value.writable && d.value.plan.value.workspace.Some?
            && InsideRepo(Resolve(cwd, d.value.plan.value.workspace.value))
  {
    hide Label, UnderRepo, Components, Collapse, Plain, Prepare;
    var workspace := Join(DOUBLED_ROOT, PATCH_LABEL);
    PatchLabel();
    assert workspace == DOUBLED_ROOT + "/" + PATCH_LABEL;
    assert workspace[|workspace| - 1] == PATCH_LABEL[|PATCH_LABEL| - 1];
    DoubledSlashPasses(DOUBLED_ROOT);
    DoubledSlashPasses(workspace);
    DoubledSlashComponents();
    RepoSpelling();
    JoinAddsOne(DOUBLED_ROOT, PATCH_LABEL);
    PatchApproved(DOUBLED_ROOT);
  }

  const RELATIVE_ROOT := "work"

  lemma {:induction false} RelativePasses(path: string)
    requires path != [] && path[0] == 'w'
    ensures !UnderRepo(path)
  {
    TrimKeepsFirst(seq(|path|, i requires 0 <= i < |path| => if path[i] == '\\' then '/' else path[i]));
    assert REPO_ROOT[0] == '/' && (REPO_ROOT + "/")[0] == '/';
  }

  lemma {:induction false} TrimKeepsFirst(text: string)
    requires text != [] && text[0] != '/'
    ensures TrimSlashes(text) != [] && TrimSlashes(text)[0] == text[0]
  {
    if text[|text| - 1] == '/' { TrimKeepsFirst(text[..|text| - 1]); }
  }

  /** Witness: a plainly written relative root carries a writable launch into the product repository when
      the agent runs there. */
  lemma {:induction false} RelativeRootGetsIn()
    ensures Plain(RELATIVE_ROOT)
    ensures var d := Prepare(PatchConfig(RELATIVE_ROOT), PATCH_TASK);
            && d.Ok? && d.value.plan.Some? && d.value.plan.value.writable && d.value.plan.value.workspace.Some?
            && InsideRepo(Resolve(REPO_ROOT, d.value.plan.value.workspace.value))
  {
    hide Label, UnderRepo, HasParent, Prepare, InsideRepo, Resolve, SpellsRepo;
    assert RELATIVE_ROOT[0] == 'w';
    SegmentsOfName(RELATIVE_ROOT);
    NamesOfOne(RELATIVE_ROOT);
    JoinedOne(RELATIVE_ROOT);
    assert !HasParent(RELATIVE_ROOT) by { NoParent(RELATIVE_ROOT); }
    RelativePasses(RELATIVE_ROOT);
    RelativePasses(Join(RELATIVE_ROOT, PATCH_LABEL));
    PatchApproved(RELATIVE_ROOT);
    RepoInside();
    LaunchPlace(PatchConfig(RELATIVE_ROOT), PATCH_TASK, REPO_ROOT);
  }

  lemma {:induction false} NoParent(name: string)
    requires IsName(name)
    ensures !HasParent(name)
  {
    hide Segments, Names;
    SegmentsOfName(name);
    NamesOfOne(name);
    assert name[0] in name;
  }

  lemma {:induction false} RepoInside()
    ensures InsideRepo(REPO_ROOT)
  {
  }
}
