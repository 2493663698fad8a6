/** The bounded artifact copy of crates/codex-host-agent/src/lib.rs: a recursive directory walk that
    shares one mutable running total and stops at the first file that would break a limit. */
module TreeCopy {
  import opened Prelude

  const MAX_FILES := 500
  const MAX_BYTES := 100 * 1024 * 1024
  const U64_MAX := 0xFFFF_FFFF_FFFF_FFFF

  type u64 = n: nat | n <= U64_MAX

  /** A directory entry as the walk sees it. `Faulty` stands for any entry whose inspection, listing
      or copy reports an I/O error. */
  datatype Node =
    | File(size: u64, data: string)
    | Dir(entries: seq<Entry>)
    | Symlink
    | Special
    | Faulty

  datatype Entry = Entry(name: string, node: Node)

  // ----- What a tree contains -------------------------------------------------------------------

  function FileCount(es: seq<Entry>): nat
    decreases es
  {
    if es == [] then 0 else
    FileCount(es[1..]) +
    match es[0].node
    case File(_, _) => 1
    case Dir(sub) => FileCount(sub)
    case _ => 0
  }

  function ByteCount(es: seq<Entry>): nat
    decreases es
  {
    if es == [] then 0 else
    ByteCount(es[1..]) +
    match es[0].node
    case File(size, _) => size
    case Dir(sub) => ByteCount(sub)
    case _ => 0
  }

  predicate Readable(es: seq<Entry>)
    decreases es
  {
    es != [] ==>
      && !es[0].node.Faulty?
      && (es[0].node.Dir? ==> Readable(es[0].node.entries))
      && Readable(es[1..])
  }

  /** The tree without symlinks and special files; directories stay even when they become empty. */
  function Regular(es: seq<Entry>): seq<Entry>
    decreases es
  {
    if es == [] then [] else
    (match es[0].node
     case File(_, _) => [es[0]]
     case Dir(sub) => [Entry(es[0].name, Dir(Regular(sub)))]
     case _ => [])
    + Regular(es[1..])
  }

  predicate Fits(files: nat, bytes: nat) {
    files <= MAX_FILES && bytes <= MAX_BYTES
  }

  lemma {:induction false} FilesAppend(a: seq<Entry>, b: seq<Entry>)
    ensures FileCount(a + b) == FileCount(a) + FileCount(b)
  {
    if a == [] {
      assert a + b == b;
    } else {
      FilesAppend(a[1..], b);
      assert (a + b)[1..] == a[1..] + b && (a + b)[0] == a[0];
    }
  }

  lemma {:induction false} BytesAppend(a: seq<Entry>, b: seq<Entry>)
    ensures ByteCount(a + b) == ByteCount(a) + ByteCount(b)
  {
    if a == [] {
      assert a + b == b;
    } else {
      BytesAppend(a[1..], b);
      assert (a + b)[1..] == a[1..] + b && (a + b)[0] == a[0];
    }
  }

  lemma {:induction false} ReadableAppend(a: seq<Entry>, b: seq<Entry>)
    ensures Readable(a + b) <==> Readable(a) && Readable(b)
  {
    if a == [] {
      assert a + b == b;
    } else {
      ReadableAppend(a[1..], b);
      assert (a + b)[1..] == a[1..] + b && (a + b)[0] == a[0];
    }
  }

  lemma {:induction false} RegularAppend(a: seq<Entry>, b: seq<Entry>)
    ensures Regular(a + b) == Regular(a) + Regular(b)
  {
    if a == [] {
      assert a + b == b;
    } else {
      RegularAppend(a[1..], b);
      assert (a + b)[1..] == a[1..] + b && (a + b)[0] == a[0];
      var head := match a[0].node
        case File(_, _) => [a[0]]
        case Dir(sub) => [Entry(a[0].name, Dir(Regular(sub)))]
        case _ => [];
      ConcatAssoc(head, Regular(a[1..]), Regular(b));
    }
  }

  lemma {:induction false} CountAppend(a: seq<Entry>, b: seq<Entry>)
    ensures FileCount(a + b) == FileCount(a) + FileCount(b)
    ensures ByteCount(a + b) == ByteCount(a) + ByteCount(b)
    ensures Readable(a + b) <==> Readable(a) && Readable(b)
    ensures Regular(a + b) == Regular(a) + Regular(b)
  {
    FilesAppend(a, b);
    BytesAppend(a, b);
    ReadableAppend(a, b);
    RegularAppend(a, b);
  }

  lemma {:induction false} CountOne(e: Entry)
    ensures FileCount([e]) == match e.node case File(_, _) => 1 case Dir(sub) => FileCount(sub) case _ => 0
    ensures ByteCount([e]) == match e.node case File(size, _) => size case Dir(sub) => ByteCount(sub) case _ => 0
    ensures Readable([e]) <==> !e.node.Faulty? && (e.node.Dir? ==> Readable(e.node.entries))
    ensures Regular([e]) == match e.node
                            case File(_, _) => [e]
                            case Dir(sub) => [Entry(e.name, Dir(Regular(sub)))]
                            case _ => []
  {
    assert [e][1..] == [];
  }

  lemma {:induction false} CountSnoc(es: seq<Entry>, n: nat)
    requires n < |es|
    ensures FileCount(es[..n + 1]) == FileCount(es[..n]) + FileCount([es[n]])
    ensures ByteCount(es[..n + 1]) == ByteCount(es[..n]) + ByteCount([es[n]])
    ensures Readable(es[..n + 1]) <==> Readable(es[..n]) && Readable([es[n]])
    ensures Regular(es[..n + 1]) == Regular(es[..n]) + Regular([es[n]])
  {
    assert es[..n + 1] == es[..n] + [es[n]];
    CountAppend(es[..n], [es[n]]);
  }

  /** A prefix that does not fit or cannot be read dooms the whole listing. */
  lemma {:induction false} CountPrefix(es: seq<Entry>, n: nat)
    requires n <= |es|
    ensures FileCount(es[..n]) <= FileCount(es)
    ensures ByteCount(es[..n]) <= ByteCount(es)
    ensures Readable(es) ==> Readable(es[..n])
  {
    assert es == es[..n] + es[n..];
    CountAppend(es[..n], es[n..]);
  }

  /** Dropping symlinks and special files changes no total. */
  lemma {:induction false} RegularCounts(es: seq<Entry>)
    ensures FileCount(Regular(es)) == FileCount(es) && ByteCount(Regular(es)) == ByteCount(es)
    decreases es
  {
    if es != [] {
      RegularCounts(es[1..]);
      if es[0].node.Dir? { RegularCounts(es[0].node.entries); }
      CountOne(es[0]);
      var head := Regular([es[0]]);
      assert es == [es[0]] + es[1..];
      RegularAppend([es[0]], es[1..]);
      FilesAppend(head, Regular(es[1..]));
      BytesAppend(head, Regular(es[1..]));
      if head != [] { CountOne(head[0]); }
    }
  }

  // ----- Stopped walks -----------------------------------------------------------------------------

  /** What a walk over `es` from the given totals can take in completely. */
  predicate Takes(es: seq<Entry>, files: nat, bytes: nat) {
    Readable(es) && Fits(files + FileCount(es), bytes + ByteCount(es))
  }

  /** The walk stops at entry `n`, the first it cannot take in. All entries before are copied completely; of
      a directory there is what the walk of that directory had copied when it stopped. */
  ghost predicate StopsAt(es: seq<Entry>, files: nat, bytes: nat, n: nat, target: seq<Entry>)
    requires n < |es|
    decreases es, 0
  {
    var before := es[..n];
    && Takes(before, files, bytes) && !Takes(es[..n + 1], files, bytes)
    && if es[n].node.Dir?
       then && |target| > 0 && target[..|target| - 1] == Regular(before)
            && target[|target| - 1].name == es[n].name && target[|target| - 1].node.Dir?
            && Stops(es[n].node.entries, files + FileCount(before), bytes + ByteCount(before),
                     target[|target| - 1].node.entries)
       else target == Regular(before)
  }

  ghost predicate Stops(es: seq<Entry>, files: nat, bytes: nat, target: seq<Entry>)
    decreases es, 1
  {
    exists n :: 0 <= n < |es| && StopsAt(es, files, bytes, n, target)
  }

  /** What a stopped walk leaves behind stays within both limits. */
  lemma {:induction false} StoppedFits(es: seq<Entry>, files: nat, bytes: nat, target: seq<Entry>)
    requires Stops(es, files, bytes, target)
    ensures Fits(files + FileCount(target), bytes + ByteCount(target))
    decreases es
  {
    hide FileCount, ByteCount, Regular, Readable;
    var n :| 0 <= n < |es| && StopsAt(es, files, bytes, n, target);
    var before := es[..n];
    RegularCounts(before);
    if es[n].node.Dir? {
      var rest, last := target[..|target| - 1], target[|target| - 1];
      StoppedFits(es[n].node.entries, files + FileCount(before), bytes + ByteCount(before), last.node.entries);
      assert target == rest + [last];
      FilesAppend(rest, [last]);
      BytesAppend(rest, [last]);
      CountOne(last);
    }
  }

  /** Whatever fits a limit also fits it without its last entries. */
  lemma {:induction false} TakesPrefix(es: seq<Entry>, files: nat, bytes: nat, m: nat, n: nat)
    requires m <= n <= |es| && Takes(es[..n], files, bytes)
    ensures Takes(es[..m], files, bytes)
  {
    assert es[..n][..m] == es[..m];
    CountPrefix(es[..n], m);
  }

  /** There is only one place to stop, and only one thing to leave behind. */
  lemma {:induction false} StopsOnce(es: seq<Entry>, files: nat, bytes: nat, a: seq<Entry>, b: seq<Entry>)
    requires Stops(es, files, bytes, a) && Stops(es, files, bytes, b)
    ensures a == b
    decreases es
  {
    hide FileCount, ByteCount, Regular, Readable;
    var m :| 0 <= m < |es| && StopsAt(es, files, bytes, m, a);
    var n :| 0 <= n < |es| && StopsAt(es, files, bytes, n, b);
    if m < n { TakesPrefix(es, files, bytes, m + 1, n); }
    if n < m { TakesPrefix(es, files, bytes, n + 1, m); }
    if es[n].node.Dir? {
      var before, x, y := es[..n], a[|a| - 1], b[|b| - 1];
      StopsOnce(es[n].node.entries, files + FileCount(before), bytes + ByteCount(before), x.node.entries,
                y.node.entries);
      assert x == y;
      assert a == a[..|a| - 1] + [x] && b == b[..|b| - 1] + [y];
    }
  }

  // ----- Saturating arithmetic -------------------------------------------------------------------

  /** `u64::saturating_add`. */
  function SaturatingAdd(a: u64, b: u64): u64 {
    if a + b > U64_MAX then U64_MAX else a + b
  }

  /** Saturation can neither hide nor feign an overrun of the byte limit, and is exact below it. */
  lemma {:induction false} SaturationIsHarmless(a: u64, b: u64)
    ensures SaturatingAdd(a, b) > MAX_BYTES <==> a + b > MAX_BYTES
    ensures a + b <= MAX_BYTES ==> SaturatingAdd(a, b) == a + b
  {
  }

  // ----- The walk ---------------------------------------------------------------------------------

  /** `ExistingArtifactCopySummary`, shared by all levels of the recursion. */
  class Summary {
    var files: nat
    var bytes: u64

    constructor ()
      ensures files == 0 && bytes == 0
    {
      files, bytes := 0, 0;
    }
  }

  /** The walk has taken in the first `n` entries. */
  predicate Copied(es: seq<Entry>, n: nat, files0: nat, bytes0: nat, files: nat, bytes: nat, target: seq<Entry>) {
    && n <= |es|
    && Takes(es[..n], files0, bytes0) && target == Regular(es[..n])
    && files == files0 + FileCount(es[..n]) && bytes == bytes0 + ByteCount(es[..n])
  }

  /** Taking in one more entry. */
  lemma {:induction false} CopiedNext(es: seq<Entry>, n: nat, files0: nat, bytes0: nat, files: nat, bytes: nat,
                                      target: seq<Entry>)
    requires Copied(es, n, files0, bytes0, files, bytes, target) && n < |es|
    ensures Takes(es[..n + 1], files0, bytes0) <==> Takes([es[n]], files, bytes)
    ensures Takes([es[n]], files, bytes) ==>
              Copied(es, n + 1, files0, bytes0, files + FileCount([es[n]]), bytes + ByteCount([es[n]]),
                     target + Regular([es[n]]))
  {
    CountSnoc(es, n);
  }

  /** What is copied is what is counted. */
  lemma {:induction false} CopiedCounts(es: seq<Entry>, n: nat, files0: nat, bytes0: nat, files: nat, bytes: nat,
                                        target: seq<Entry>)
    requires Copied(es, n, files0, bytes0, files, bytes, target)
    ensures files == files0 + FileCount(target) && bytes == bytes0 + ByteCount(target)
    ensures Fits(files, bytes)
    ensures n == |es| ==> Takes(es, files0, bytes0) && target == Regular(es)
    ensures n == |es| ==> files == files0 + FileCount(es) && bytes == bytes0 + ByteCount(es)
  {
    RegularCounts(es[..n]);
    if n == |es| { assert es[..n] == es; }
  }

  /** Stopping at an entry that cannot be taken in. */
  lemma {:induction false} StopHere(es: seq<Entry>, n: nat, files0: nat, bytes0: nat, files: nat, bytes: nat,
                                    target: seq<Entry>)
    requires Copied(es, n, files0, bytes0, files, bytes, target) && n < |es|
    requires !Takes([es[n]], files, bytes)
    ensures !Takes(es, files0, bytes0)
    ensures !es[n].node.Dir? ==> Stops(es, files0, bytes0, target)
  {
    CopiedNext(es, n, files0, bytes0, files, bytes, target);
    CountPrefix(es, n + 1);
    if !es[n].node.Dir? { assert StopsAt(es, files0, bytes0, n, target); }
  }

  /** Stopping inside a directory. */
  lemma {:induction false} StopInside(es: seq<Entry>, n: nat, files0: nat, bytes0: nat, files: nat, bytes: nat,
                                      target: seq<Entry>, sub: seq<Entry>)
    requires Copied(es, n, files0, bytes0, files, bytes, target) && n < |es| && es[n].node.Dir?
    requires Stops(es[n].node.entries, files, bytes, sub) && !Takes(es[n].node.entries, files, bytes)
    ensures !Takes(es, files0, bytes0)
    ensures var left := target + [Entry(es[n].name, Dir(sub))];
            && Stops(es, files0, bytes0, left)
            && FileCount(left) == FileCount(target) + FileCount(sub)
            && ByteCount(left) == ByteCount(target) + ByteCount(sub)
  {
    var copy := Entry(es[n].name, Dir(sub));
    var left := target + [copy];
    CountOne(es[n]);
    StopHere(es, n, files0, bytes0, files, bytes, target);
    CopiedNext(es, n, files0, bytes0, files, bytes, target);
    FilesAppend(target, [copy]);
    BytesAppend(target, [copy]);
    CountOne(copy);
    assert left[..|left| - 1] == target;
    assert StopsAt(es, files0, bytes0, n, left);
  }

  lemma {:induction false} CopiedNone(es: seq<Entry>, files: nat, bytes: nat)
    requires Fits(files, bytes)
    ensures Copied(es, 0, files, bytes, files, bytes, [])
  {
    assert es[..0] == [];
  }

  /** What it takes to take in one entry. */
  lemma {:induction false} TakesOne(e: Entry, files: nat, bytes: nat)
    requires Fits(files, bytes)
    ensures Takes([e], files, bytes) <==>
            match e.node
            case File(size, _) => Fits(files + 1, bytes + size)
            case Dir(sub) => Takes(sub, files, bytes)
            case Faulty => false
            case _ => true
  {
    CountOne(e);
  }

  /** `copy_existing_artifact_tree` over one listing, in listing order. The limits hold at every
      point, whether or not the walk gets through. It gets through exactly when the tree is
      readable and what it adds to the running totals fits, and then the target is the regular
      part of the source; otherwise the target holds everything before the first entry that breaks a
      limit or cannot be read. Either way the totals have grown by exactly what was copied. */
  method CopyTree(es: seq<Entry>, summary: Summary) returns (ok: bool, target: seq<Entry>)
    requires Fits(summary.files, summary.bytes)
    modifies summary
    ensures Fits(summary.files, summary.bytes)
    ensures ok <==> Takes(es, old(summary.files), old(summary.bytes))
    ensures ok ==> target == Regular(es)
    ensures !ok ==> Stops(es, old(summary.files), old(summary.bytes), target)
    ensures ok ==> summary.files == old(summary.files) + FileCount(es)
    ensures ok ==> summary.bytes == old(summary.bytes) + ByteCount(es)
    ensures summary.files == old(summary.files) + FileCount(target)
    ensures summary.bytes == old(summary.bytes) + ByteCount(target)
    decreases es
  {
    hide Copied, Stops, Takes, FileCount, ByteCount, Regular;
    ghost var files0, bytes0 := summary.files, summary.bytes;
    target := [];
    CopiedNone(es, files0, bytes0);
    for n := 0 to |es|
      invariant Copied(es, n, files0, bytes0, summary.files, summary.bytes, target)
    {
      CountOne(es[n]);
      assert target + [] == target;
      CopiedCounts(es, n, files0, bytes0, summary.files, summary.bytes, target);
      CopiedNext(es, n, files0, bytes0, summary.files, summary.bytes, target);
      TakesOne(es[n], summary.files, summary.bytes);
      if !Takes([es[n]], summary.files, summary.bytes) {
        StopHere(es, n, files0, bytes0, summary.files, summary.bytes, target);
      }
      match es[n].node {
        case Symlink =>
        case Special =>
        case Faulty =>
          return false, target;
        case Dir(sub) =>
          ghost var files, bytes := summary.files, summary.bytes;
          var subOk, subTarget := CopyTree(sub, summary);
          if !subOk {
            StopInside(es, n, files0, bytes0, files, bytes, target, subTarget);
            return false, target + [Entry(es[n].name, Dir(subTarget))];
          }
          target := target + [Entry(es[n].name, Dir(subTarget))];
        case File(size, _) =>
          SaturationIsHarmless(summary.bytes, size);
          if summary.files >= MAX_FILES || SaturatingAdd(summary.bytes, size) > MAX_BYTES {
            return false, target;
          }
          target := target + [es[n]];
          summary.files := summary.files + 1;
          summary.bytes := SaturatingAdd(summary.bytes, size);
      }
    }
    CopiedCounts(es, |es|, files0, bytes0, summary.files, summary.bytes, target);
    ok := true;
  }

  /** A whole copy starts from empty totals. */
  method CopyArtifact(es: seq<Entry>) returns (ok: bool, target: seq<Entry>, files: nat, bytes: u64)
    ensures ok <==> Readable(es) && FileCount(es) <= 500 && ByteCount(es) <= 104_857_600
    ensures ok ==> target == Regular(es) && files == FileCount(es) && bytes == ByteCount(es)
    ensures !ok ==> Stops(es, 0, 0, target)
    ensures files == FileCount(target) && bytes == ByteCount(target) && files <= 500 && bytes <= 104_857_600
  {
    var summary := new Summary();
    ok, target := CopyTree(es, summary);
    files, bytes := summary.files, summary.bytes;
  }

  // ----- Listing order -----------------------------------------------------------------------------

  /** `b` lists the same tree as `a`, possibly in another order at every level. */
  ghost predicate Relisted(a: seq<Entry>, b: seq<Entry>)
    decreases a
  {
    if a == [] then b == []
    else exists i :: 0 <= i < |b| && RelistedEntry(a, b[i]) && Relisted(a[1..], b[..i] + b[i + 1..])
  }

  ghost predicate RelistedEntry(a: seq<Entry>, e: Entry)
    requires a != []
    decreases a, 0
  {
    && a[0].name == e.name
    && if a[0].node.Dir? then e.node.Dir? && Relisted(a[0].node.entries, e.node.entries) else e == a[0]
  }

  /** Measuring a listing with one entry taken out. */
  lemma {:induction false} CountMiddle(b: seq<Entry>, i: nat)
    requires i < |b|
    ensures FileCount(b) == FileCount([b[i]]) + FileCount(b[..i] + b[i + 1..])
    ensures ByteCount(b) == ByteCount([b[i]]) + ByteCount(b[..i] + b[i + 1..])
    ensures Readable(b) <==> Readable([b[i]]) && Readable(b[..i] + b[i + 1..])
    ensures Regular(b) == Regular(b[..i]) + (Regular([b[i]]) + Regular(b[i + 1..]))
    ensures Regular(b[..i] + b[i + 1..]) == Regular(b[..i]) + Regular(b[i + 1..])
  {
    assert b == b[..i] + ([b[i]] + b[i + 1..]);
    CountAppend(b[..i], [b[i]] + b[i + 1..]);
    CountAppend([b[i]], b[i + 1..]);
    CountAppend(b[..i], b[i + 1..]);
  }

  /** Neither the verdict nor the totals depend on the order in which directories are listed. */
  lemma {:induction false} OrderIrrelevant(a: seq<Entry>, b: seq<Entry>)
    requires Relisted(a, b)
    ensures FileCount(a) == FileCount(b) && ByteCount(a) == ByteCount(b)
    ensures Readable(a) <==> Readable(b)
    decreases a
  {
    if a != [] {
      var i :| 0 <= i < |b| && RelistedEntry(a, b[i]) && Relisted(a[1..], b[..i] + b[i + 1..]);
      OrderIrrelevant(a[1..], b[..i] + b[i + 1..]);
      CountMiddle(b, i);
      if a[0].node.Dir? {
        OrderIrrelevant(a[0].node.entries, b[i].node.entries);
      }
    }
  }

  /** The first entry and its counterpart are dropped together or kept together. */
  lemma {:induction false} HeadRelisted(a: seq<Entry>, e: Entry)
    requires a != [] && RelistedEntry(a, e)
    requires a[0].node.Dir? ==> Relisted(Regular(a[0].node.entries), Regular(e.node.entries))
    ensures var ra, head := Regular(a), Regular([e]);
            || (head == [] && ra == Regular(a[1..]))
            || (|head| == 1 && ra != [] && RelistedEntry(ra, head[0]) && ra[1..] == Regular(a[1..]))
  {
    var ra, head := Regular(a), Regular([e]);
    assert [e][1..] == [];
    match a[0].node {
      case File(_, _) => assert ra == [a[0]] + Regular(a[1..]);
      case Dir(sub) =>
        assert ra == [Entry(a[0].name, Dir(Regular(sub)))] + Regular(a[1..]);
        assert head == [Entry(e.name, Dir(Regular(e.node.entries)))];
      case _ => assert ra == [] + Regular(a[1..]);
    }
  }

  /** The copies of two listings of one tree are again two listings of one tree. */
  lemma {:induction false} CopiesRelisted(a: seq<Entry>, b: seq<Entry>)
    requires Relisted(a, b)
    ensures Relisted(Regular(a), Regular(b))
    decreases a
  {
    if a != [] {
      var i :| 0 <= i < |b| && RelistedEntry(a, b[i]) && Relisted(a[1..], b[..i] + b[i + 1..]);
      CopiesRelisted(a[1..], b[..i] + b[i + 1..]);
      if a[0].node.Dir? {
        CopiesRelisted(a[0].node.entries, b[i].node.entries);
      }
      HeadRelisted(a, b[i]);
      CountMiddle(b, i);
      Rejoin(Regular(a), Regular(a[1..]), Regular(b[..i]), Regular([b[i]]), Regular(b[i + 1..]));
    }
  }

  lemma {:induction false} Rejoin(a: seq<Entry>, rest: seq<Entry>, before: seq<Entry>, head: seq<Entry>,
                                  after: seq<Entry>)
    requires Relisted(rest, before + after)
    requires || (head == [] && a == rest)
             || (|head| == 1 && a != [] && RelistedEntry(a, head[0]) && a[1..] == rest)
    ensures Relisted(a, before + (head + after))
  {
    if head == [] {
      assert before + (head + after) == before + after;
    } else {
      var b := before + (head + after);
      var i := |before|;
      assert b[i] == head[0] && b[..i] == before && b[i + 1..] == after;
    }
  }
}
