/** Files, the working tree and the write-back to the branch: bump every listed file, commit,
    push, and start again from the new head when the push does not go through. */
module ManifestWriteBack {
  import opened ManifestBump
  import opened Text

  const NL := '\n'
  const TRIES := 3

  /** Nothing in an image reference breaks a line. */
  ghost predicate OneLine(s: string) {
    NL !in s
  }

  // ---- one file ----

  /** The file with every line bumped; each printed line ends in a newline. */
  function BumpText(text: string, repo: string, tag: string): string
    decreases |text|
  {
    if text == "" then ""
    else
      var i := IndexOf(text, NL);
      BumpLine(text[..i], repo, tag) + [NL] + BumpText(text[if i < |text| then i + 1 else i..], repo, tag)
  }

  method RewriteFile(text: string, repo: string, tag: string) returns (out: string)
    ensures out == BumpText(text, repo, tag)
  {
    out := "";
    var at := 0;
    while at < |text|
      invariant at <= |text|
      invariant out + BumpText(text[at..], repo, tag) == BumpText(text, repo, tag)
    {
      var i := IndexOf(text[at..], NL);
      var line := RewriteLine(text[at..][..i], repo, tag);
      var next := at + i + if at + i < |text| then 1 else 0;
      StepOver(out, text, at, next, repo, tag);
      out := out + (line + [NL]);
      at := next;
    }
  }

  lemma BumpTextStep(text: string, repo: string, tag: string)
    requires text != ""
    ensures var i := IndexOf(text, NL);
      BumpText(text, repo, tag)
      == BumpLine(text[..i], repo, tag) + [NL] + BumpText(text[if i < |text| then i + 1 else i..], repo, tag)
  {
  }

  lemma StepOver(out: string, text: string, at: nat, next: nat, repo: string, tag: string)
    requires at < |text|
    requires var i := IndexOf(text[at..], NL); next == at + i + if at + i < |text| then 1 else 0
    ensures next <= |text|
    ensures out + BumpText(text[at..], repo, tag)
         == out + (BumpLine(text[at..][..IndexOf(text[at..], NL)], repo, tag) + [NL])
            + BumpText(text[next..], repo, tag)
  {
    var i := IndexOf(text[at..], NL);
    var line := BumpLine(text[at..][..i], repo, tag);
    var more := BumpText(text[next..], repo, tag);
    assert text[at..][next - at..] == text[next..];
    BumpTextStep(text[at..], repo, tag);
    Regroup(out, line + [NL], more);
  }

  lemma BumpedLineIsOneLine(line: string, repo: string, tag: string)
    requires OneLine(line) && OneLine(repo) && OneLine(tag)
    ensures OneLine(BumpLine(line, repo, tag))
  {
    OnlyTheTagChanges(line, repo, tag);
  }

  lemma {:induction false} TextAbsorbs(text: string, repo: string, t1: string, t2: string)
    requires OneLine(repo) && OneLine(t1) && StopFree(t1)
    ensures BumpText(BumpText(text, repo, t1), repo, t2) == BumpText(text, repo, t2)
    decreases |text|
  {
    if text != "" {
      var i := IndexOf(text, NL);
      var line, rest := text[..i], text[if i < |text| then i + 1 else i..];
      TextAbsorbs(rest, repo, t1, t2);
      LineAndRest(text, line, rest, repo, t1);
      LineAndRest(text, line, rest, repo, t2);
      LineAbsorbs(line, rest, repo, t1, t2);
    }
  }

  lemma LineAndRest(text: string, line: string, rest: string, repo: string, tag: string)
    requires text != ""
    requires line == text[..IndexOf(text, NL)]
    requires rest == text[if IndexOf(text, NL) < |text| then IndexOf(text, NL) + 1 else IndexOf(text, NL)..]
    ensures BumpText(text, repo, tag) == BumpLine(line, repo, tag) + [NL] + BumpText(rest, repo, tag)
  {
    BumpTextStep(text, repo, tag);
  }

  /** The first line absorbs, if what follows it does. */
  lemma LineAbsorbs(line: string, rest: string, repo: string, t1: string, t2: string)
    requires OneLine(line) && OneLine(repo) && OneLine(t1) && StopFree(t1)
    requires BumpText(BumpText(rest, repo, t1), repo, t2) == BumpText(rest, repo, t2)
    ensures BumpText(BumpLine(line, repo, t1) + [NL] + BumpText(rest, repo, t1), repo, t2)
         == BumpLine(line, repo, t2) + [NL] + BumpText(rest, repo, t2)
  {
    BumpedLineIsOneLine(line, repo, t1);
    FirstLineBumped(BumpLine(line, repo, t1), BumpText(rest, repo, t1), repo, t2);
    Absorbs(line, repo, t1, t2);
  }

  lemma FirstLineBumped(line: string, more: string, repo: string, tag: string)
    requires OneLine(line)
    ensures BumpText(line + [NL] + more, repo, tag) == BumpLine(line, repo, tag) + [NL] + BumpText(more, repo, tag)
  {
    FirstLine(line, more);
    BumpTextStep(line + [NL] + more, repo, tag);
  }

  lemma FirstLine(line: string, more: string)
    requires OneLine(line)
    ensures var t := line + [NL] + more;
      IndexOf(t, NL) == |line| && t[..|line|] == line && t[|line| + 1..] == more
  {
    var t := line + [NL] + more;
    assert t[..|line|] == line;
    IndexOfIs(t, NL, |line|);
  }

  /** A file's lines are bumped one by one, each ending in a newline afterwards, the last one too
      if it had none. */
  lemma FileMeans(line: string, more: string, repo: string, tag: string)
    requires '\n' !in line
    ensures BumpText("", repo, tag) == ""
    ensures BumpText(line + "\n" + more, repo, tag) == BumpLine(line, repo, tag) + "\n" + BumpText(more, repo, tag)
    ensures line != "" ==> BumpText(line, repo, tag) == BumpLine(line, repo, tag) + "\n"
  {
    FirstLineBumped(line, more, repo, tag);
    if line != "" {
      LastLineBumped(line, repo, tag);
    }
  }

  lemma LastLineBumped(line: string, repo: string, tag: string)
    requires OneLine(line) && line != ""
    ensures BumpText(line, repo, tag) == BumpLine(line, repo, tag) + [NL]
  {
    assert IndexOf(line, NL) == |line| by {
      assert forall k :: 0 <= k < |line| ==> line[k] in line;
    }
    BumpTextStep(line, repo, tag);
    assert line[..|line|] == line && line[|line|..] == "";
  }

  // ---- the tree ----

  type Tree = map<string, string>

  /** Every file bumped. */
  function AllBumped(tree: Tree, repo: string, tag: string): Tree {
    map p | p in tree :: BumpText(tree[p], repo, tag)
  }

  /** The listed files replaced by their new text. */
  function Patched(tree: Tree, paths: seq<string>, news: Tree): Tree
    requires tree.Keys == news.Keys
  {
    map p | p in tree :: if p in paths then news[p] else tree[p]
  }

  /** What the tree is meant to become. */
  function Bumped(tree: Tree, paths: seq<string>, repo: string, tag: string): Tree {
    Patched(tree, paths, AllBumped(tree, repo, tag))
  }

  lemma BumpedTwice(tree: Tree, paths: seq<string>, repo: string, t1: string, t2: string)
    requires OneLine(repo) && OneLine(t1) && StopFree(t1)
    ensures Bumped(Bumped(tree, paths, repo, t1), paths, repo, t2) == Bumped(tree, paths, repo, t2)
  {
    forall p | p in tree && p in paths
      ensures AllBumped(Bumped(tree, paths, repo, t1), repo, t2)[p] == AllBumped(tree, repo, t2)[p]
    {
      TextAbsorbs(tree[p], repo, t1, t2);
    }
  }

  /** The listed files whose new text differs. */
  function Differing(tree: Tree, paths: seq<string>, news: Tree): set<string>
    requires tree.Keys == news.Keys
  {
    set p | p in paths && p in tree && news[p] != tree[p]
  }

  /** The listed files a bump would alter. */
  function Stale(tree: Tree, paths: seq<string>, repo: string, tag: string): set<string> {
    Differing(tree, paths, AllBumped(tree, repo, tag))
  }

  /** One file of the tree bumped, if it is there. */
  function BumpedAt(tree: Tree, p: string, repo: string, tag: string): Tree {
    if p in tree then tree[p := BumpText(tree[p], repo, tag)] else tree
  }

  predicate StaleAt(tree: Tree, p: string, repo: string, tag: string) {
    p in tree && BumpText(tree[p], repo, tag) != tree[p]
  }

  class Workspace {
    var files: Tree
    var staged: Tree

    constructor ()
      ensures files == staged == map[]
    {
      files, staged := map[], map[];
    }

    method Checkout(tree: Tree)
      modifies this
      ensures files == staged == tree
    {
      files, staged := tree, tree;
    }

    /** One turn of the loop over the listed paths. */
    method BumpPath(p: string, repo: string, tag: string) returns (rewritten: bool)
      requires files == staged
      modifies this
      ensures files == staged == BumpedAt(old(files), p, repo, tag)
      ensures rewritten <==> StaleAt(old(files), p, repo, tag)
    {
      if p !in files {
        return false;
      }
      var text := RewriteFile(files[p], repo, tag);
      files := files[p := text];
      rewritten := files[p] != staged[p];
      if rewritten {
        staged := staged[p := files[p]];
      }
    }

    /** The body of that loop: bump the `k`th path, and count it if it differs. */
    method BumpNext(ghost head: Tree, paths: seq<string>, k: nat, changed: nat, repo: string, tag: string)
      returns (now: nat)
      requires k < |paths| && files == staged
      requires OneLine(repo) && OneLine(tag) && StopFree(tag)
      requires BumpedSoFar(head, paths, k, files, changed, repo, tag)
      modifies this
      ensures files == staged && BumpedSoFar(head, paths, k + 1, files, now, repo, tag)
    {
      OneMore(head, paths, k, files, changed, repo, tag);
      var rewritten := BumpPath(paths[k], repo, tag);
      now := changed;
      if rewritten {
        now := changed + 1;
      }
    }

    /** The loop over the listed paths. */
    method BumpEach(paths: seq<string>, repo: string, tag: string) returns (changed: nat)
      requires files == staged
      requires OneLine(repo) && OneLine(tag) && StopFree(tag)
      modifies this
      ensures files == staged && BumpedSoFar(old(files), paths, |paths|, files, changed, repo, tag)
    {
      changed := 0;
      var k := 0;
      NothingListed(files, paths, repo, tag);
      while k < |paths|
        invariant k <= |paths| && files == staged
        invariant BumpedSoFar(old(files), paths, k, files, changed, repo, tag)
      {
        changed := BumpNext(old(files), paths, k, changed, repo, tag);
        k := k + 1;
      }
    }

    /** From a clean checkout: the listed files that exist are bumped and staged, the others
        stay, and `changed` counts the files that differ, a path listed twice only once. */
    method BumpListed(paths: seq<string>, repo: string, tag: string) returns (changed: nat)
      requires files == staged
      requires OneLine(repo) && OneLine(tag) && StopFree(tag)
      modifies this
      ensures files == staged == Bumped(old(files), paths, repo, tag)
      ensures files.Keys == old(files).Keys
      ensures forall p :: p in files ==>
        files[p] == if p in paths then BumpText(old(files)[p], repo, tag) else old(files)[p]
      ensures changed == |Stale(old(files), paths, repo, tag)|
      ensures changed == 0 <==> files == old(files)
    {
      changed := BumpEach(paths, repo, tag);
      AllListed(old(files), paths, files, changed, repo, tag);
    }
  }

  /** The tree and the count after the first few paths. */
  ghost predicate Progress(head: Tree, done: seq<string>, news: Tree, files: Tree, changed: nat) {
    head.Keys == news.Keys && files == Patched(head, done, news) && changed == |Differing(head, done, news)|
  }

  /** The same after the first `k` of `paths`. */
  ghost predicate BumpedSoFar(head: Tree, paths: seq<string>, k: nat, files: Tree, changed: nat,
                              repo: string, tag: string)
  {
    k <= |paths| && Progress(head, paths[..k], AllBumped(head, repo, tag), files, changed)
  }

  lemma ProgressOneMore(head: Tree, done: seq<string>, p: string, news: Tree, files: Tree, changed: nat)
    requires Progress(head, done, news, files, changed)
    ensures Progress(head, done + [p], news, if p in head then files[p := news[p]] else files,
                     changed + if p in head && news[p] != files[p] then 1 else 0)
  {
    PatchedOneMore(head, done, p, news);
    DifferingOneMore(head, done, p, news);
  }

  lemma PatchedOneMore(head: Tree, done: seq<string>, p: string, news: Tree)
    requires head.Keys == news.Keys
    ensures var files := Patched(head, done, news);
      Patched(head, done + [p], news) == if p in head then files[p := news[p]] else files
  {
    var all := done + [p];
    assert forall q :: q in all <==> q in done || q == p;
  }

  lemma DifferingOneMore(head: Tree, done: seq<string>, p: string, news: Tree)
    requires head.Keys == news.Keys
    ensures |Differing(head, done + [p], news)| == |Differing(head, done, news)|
      + if p in head && news[p] != Patched(head, done, news)[p] then 1 else 0
  {
    var all := done + [p];
    assert forall q :: q in all <==> q in done || q == p;
    var before, after := Differing(head, done, news), Differing(head, all, news);
    if p in head && p !in done && news[p] != head[p] {
      assert after == before + {p};
    } else {
      assert after == before;
    }
  }

  lemma OneMore(head: Tree, paths: seq<string>, k: nat, files: Tree, changed: nat, repo: string, tag: string)
    requires k < |paths|
    requires OneLine(repo) && OneLine(tag) && StopFree(tag)
    requires BumpedSoFar(head, paths, k, files, changed, repo, tag)
    ensures StaleAt(files, paths[k], repo, tag) ==>
      BumpedSoFar(head, paths, k + 1, BumpedAt(files, paths[k], repo, tag), changed + 1, repo, tag)
    ensures !StaleAt(files, paths[k], repo, tag) ==>
      BumpedSoFar(head, paths, k + 1, BumpedAt(files, paths[k], repo, tag), changed, repo, tag)
  {
    var p := paths[k];
    TakeOneMore(paths, k);
    ProgressOneMore(head, paths[..k], p, AllBumped(head, repo, tag), files, changed);
    if p in head {
      TextAbsorbs(head[p], repo, tag, tag);
    }
  }

  lemma TakeOneMore(paths: seq<string>, k: nat)
    requires k < |paths|
    ensures paths[..k + 1] == paths[..k] + [paths[k]]
  {
  }

  lemma NothingListed(head: Tree, paths: seq<string>, repo: string, tag: string)
    ensures BumpedSoFar(head, paths, 0, head, 0, repo, tag)
  {
    assert paths[..0] == [];
    assert Stale(head, [], repo, tag) == {};
  }

  lemma AllListed(head: Tree, paths: seq<string>, files: Tree, changed: nat, repo: string, tag: string)
    requires BumpedSoFar(head, paths, |paths|, files, changed, repo, tag)
    ensures files == Bumped(head, paths, repo, tag)
    ensures changed == |Stale(head, paths, repo, tag)|
    ensures changed == 0 <==> files == head
  {
    assert paths[..|paths|] == paths;
    NoneDiffers(head, paths, AllBumped(head, repo, tag));
  }

  lemma NoneDiffers(head: Tree, paths: seq<string>, news: Tree)
    requires head.Keys == news.Keys
    ensures |Differing(head, paths, news)| == 0 <==> Patched(head, paths, news) == head
  {
    var stale := Differing(head, paths, news);
    if stale == {} {
      assert forall p :: p in head && p in paths ==> p !in stale;
    } else {
      var p :| p in stale;
      assert Patched(head, paths, news)[p] != head[p];
    }
  }

  // ---- the branch ----

  datatype Commit = Commit(tree: Tree, ours: bool)

  /** How the push answers when nobody pushed in between: it lands and says so, it lands but
      the reply is lost, or it never arrives. */
  datatype Reply = Landed | LandedUnseen | Lost

  /** What the environment does during one try. */
  datatype Try = Try(before: seq<Tree>, fetched: bool, between: seq<Tree>, reply: Reply)

  function Foreign(trees: seq<Tree>): (commits: seq<Commit>)
    ensures |commits| == |trees| && forall i :: 0 <= i < |trees| ==> commits[i] == Commit(trees[i], false)
  {
    seq(|trees|, i requires 0 <= i < |trees| => Commit(trees[i], false))
  }

  /** A push is accepted only on top of the commit it was built on. */
  function AfterPush(log: seq<Commit>, base: nat, tree: Tree, reply: Reply): seq<Commit> {
    if base == |log| && reply != Lost then log + [Commit(tree, true)] else log
  }

  class Remote {
    var log: seq<Commit>

    constructor (root: Tree)
      ensures log == [Commit(root, false)]
    {
      log := [Commit(root, false)];
    }

    function Head(): Tree
      requires log != []
      reads this
    {
      log[|log| - 1].tree
    }

    /** Somebody else's pushes. */
    method Others(trees: seq<Tree>)
      modifies this
      ensures log == old(log) + Foreign(trees)
    {
      log := log + Foreign(trees);
    }

    method Push(base: nat, tree: Tree, reply: Reply) returns (ok: bool)
      modifies this
      ensures log == AfterPush(old(log), base, tree, reply)
      ensures log == if base == old(|log|) && reply != Lost then old(log) + [Commit(tree, true)] else old(log)
      ensures ok == (base == old(|log|) && reply == Landed)
    {
      if base == |log| && reply != Lost {
        log := log + [Commit(tree, true)];
        return reply == Landed;
      }
      ok := false;
    }
  }

  /** `c`, if ours, is `parent` bumped, and alters it. */
  ghost predicate Follows(parent: Commit, c: Commit, paths: seq<string>, repo: string, tag: string) {
    c.ours ==> c.tree == Bumped(parent.tree, paths, repo, tag) && c.tree != parent.tree
  }

  /** The commit at `k`, if ours, is its parent bumped, and alters it. */
  ghost predicate IsBump(log: seq<Commit>, k: nat, paths: seq<string>, repo: string, tag: string)
    requires 0 < k < |log|
  {
    Follows(log[k - 1], log[k], paths, repo, tag)
  }

  /** So is every commit from position `from` on. */
  ghost predicate OursAreBumps(log: seq<Commit>, from: nat, paths: seq<string>, repo: string, tag: string)
    requires 0 < from
  {
    forall k :: from <= k < |log| ==> IsBump(log, k, paths, repo, tag)
  }

  ghost predicate Sound(log: seq<Commit>, from: nat, paths: seq<string>, repo: string, tag: string) {
    0 < from <= |log| && OursAreBumps(log, from, paths, repo, tag)
  }

  lemma IsBumpStays(log: seq<Commit>, more: seq<Commit>, k: nat, paths: seq<string>, repo: string, tag: string)
    requires 0 < k < |log| && IsBump(log, k, paths, repo, tag)
    ensures IsBump(log + more, k, paths, repo, tag)
  {
    assert (log + more)[k] == log[k] && (log + more)[k - 1] == log[k - 1];
  }

  ghost predicate CanBeNext(log: seq<Commit>, c: Commit, paths: seq<string>, repo: string, tag: string) {
    log != [] && Follows(log[|log| - 1], c, paths, repo, tag)
  }

  lemma OneCommitMore(log: seq<Commit>, c: Commit, from: nat, paths: seq<string>, repo: string, tag: string)
    requires Sound(log, from, paths, repo, tag)
    requires CanBeNext(log, c, paths, repo, tag)
    ensures Sound(log + [c], from, paths, repo, tag)
  {
    forall k | from <= k < |log + [c]| ensures IsBump(log + [c], k, paths, repo, tag) {
      if k < |log| {
        IsBumpStays(log, [c], k, paths, repo, tag);
      } else {
        LastIsBump(log, c, paths, repo, tag);
      }
    }
  }

  lemma LastIsBump(log: seq<Commit>, c: Commit, paths: seq<string>, repo: string, tag: string)
    requires CanBeNext(log, c, paths, repo, tag)
    ensures IsBump(log + [c], |log|, paths, repo, tag)
  {
    assert (log + [c])[|log|] == c && (log + [c])[|log| - 1] == log[|log| - 1];
  }

  lemma OthersKeep(log: seq<Commit>, trees: seq<Tree>, from: nat, paths: seq<string>, repo: string, tag: string)
    requires Sound(log, from, paths, repo, tag)
    ensures Sound(log + Foreign(trees), from, paths, repo, tag)
  {
    var more := log + Foreign(trees);
    forall k | from <= k < |more| ensures IsBump(more, k, paths, repo, tag) {
      if k < |log| {
        IsBumpStays(log, Foreign(trees), k, paths, repo, tag);
      }
    }
  }

  ghost predicate UpToDate(tree: Tree, paths: seq<string>, repo: string, tag: string) {
    Bumped(tree, paths, repo, tag) == tree
  }

  /** Some commit in `lo..` carries the new tag. */
  ghost predicate Reached(log: seq<Commit>, lo: nat, paths: seq<string>, repo: string, tag: string) {
    exists k :: lo <= k < |log| && UpToDate(log[k].tree, paths, repo, tag)
  }

  /** The bump of `head`, committed and pushed. */
  ghost predicate CommitIsBump(head: Tree, tree: Tree, paths: seq<string>, repo: string, tag: string) {
    tree == Bumped(head, paths, repo, tag) && tree != head && UpToDate(tree, paths, repo, tag)
  }

  // ---- what a series of tries comes to ----

  /** The head of `log` already carries the tag, or the push is first and is confirmed. */
  ghost predicate HeadSucceeds(log: seq<Commit>, paths: seq<string>, repo: string, tag: string, t: Try) {
    log != [] && (UpToDate(log[|log| - 1].tree, paths, repo, tag) || (t.between == [] && t.reply == Landed))
  }

  /** The branch after a try that fetched `log`. */
  ghost function AfterHead(log: seq<Commit>, paths: seq<string>, repo: string, tag: string, t: Try): seq<Commit>
    requires log != []
  {
    var head := log[|log| - 1].tree;
    if UpToDate(head, paths, repo, tag) then log + Foreign(t.between)
    else AfterPush(log + Foreign(t.between), |log|, Bumped(head, paths, repo, tag), t.reply)
  }

  /** A try succeeds when it can fetch and its head succeeds. */
  ghost predicate Succeeds(log: seq<Commit>, paths: seq<string>, repo: string, tag: string, t: Try) {
    t.fetched && HeadSucceeds(log + Foreign(t.before), paths, repo, tag, t)
  }

  ghost function AfterTry(log: seq<Commit>, paths: seq<string>, repo: string, tag: string, t: Try): (after: seq<Commit>)
    requires log != []
    ensures after != []
  {
    var now := log + Foreign(t.before);
    if t.fetched then AfterHead(now, paths, repo, tag, t) else now
  }

  /** Some try succeeds, the ones before it having failed. */
  ghost predicate SomeSucceeds(log: seq<Commit>, paths: seq<string>, repo: string, tag: string, tries: seq<Try>)
    requires log != []
    decreases |tries|
  {
    && tries != []
    && (Succeeds(log, paths, repo, tag, tries[0])
        || SomeSucceeds(AfterTry(log, paths, repo, tag, tries[0]), paths, repo, tag, tries[1..]))
  }

  /** The branch after the tries up to the first that succeeds. */
  ghost function AfterTries(log: seq<Commit>, paths: seq<string>, repo: string, tag: string, tries: seq<Try>)
    : seq<Commit>
    requires log != []
    decreases |tries|
  {
    if tries == [] then log
    else
      var after := AfterTry(log, paths, repo, tag, tries[0]);
      if Succeeds(log, paths, repo, tag, tries[0]) then after
      else AfterTries(after, paths, repo, tag, tries[1..])
  }

  lemma NextTry(log: seq<Commit>, paths: seq<string>, repo: string, tag: string, tries: seq<Try>, n: nat)
    requires log != [] && n < |tries|
    ensures var after := AfterTry(log, paths, repo, tag, tries[n]);
      if Succeeds(log, paths, repo, tag, tries[n])
      then SomeSucceeds(log, paths, repo, tag, tries[n..]) && AfterTries(log, paths, repo, tag, tries[n..]) == after
      else
        && (SomeSucceeds(log, paths, repo, tag, tries[n..]) <==> SomeSucceeds(after, paths, repo, tag, tries[n + 1..]))
        && AfterTries(log, paths, repo, tag, tries[n..]) == AfterTries(after, paths, repo, tag, tries[n + 1..])
  {
    assert tries[n..][0] == tries[n] && tries[n..][1..] == tries[n + 1..];
  }

  method Bump(work: Workspace, head: Tree, paths: seq<string>, repo: string, tag: string) returns (changed: nat)
    requires OneLine(repo) && OneLine(tag) && StopFree(tag)
    modifies work
    ensures changed == 0 <==> UpToDate(head, paths, repo, tag)
    ensures changed != 0 ==> CommitIsBump(head, work.files, paths, repo, tag)
  {
    work.Checkout(head);
    changed := work.BumpListed(paths, repo, tag);
    BumpedTwice(head, paths, repo, tag, tag);
  }

  /** One try, with what other writers do before the fetch and between fetch and push. */
  method Attempt(remote: Remote, ghost from: nat, work: Workspace,
                 paths: seq<string>, repo: string, tag: string, t: Try)
    returns (ok: bool)
    requires Sound(remote.log, from, paths, repo, tag)
    requires OneLine(repo) && OneLine(tag) && StopFree(tag)
    modifies remote, work
    ensures old(remote.log) <= remote.log
    ensures Sound(remote.log, from, paths, repo, tag)
    ensures ok ==> t.fetched && Reached(remote.log, |old(remote.log)| - 1, paths, repo, tag)
    ensures !ok ==> t.fetched ==> t.between != [] || t.reply != Landed
    ensures ok <==> Succeeds(old(remote.log), paths, repo, tag, t)
    ensures remote.log == AfterTry(old(remote.log), paths, repo, tag, t)
  {
    OthersKeep(remote.log, t.before, from, paths, repo, tag);
    remote.Others(t.before);
    if !t.fetched {
      return false;
    }
    ok := FromHead(remote, from, work, paths, repo, tag, t);
    if ok {
      ReachedLower(remote.log, old(|remote.log|) + |t.before| - 1, old(|remote.log|) - 1, paths, repo, tag);
    }
  }

  lemma ReachedLower(log: seq<Commit>, lo: nat, lower: nat, paths: seq<string>, repo: string, tag: string)
    requires lower <= lo && Reached(log, lo, paths, repo, tag)
    ensures Reached(log, lower, paths, repo, tag)
  {
    var k :| lo <= k < |log| && UpToDate(log[k].tree, paths, repo, tag);
  }

  /** The rest of a try, once the head has been fetched. */
  method FromHead(remote: Remote, ghost from: nat, work: Workspace,
                 paths: seq<string>, repo: string, tag: string, t: Try)
    returns (ok: bool)
    requires Sound(remote.log, from, paths, repo, tag)
    requires OneLine(repo) && OneLine(tag) && StopFree(tag)
    modifies remote, work
    ensures old(remote.log) <= remote.log
    ensures Sound(remote.log, from, paths, repo, tag)
    ensures ok ==> Reached(remote.log, |old(remote.log)| - 1, paths, repo, tag)
    ensures !ok ==> t.between != [] || t.reply != Landed
    ensures ok <==> HeadSucceeds(old(remote.log), paths, repo, tag, t)
    ensures remote.log == AfterHead(old(remote.log), paths, repo, tag, t)
  {
    var head := remote.Head();
    var changed := Bump(work, head, paths, repo, tag);
    if changed == 0 {
      NothingToDo(remote.log, from, t.between, paths, repo, tag);
      remote.Others(t.between);
      return true;
    }
    ok := Publish(remote, from, work.files, paths, repo, tag, t);
  }

  /** A head that carries the tag stays in the log, whoever pushes next. */
  lemma NothingToDo(log: seq<Commit>, from: nat, trees: seq<Tree>, paths: seq<string>, repo: string, tag: string)
    requires Sound(log, from, paths, repo, tag) && UpToDate(log[|log| - 1].tree, paths, repo, tag)
    ensures log <= log + Foreign(trees)
    ensures Sound(log + Foreign(trees), from, paths, repo, tag)
    ensures Reached(log + Foreign(trees), |log| - 1, paths, repo, tag)
  {
    OthersKeep(log, trees, from, paths, repo, tag);
    ReachedAt(log, |log| - 1, |log| - 1, paths, repo, tag);
  }

  lemma ReachedAt(log: seq<Commit>, k: nat, lo: nat, paths: seq<string>, repo: string, tag: string)
    requires lo <= k < |log| && UpToDate(log[k].tree, paths, repo, tag)
    ensures forall more: seq<Commit> :: Reached(log + more, lo, paths, repo, tag)
  {
    forall more: seq<Commit> ensures Reached(log + more, lo, paths, repo, tag) {
      assert (log + more)[k] == log[k];
    }
  }

  ghost predicate ReadyToPush(log: seq<Commit>, from: nat, tree: Tree, paths: seq<string>, repo: string, tag: string) {
    && Sound(log, from, paths, repo, tag)
    && CommitIsBump(log[|log| - 1].tree, tree, paths, repo, tag)
  }

  /** Push the commit made on the remote head, which may have moved since. */
  method Publish(remote: Remote, ghost from: nat, tree: Tree, paths: seq<string>, repo: string, tag: string, t: Try)
    returns (ok: bool)
    requires ReadyToPush(remote.log, from, tree, paths, repo, tag)
    modifies remote
    ensures old(remote.log) <= remote.log
    ensures Sound(remote.log, from, paths, repo, tag)
    ensures ok ==> Reached(remote.log, |old(remote.log)| - 1, paths, repo, tag)
    ensures ok <==> t.between == [] && t.reply == Landed
    ensures remote.log == AfterPush(old(remote.log) + Foreign(t.between), |old(remote.log)|, tree, t.reply)
  {
    ghost var after := AfterPush(remote.log + Foreign(t.between), |remote.log|, tree, t.reply);
    PublishKeeps(remote.log, from, tree, paths, repo, tag, t);
    var base := |remote.log|;
    remote.Others(t.between);
    ok := remote.Push(base, tree, t.reply);
    assert remote.log == after;
  }

  lemma PublishKeeps(log: seq<Commit>, from: nat, tree: Tree, paths: seq<string>, repo: string, tag: string, t: Try)
    requires ReadyToPush(log, from, tree, paths, repo, tag)
    ensures var after := AfterPush(log + Foreign(t.between), |log|, tree, t.reply);
      && log <= after
      && Sound(after, from, paths, repo, tag)
      && (t.between == [] && t.reply == Landed ==> Reached(after, |log| - 1, paths, repo, tag))
  {
    OthersKeep(log, t.between, from, paths, repo, tag);
    if t.between == [] && t.reply != Lost {
      var after := log + [Commit(tree, true)];
      assert log + Foreign(t.between) == log;
      OneCommitMore(log, Commit(tree, true), from, paths, repo, tag);
      ReachedAt(after, |log|, |log| - 1, paths, repo, tag);
      assert after + [] == after;
    }
  }

  /** What is settled after `n` tries, and what is left to the others. */
  ghost predicate Pending(start: seq<Commit>, log: seq<Commit>, paths: seq<string>, repo: string, tag: string,
                          tries: seq<Try>, n: nat, ok: bool)
  {
    && start != [] && log != [] && n <= |tries|
    && (ok ==> SomeSucceeds(start, paths, repo, tag, tries) && log == AfterTries(start, paths, repo, tag, tries))
    && (!ok ==>
          && (SomeSucceeds(start, paths, repo, tag, tries) <==> SomeSucceeds(log, paths, repo, tag, tries[n..]))
          && AfterTries(start, paths, repo, tag, tries) == AfterTries(log, paths, repo, tag, tries[n..]))
  }

  /** A first try that nothing disturbs is enough: the branch ends with the bump of its head, if
      that alters anything. */
  lemma CalmTrySucceeds(log: seq<Commit>, paths: seq<string>, repo: string, tag: string, tries: seq<Try>)
    requires log != [] && tries != [] && tries[0] == Try([], true, [], Landed)
    ensures SomeSucceeds(log, paths, repo, tag, tries)
    ensures var head := log[|log| - 1].tree;
      var tree := Bumped(head, paths, repo, tag);
      AfterTries(log, paths, repo, tag, tries) == if tree == head then log else log + [Commit(tree, true)]
  {
    assert Foreign([]) == [] && log + [] == log;
  }

  /** The retry loop. Whatever the network and other writers do: the branch is only extended;
      every commit made is its own parent bumped and never empty, so nobody's work is lost;
      success means that the branch carried the new tag at some point of the run. It succeeds
      if and only if some try, after those before it, fetches and then finds its head up to date
      or gets its push confirmed. */
  method WriteBack(remote: Remote, paths: seq<string>, repo: string, tag: string, tries: seq<Try>)
    returns (ok: bool)
    requires |tries| == 3 && remote.log != []
    requires OneLine(repo) && OneLine(tag) && StopFree(tag)
    modifies remote
    ensures old(remote.log) <= remote.log
    ensures OursAreBumps(remote.log, |old(remote.log)|, paths, repo, tag)
    ensures ok ==> Reached(remote.log, |old(remote.log)| - 1, paths, repo, tag)
    ensures !ok ==> forall i :: 0 <= i < 3 && tries[i].fetched ==>
      tries[i].between != [] || tries[i].reply != Landed
    ensures ok <==> SomeSucceeds(old(remote.log), paths, repo, tag, tries)
    ensures remote.log == AfterTries(old(remote.log), paths, repo, tag, tries)
  {
    ok := false;
    assert tries[0..] == tries;
    var work := new Workspace();
    var n := 0;
    while n < TRIES && !ok
      invariant n <= TRIES
      invariant old(remote.log) <= remote.log
      invariant Sound(remote.log, |old(remote.log)|, paths, repo, tag)
      invariant ok ==> Reached(remote.log, |old(remote.log)| - 1, paths, repo, tag)
      invariant !ok ==> forall i :: 0 <= i < n && tries[i].fetched ==>
        tries[i].between != [] || tries[i].reply != Landed
      invariant Pending(old(remote.log), remote.log, paths, repo, tag, tries, n, ok)
    {
      NextTry(remote.log, paths, repo, tag, tries, n);
      ok := Attempt(remote, |old(remote.log)|, work, paths, repo, tag, tries[n]);
      n := n + 1;
    }
  }

  /** Two commits of ours are never adjacent: a second one follows only when somebody else
      moved the branch off the new tag in between, even after an unconfirmed push. */
  lemma NeverTwiceInARow(log: seq<Commit>, from: nat, paths: seq<string>, repo: string, tag: string, k: nat)
    requires OneLine(repo) && OneLine(tag) && StopFree(tag)
    requires 0 < from <= k && k + 1 < |log| && log[k].ours
    requires OursAreBumps(log, from, paths, repo, tag)
    ensures !log[k + 1].ours
  {
    BumpedTwice(log[k - 1].tree, paths, repo, tag, tag);
    assert IsBump(log, k, paths, repo, tag) && IsBump(log, k + 1, paths, repo, tag);
  }
}
