/** The CI runner's manifest bump: point every `image: <repo>:` line of the listed files at a
    new tag, commit, and push, starting over when somebody else got there first. */
module ManifestBump {

  // ---- the image reference ----

  /** Length of the text before the last ':', or of all of it. */
  function LastColon(ref: string): (k: nat)
    ensures k <= |ref| && (k < |ref| ==> ref[k] == ':' && ':' !in ref[k + 1..]) && (k == |ref| ==> ':' !in ref)
  {
    if ref == [] then 0
    else if ref[|ref| - 1] == ':' then |ref| - 1
    else
      var k := LastColon(ref[..|ref| - 1]);
      assert ref == ref[..|ref| - 1] + [ref[|ref| - 1]];
      if k == |ref| - 1 then |ref| else k
  }

  /** The reference with its last colon and what follows removed. */
  function RepoOf(ref: string): string {
    ref[..LastColon(ref)]
  }

  /** What follows the last colon; all of a reference without one. */
  function TagOf(ref: string): string {
    if LastColon(ref) < |ref| then ref[LastColon(ref) + 1..] else ref
  }

  /** The two parts rejoin to the reference exactly when it has a colon at all, whether or
      not a registry port adds another one; the tag never contains a colon then. */
  lemma SplitRejoins(ref: string)
    ensures RepoOf(ref) + ":" + TagOf(ref) == ref <==> ':' in ref
    ensures ':' in ref ==> ':' !in TagOf(ref)
  {
    if ':' !in ref {
      assert |RepoOf(ref) + ":" + TagOf(ref)| == 2 * |ref| + 1;
    }
  }

  // ---- one line ----

  predicate OccursAt(s: string, p: string, k: int) {
    0 <= k && k + |p| <= |s| && s[k..k + |p|] == p
  }

  ghost predicate Occurs(s: string, p: string) {
    exists k: int :: OccursAt(s, p, k)
  }

  /** Position of the first occurrence of `p`, or the length of `s`. */
  function Find(s: string, p: string): (i: nat)
    requires p != []
    ensures i <= |s|
    ensures i < |s| ==> OccursAt(s, p, i)
    ensures forall k: int :: k < i ==> !OccursAt(s, p, k)
    ensures i == |s| <==> !Occurs(s, p)
  {
    if |s| < |p| then |s|
    else if OccursAt(s, p, 0) then 0
    else
      var i := Find(s[1..], p);
      assert forall k: int :: k > 0 ==> OccursAt(s, p, k) == OccursAt(s[1..], p, k - 1) by {
        OccursInTail(s, p);
      }
      i + 1
  }

  lemma OccursInTail(s: string, p: string)
    requires 0 < |p| <= |s|
    ensures forall k: int :: k > 0 ==> OccursAt(s, p, k) == OccursAt(s[1..], p, k - 1)
  {
    forall k: int | k > 0 ensures OccursAt(s, p, k) == OccursAt(s[1..], p, k - 1) {
      if k + |p| <= |s| {
        assert s[1..][k - 1..k - 1 + |p|] == s[k..k + |p|];
      }
    }
  }

  predicate IsStop(c: char) {
    c == ' ' || c == '\t' || c == '#'
  }

  predicate StopFree(s: string) {
    forall k :: 0 <= k < |s| ==> !IsStop(s[k])
  }

  predicate StopsAtOnce(s: string) {
    s == [] || IsStop(s[0])
  }

  /** Length of the tag at the start of `rest`: up to a blank, a tab or a comment. */
  function TagLength(rest: string): (j: nat)
    ensures j <= |rest| && StopFree(rest[..j]) && StopsAtOnce(rest[j..])
  {
    if StopsAtOnce(rest) then 0 else 1 + TagLength(rest[1..])
  }

  lemma {:induction false} TagLengthIs(tag: string, tail: string)
    requires StopFree(tag) && StopsAtOnce(tail)
    ensures TagLength(tag + tail) == |tag| && (tag + tail)[|tag|..] == tail
  {
    if tag == [] {
      assert tag + tail == tail;
    } else {
      assert (tag + tail)[1..] == tag[1..] + tail;
      TagLengthIs(tag[1..], tail);
    }
  }

  function Prefix(repo: string): (p: string)
    ensures p != []
  {
    "image: " + repo + ":"
  }

  /** The line with the first prefix and the tag after it replaced. */
  function Replaced(line: string, prefix: string, newref: string): string
    requires prefix != []
  {
    var i := Find(line, prefix);
    if i == |line| then line
    else
      var rest := line[i + |prefix|..];
      line[..i] + newref + rest[TagLength(rest)..]
  }

  function BumpLine(line: string, repo: string, tag: string): string {
    Replaced(line, Prefix(repo), Prefix(repo) + tag)
  }

  /** The scan over the old tag, one character at a time. */
  method SkipTag(rest: string) returns (j: nat)
    ensures j == TagLength(rest)
  {
    j := 0;
    while j < |rest|
      invariant j <= |rest| && forall k :: 0 <= k < j ==> !IsStop(rest[k])
    {
      if IsStop(rest[j]) {
        break;
      }
      j := j + 1;
    }
    TagLengthIs(rest[..j], rest[j..]);
    Halves(rest, j);
  }

  /** An image reference to `repo` begins at `k`. */
  predicate ImageAt(line: string, repo: string, k: int) {
    0 <= k <= |line| && "image: " + repo + ":" <= line[k..]
  }

  /** The line up to its first image reference to `repo`, the tag it has, and what follows. */
  ghost predicate IsImageLine(line: string, repo: string, lead: string, before: string, tail: string) {
    && line == lead + ("image: " + repo + ":") + (before + tail)
    && (forall k: int :: k < |lead| ==> !ImageAt(line, repo, k))
    && ' ' !in before && '\t' !in before && '#' !in before
    && (tail == "" || tail[0] == ' ' || tail[0] == '\t' || tail[0] == '#')
  }

  /** `out` is the line with its first image reference to `repo` pointed at `tag`; a line without
      one is as it was. */
  ghost predicate Repointed(line: string, repo: string, tag: string, out: string) {
    && (forall lead, before, tail :: IsImageLine(line, repo, lead, before, tail) ==>
          out == lead + ("image: " + repo + ":") + (tag + tail))
    && ((forall k: int :: !ImageAt(line, repo, k)) ==> out == line)
  }

  method RewriteLine(line: string, repo: string, tag: string) returns (out: string)
    ensures out == BumpLine(line, repo, tag) && Repointed(line, repo, tag, out)
  {
    ImageLineBumped(line, repo, tag);
    out := ReplaceTag(line, Prefix(repo), Prefix(repo) + tag);
  }

  method ReplaceTag(line: string, prefix: string, newref: string) returns (out: string)
    requires prefix != []
    ensures out == Replaced(line, prefix, newref)
  {
    var i := Find(line, prefix);
    if i == |line| {
      return line;
    }
    var lead, rest := CutAround(line, i, |prefix|);
    var j := SkipTag(rest);
    out := lead + newref + rest[j..];
  }

  /** The two `substr` calls: what is in front of and behind the `n` characters at `i`. */
  method CutAround(line: string, i: nat, n: nat) returns (lead: string, rest: string)
    requires i + n <= |line|
    ensures lead == line[..i] && rest == line[i + n..]
  {
    lead, rest := line[..i], line[i + n..];
  }

  // ---- a line taken apart ----

  /** `line` is `lead`, the first prefix, a tag and a tail. */
  ghost predicate Cuts(line: string, p: string, lead: string, tag: string, tail: string)
    requires p != []
  {
    line == lead + p + (tag + tail) && Find(line, p) == |lead| && StopFree(tag) && StopsAtOnce(tail)
  }

  lemma CutOf(line: string, p: string) returns (lead: string, tag: string, tail: string)
    requires p != [] && Occurs(line, p)
    ensures Cuts(line, p, lead, tag, tail)
  {
    var i := Find(line, p);
    var rest := line[i + |p|..];
    lead, tag, tail := line[..i], rest[..TagLength(rest)], rest[TagLength(rest)..];
    Halves(line, i);
    Halves(line, i + |p|);
    Halves(line[..i + |p|], i);
    assert rest == tag + tail;
  }

  lemma Halves(s: string, i: nat)
    requires i <= |s|
    ensures s == s[..i] + s[i..]
    ensures forall k: nat :: k <= i ==> s[..i][k..] == s[k..i] && s[..i][..k] == s[..k]
  {
  }

  /** Bumping changes the tag after the first prefix and nothing else. */
  lemma BumpCut(line: string, repo: string, tag: string, lead: string, before: string, tail: string)
    requires Cuts(line, Prefix(repo), lead, before, tail)
    ensures BumpLine(line, repo, tag) == lead + Prefix(repo) + (tag + tail)
  {
    var p := Prefix(repo);
    DropFront(lead + p, before + tail);
    DropFront(lead, p + (before + tail));
    Regroup(lead, p, before + tail);
    TagLengthIs(before, tail);
    assert |line| > |lead|;
    Regroup4(lead, p, tag, tail);
  }

  lemma DropFront(a: string, b: string)
    ensures (a + b)[..|a|] == a && (a + b)[|a|..] == b
  {
  }

  lemma Regroup(a: string, b: string, c: string)
    ensures a + b + c == a + (b + c)
  {
  }

  lemma Regroup4(a: string, b: string, c: string, d: string)
    ensures a + (b + c) + d == a + b + (c + d)
  {
  }

  /** The first occurrence stays first when what follows it changes. */
  lemma FindStays(lead: string, p: string, rest: string, more: string)
    requires p != [] && Find(lead + p + rest, p) == |lead|
    ensures Find(lead + p + more, p) == |lead|
  {
    var line, out := lead + p + rest, lead + p + more;
    forall k: int | k <= |lead| ensures OccursAt(out, p, k) == OccursAt(line, p, k) {
      if 0 <= k {
        DropFront(lead + p, rest);
        DropFront(lead + p, more);
        SliceOfPrefix(line, |lead| + |p|, k, k + |p|);
        SliceOfPrefix(out, |lead| + |p|, k, k + |p|);
      }
    }
    assert OccursAt(line, p, |lead|);
  }

  lemma SliceOfPrefix(s: string, n: nat, i: nat, j: nat)
    requires i <= j <= n <= |s|
    ensures s[i..j] == s[..n][i..j]
  {
  }

  /** The bumped line is cut at the same place, with the new tag. */
  lemma CutStays(line: string, p: string, lead: string, before: string, tail: string, tag: string)
    requires p != [] && Cuts(line, p, lead, before, tail) && StopFree(tag)
    ensures Cuts(lead + p + (tag + tail), p, lead, tag, tail)
  {
    FindStays(lead, p, before + tail, tag + tail);
  }

  /** A line without the prefix is left alone; one with it changes only in its tag. */
  lemma OnlyTheTagChanges(line: string, repo: string, tag: string)
    ensures !Occurs(line, Prefix(repo)) ==> BumpLine(line, repo, tag) == line
    ensures Occurs(line, Prefix(repo)) ==>
      exists lead, before, tail ::
        && Cuts(line, Prefix(repo), lead, before, tail)
        && BumpLine(line, repo, tag) == lead + Prefix(repo) + (tag + tail)
  {
    if Occurs(line, Prefix(repo)) {
      var lead, before, tail := CutOf(line, Prefix(repo));
      BumpCut(line, repo, tag, lead, before, tail);
    }
  }

  lemma ImageIsPrefix(line: string, repo: string, k: int)
    ensures ImageAt(line, repo, k) <==> OccursAt(line, Prefix(repo), k)
  {
    var p := Prefix(repo);
    if 0 <= k <= |line| && |p| <= |line| - k {
      assert line[k..][..|p|] == line[k..k + |p|];
    }
  }

  lemma ImageLineIsCut(line: string, repo: string, lead: string, before: string, tail: string)
    ensures IsImageLine(line, repo, lead, before, tail) <==> Cuts(line, Prefix(repo), lead, before, tail)
  {
    var p := Prefix(repo);
    forall k: int ensures ImageAt(line, repo, k) <==> OccursAt(line, p, k) {
      ImageIsPrefix(line, repo, k);
    }
    if IsImageLine(line, repo, lead, before, tail) {
      DropFront(lead + p, before + tail);
      SliceOfPrefix(line, |lead| + |p|, |lead|, |lead| + |p|);
      DropFront(lead, p);
      assert OccursAt(line, p, |lead|);
    }
  }

  /** Every line falls into one of two kinds. One with an image reference to `repo` gets the new
      tag in place of the old one, which ends at the first blank, tab or '#'; any other stays. */
  lemma ImageLineBumped(line: string, repo: string, tag: string)
    ensures Repointed(line, repo, tag, BumpLine(line, repo, tag))
    ensures (exists k: int :: ImageAt(line, repo, k)) <==>
      exists lead, before, tail :: IsImageLine(line, repo, lead, before, tail)
  {
    var p := Prefix(repo);
    forall lead, before, tail | IsImageLine(line, repo, lead, before, tail)
      ensures BumpLine(line, repo, tag) == lead + ("image: " + repo + ":") + (tag + tail)
      ensures ImageAt(line, repo, |lead|)
    {
      ImageLineIsCut(line, repo, lead, before, tail);
      BumpCut(line, repo, tag, lead, before, tail);
      ImageIsPrefix(line, repo, |lead|);
    }
    forall k: int ensures ImageAt(line, repo, k) <==> OccursAt(line, p, k) {
      ImageIsPrefix(line, repo, k);
    }
    if Occurs(line, p) {
      var lead, before, tail := CutOf(line, p);
      ImageLineIsCut(line, repo, lead, before, tail);
    }
  }

  // ---- bumping twice ----

  lemma Absorbs(line: string, repo: string, t1: string, t2: string)
    requires StopFree(t1)
    ensures BumpLine(BumpLine(line, repo, t1), repo, t2) == BumpLine(line, repo, t2)
  {
    var p := Prefix(repo);
    if Occurs(line, p) {
      var lead, before, tail := CutOf(line, p);
      BumpCut(line, repo, t1, lead, before, tail);
      BumpCut(line, repo, t2, lead, before, tail);
      CutStays(line, p, lead, before, tail, t1);
      BumpCut(lead + p + (t1 + tail), repo, t2, lead, t1, tail);
    }
  }

  /** Bumping to `t1` and then to any other tag equals bumping to the other tag alone, on
      every line, exactly when `t1` holds no blank, tab or '#'. */
  lemma AbsorbsIff(repo: string, t1: string)
    ensures StopFree(t1) <==>
      forall line: string, t2: string :: BumpLine(BumpLine(line, repo, t1), repo, t2) == BumpLine(line, repo, t2)
  {
    if StopFree(t1) {
      forall line: string, t2: string
        ensures BumpLine(BumpLine(line, repo, t1), repo, t2) == BumpLine(line, repo, t2)
      {
        Absorbs(line, repo, t1, t2);
      }
    } else {
      var p := Prefix(repo);
      var tag, tail := t1[..TagLength(t1)], t1[TagLength(t1)..];
      assert t1 == tag + tail;
      BareCut(p, [], []);
      BareCut(p, tag, tail);
      BumpCut(p, repo, t1, [], [], []);
      BumpCut(p, repo, "", [], [], []);
      assert [] + p + (t1 + []) == p + t1;
      BumpCut(p + t1, repo, "", [], tag, tail);
      assert BumpLine(BumpLine(p, repo, t1), repo, "") != BumpLine(p, repo, "");
    }
  }

  /** The bare prefix followed by anything is cut with an empty lead. */
  lemma BareCut(p: string, tag: string, tail: string)
    requires p != [] && StopFree(tag) && StopsAtOnce(tail)
    ensures Cuts(p + (tag + tail), p, [], tag, tail)
  {
    DropFront(p, tag + tail);
    assert [] + p == p;
    assert OccursAt(p + (tag + tail), p, 0);
  }
}
