/** The tag list a topic is given: normalised, filtered, without repetitions. */
module HandoffTags {

  /** What Python's `strip` removes. */
  predicate IsBlank(c: char) {
    || '\U{9}' <= c <= '\U{D}' || '\U{1C}' <= c <= ' ' || c == '\U{85}' || c == '\U{A0}' || c == '\U{1680}'
    || '\U{2000}' <= c <= '\U{200A}' || c == '\U{2028}' || c == '\U{2029}' || c == '\U{202F}'
    || c == '\U{205F}' || c == '\U{3000}'
  }

  /** These 29 code points. */
  lemma BlanksAre(c: char)
    ensures IsBlank(c) <==>
      c as int in {9, 10, 11, 12, 13, 28, 29, 30, 31, 32, 133, 160, 5760,
                   8192, 8193, 8194, 8195, 8196, 8197, 8198, 8199, 8200, 8201, 8202, 8232, 8233, 8239, 8287, 12288}
  {
  }

  predicate Stripped(s: string) {
    s == [] || (!IsBlank(s[0]) && !IsBlank(s[|s| - 1]))
  }

  function Strip(s: string): (r: string)
    ensures Stripped(r)
    decreases |s|
  {
    if s != [] && IsBlank(s[0]) then Strip(s[1..])
    else if s != [] && IsBlank(s[|s| - 1]) then Strip(s[..|s| - 1])
    else s
  }

  // ---- lower case ----

  /** Every character is its own lower case. */
  ghost predicate IsLower(lower: string -> string, s: string) {
    forall i :: 0 <= i < |s| ==> lower([s[i]]) == [s[i]]
  }

  /** What is used of Unicode's lower-casing, which may change a text's length and look at a
      character's neighbours: its result is lower case, lower case stays, and it puts no
      blank at an end where there was none. */
  ghost predicate LikeUnicode(lower: string -> string) {
    && lower("_") == "_"
    && (forall s: string :: IsLower(lower, lower(s)))
    && (forall s: string :: IsLower(lower, s) ==> lower(s) == s)
    && (forall s: string :: Stripped(s) ==> Stripped(lower(s)))
  }

  type CaseMap = lower: string -> string | LikeUnicode(lower) ghost witness AsciiCaseMap()

  function AsciiLower(s: string): (r: string)
    ensures |r| == |s| && forall i :: 0 <= i < |s| ==> r[i] == if 'A' <= s[i] <= 'Z' then s[i] + 32 as char else s[i]
  {
    seq(|s|, i requires 0 <= i < |s| => if 'A' <= s[i] <= 'Z' then s[i] + 32 as char else s[i])
  }

  ghost function AsciiCaseMap(): (lower: string -> string)
    ensures LikeUnicode(lower)
  {
    AsciiIsLikeUnicode();
    AsciiLower
  }

  lemma AsciiOfOne(s: string, i: nat)
    requires i < |s|
    ensures AsciiLower([s[i]]) == [AsciiLower(s)[i]]
  {
  }

  lemma AsciiLowers(s: string)
    ensures IsLower(AsciiLower, AsciiLower(s)) && (IsLower(AsciiLower, s) ==> AsciiLower(s) == s)
    ensures Stripped(s) ==> Stripped(AsciiLower(s))
  {
    var r := AsciiLower(s);
    forall i | 0 <= i < |s| ensures AsciiLower([r[i]]) == [r[i]] && AsciiLower([s[i]]) == [r[i]] {
      AsciiOfOne(r, i);
      AsciiOfOne(s, i);
    }
    if IsLower(AsciiLower, s) {
      assert forall i :: 0 <= i < |s| ==> [r[i]][0] == [s[i]][0];
    }
  }

  lemma AsciiIsLikeUnicode()
    ensures LikeUnicode(AsciiLower)
  {
    forall s: string
      ensures IsLower(AsciiLower, AsciiLower(s)) && (IsLower(AsciiLower, s) ==> AsciiLower(s) == s)
      ensures Stripped(s) ==> Stripped(AsciiLower(s))
    {
      AsciiLowers(s);
    }
    assert AsciiLower("_") == "_";
  }

  /** Blank and hyphen to underscore. */
  function TagChar(c: char): char {
    if c == ' ' || c == '-' then '_' else c
  }

  function Normalised(lower: CaseMap, raw: string): (s: string)
    ensures var t := lower(Strip(raw)); |s| == |t| && forall i :: 0 <= i < |s| ==> s[i] == TagChar(t[i])
  {
    var t := lower(Strip(raw));
    seq(|t|, i requires 0 <= i < |t| => TagChar(t[i]))
  }

  predicate Kept(s: string) {
    s != "" && !("error" <= s)
  }

  /** The tags of `raws` that survive, in order, repetitions included. */
  function Surviving(lower: CaseMap, raws: seq<string>): seq<string> {
    if raws == [] then []
    else
      var s := Normalised(lower, raws[|raws| - 1]);
      Surviving(lower, raws[..|raws| - 1]) + if Kept(s) then [s] else []
  }

  /** The first of each, in order. */
  function Firsts(tags: seq<string>): (r: seq<string>)
    ensures forall t :: t in r <==> t in tags
    ensures NoRepeats(r)
  {
    if tags == [] then []
    else
      var r, t := Firsts(tags[..|tags| - 1]), tags[|tags| - 1];
      assert tags == tags[..|tags| - 1] + [t];
      if t in r then r else r + [t]
  }

  predicate NoRepeats(tags: seq<string>) {
    forall i, j :: 0 <= i < j < |tags| ==> tags[i] != tags[j]
  }

  function Clean(lower: CaseMap, raws: seq<string>): seq<string> {
    Firsts(Surviving(lower, raws))
  }

  /** First pass: normalise, filter, append. */
  method Collect(lower: CaseMap, raws: seq<string>) returns (all: seq<string>)
    ensures all == Surviving(lower, raws)
  {
    all := [];
    var i := 0;
    while i < |raws|
      invariant i <= |raws| && all == Surviving(lower, raws[..i])
    {
      assert raws[..i + 1][..i] == raws[..i];
      var s := Normalised(lower, raws[i]);
      if Kept(s) {
        all := all + [s];
      }
      i := i + 1;
    }
    assert raws[..i] == raws;
  }

  /** Second pass: the keys of a dictionary, in order of insertion. */
  method Unrepeat(all: seq<string>) returns (keys: seq<string>)
    ensures keys == Firsts(all)
  {
    keys := [];
    var i := 0;
    while i < |all|
      invariant i <= |all| && keys == Firsts(all[..i])
    {
      assert all[..i + 1][..i] == all[..i];
      if all[i] !in keys {
        keys := keys + [all[i]];
      }
      i := i + 1;
    }
    assert all[..i] == all;
  }

  method CleanTags(lower: CaseMap, raws: seq<string>) returns (cleaned: seq<string>)
    ensures cleaned == Clean(lower, raws)
    ensures CleanedFrom(lower, raws, cleaned)
  {
    var all := Collect(lower, raws);
    cleaned := Unrepeat(all);
    CleanMeans(lower, raws);
  }

  // ---- what cleaning achieves ----

  predicate IsClean(lower: CaseMap, s: string) {
    Kept(s) && Normalised(lower, s) == s
  }

  lemma NormalisedTwice(lower: CaseMap, raw: string)
    ensures Normalised(lower, Normalised(lower, raw)) == Normalised(lower, raw)
  {
    var t, s := lower(Strip(raw)), Normalised(lower, raw);
    assert Stripped(t) && forall c :: !IsBlank(c) ==> !IsBlank(TagChar(c));
    assert Stripped(s);
    assert IsLower(lower, t) && IsLower(lower, s);
    assert forall c :: TagChar(TagChar(c)) == TagChar(c);
  }

  ghost predicate GivenAt(lower: CaseMap, raws: seq<string>, s: string, k: int) {
    0 <= k < |raws| && Normalised(lower, raws[k]) == s
  }

  ghost predicate Given(lower: CaseMap, raws: seq<string>, s: string) {
    exists k: int :: GivenAt(lower, raws, s, k)
  }

  lemma {:induction false} SurvivesIff(lower: CaseMap, raws: seq<string>, s: string)
    ensures s in Surviving(lower, raws) <==> Kept(s) && Given(lower, raws, s)
  {
    if raws != [] {
      var n := |raws| - 1;
      SurvivesIff(lower, raws[..n], s);
      assert forall k: int :: k != n ==> GivenAt(lower, raws, s, k) == GivenAt(lower, raws[..n], s, k);
      assert GivenAt(lower, raws, s, n) == (Normalised(lower, raws[n]) == s);
      assert !GivenAt(lower, raws[..n], s, n);
    }
  }

  lemma {:induction false} SurvivingAreClean(lower: CaseMap, raws: seq<string>)
    ensures forall s :: s in Surviving(lower, raws) ==> IsClean(lower, s)
  {
    if raws != [] {
      var n := |raws| - 1;
      SurvivingAreClean(lower, raws[..n]);
      NormalisedTwice(lower, raws[n]);
    }
  }

  lemma {:induction false} CleanSurvive(lower: CaseMap, tags: seq<string>)
    requires forall s :: s in tags ==> IsClean(lower, s)
    ensures Surviving(lower, tags) == tags
  {
    if tags != [] {
      var n := |tags| - 1;
      assert tags[n] in tags && tags == tags[..n] + [tags[n]];
      CleanSurvive(lower, tags[..n]);
    }
  }

  lemma {:induction false} FirstsOfDistinct(tags: seq<string>)
    requires NoRepeats(tags)
    ensures Firsts(tags) == tags
  {
    if tags != [] {
      var n := |tags| - 1;
      FirstsOfDistinct(tags[..n]);
      assert tags == tags[..n] + [tags[n]];
    }
  }

  /** `s` is `t` with every blank and hyphen made an underscore. */
  predicate Underscored(t: string, s: string) {
    |s| == |t| && forall i :: 0 <= i < |t| ==> s[i] == if t[i] == ' ' || t[i] == '-' then '_' else t[i]
  }

  lemma NormalisedIs(lower: CaseMap, raw: string, s: string)
    ensures Normalised(lower, raw) == s <==> Underscored(lower(Strip(raw)), s)
  {
  }

  /** Stripping cuts blanks off both ends, and all of them. */
  lemma {:induction false} StripMeans(s: string) returns (i: nat, j: nat)
    ensures i <= j <= |s| && Strip(s) == s[i..j]
    ensures forall k :: 0 <= k < i || j <= k < |s| ==> IsBlank(s[k])
    ensures i < j ==> !IsBlank(s[i]) && !IsBlank(s[j - 1])
    decreases |s|
  {
    if s != [] && IsBlank(s[0]) {
      i, j := StripMeans(s[1..]);
      SliceOfRest(s, i, j);
      i, j := i + 1, j + 1;
    } else if s != [] && IsBlank(s[|s| - 1]) {
      i, j := StripMeans(s[..|s| - 1]);
    } else {
      i, j := 0, |s|;
    }
  }

  lemma SliceOfRest(s: string, i: nat, j: nat)
    requires s != [] && i <= j <= |s| - 1
    ensures s[1..][i..j] == s[i + 1..j + 1]
    ensures forall k :: 0 <= k < |s| - 1 ==> s[1..][k] == s[k + 1]
  {
  }

  /** Exactly the texts that some tag given becomes, stripped, in lower case and with underscores
      for blanks and hyphens, if it is not empty and does not begin with "error"; each once. */
  ghost predicate CleanedFrom(lower: CaseMap, raws: seq<string>, cleaned: seq<string>) {
    && NoRepeats(cleaned)
    && forall s :: s in cleaned <==>
         && s != "" && !("error" <= s)
         && exists k :: 0 <= k < |raws| && Underscored(lower(Strip(raws[k])), s)
  }

  lemma CleanMeans(lower: CaseMap, raws: seq<string>)
    ensures CleanedFrom(lower, raws, Clean(lower, raws))
  {
    forall s ensures s in Surviving(lower, raws) <==> Kept(s) && Given(lower, raws, s) {
      SurvivesIff(lower, raws, s);
    }
    forall s
      ensures Given(lower, raws, s) <==> exists k :: 0 <= k < |raws| && Underscored(lower(Strip(raws[k])), s)
    {
      forall k | 0 <= k < |raws| ensures GivenAt(lower, raws, s, k) <==> Underscored(lower(Strip(raws[k])), s) {
        NormalisedIs(lower, raws[k], s);
      }
    }
  }

  /** Cleaning a cleaned list changes nothing. */
  lemma CleanTwice(lower: CaseMap, raws: seq<string>)
    ensures Clean(lower, Clean(lower, raws)) == Clean(lower, raws)
  {
    SurvivingAreClean(lower, raws);
    CleanSurvive(lower, Clean(lower, raws));
    FirstsOfDistinct(Clean(lower, raws));
  }

  /** Position of the first raw text that normalises to `s`, or their number. */
  ghost function FirstUse(lower: CaseMap, raws: seq<string>, s: string): (k: nat)
    ensures k <= |raws|
    ensures k < |raws| <==> Given(lower, raws, s)
    ensures k < |raws| ==> GivenAt(lower, raws, s, k)
    ensures forall i: int :: i < k ==> !GivenAt(lower, raws, s, i)
  {
    if raws == [] then 0
    else
      var n := |raws| - 1;
      var k := FirstUse(lower, raws[..n], s);
      assert forall i: int :: i != n ==> GivenAt(lower, raws, s, i) == GivenAt(lower, raws[..n], s, i);
      assert GivenAt(lower, raws, s, n) == (Normalised(lower, raws[n]) == s);
      if k < n then k else if Normalised(lower, raws[n]) == s then n else n + 1
  }

  lemma FirstsStep(tags: seq<string>, s: string)
    ensures Firsts(tags + [s]) == if s in Firsts(tags) then Firsts(tags) else Firsts(tags) + [s]
  {
    assert (tags + [s])[..|tags|] == tags;
  }

  lemma CleanStep(lower: CaseMap, raws: seq<string>)
    requires raws != []
    ensures var before, s := Clean(lower, raws[..|raws| - 1]), Normalised(lower, raws[|raws| - 1]);
      Clean(lower, raws) == if Kept(s) && s !in before then before + [s] else before
  {
    var front, s := Surviving(lower, raws[..|raws| - 1]), Normalised(lower, raws[|raws| - 1]);
    FirstsStep(front, s);
    assert front + [] == front;
  }

  /** The first use wins: the tags come in the order in which they are first given. */
  lemma {:induction false} FirstsWin(lower: CaseMap, raws: seq<string>, i: nat, j: nat)
    requires i < j < |Clean(lower, raws)|
    ensures FirstUse(lower, raws, Clean(lower, raws)[i]) < FirstUse(lower, raws, Clean(lower, raws)[j]) < |raws|
  {
    var n := |raws| - 1;
    var before := Clean(lower, raws[..n]);
    CleanStep(lower, raws);
    FirstUseInFront(lower, raws, i);
    if j < |before| {
      FirstsWin(lower, raws[..n], i, j);
      FirstUseInFront(lower, raws, j);
    } else {
      SurvivesIff(lower, raws[..n], Clean(lower, raws)[j]);
    }
  }

  lemma FirstUseInFront(lower: CaseMap, raws: seq<string>, i: nat)
    requires raws != [] && i < |Clean(lower, raws[..|raws| - 1])|
    ensures var t := Clean(lower, raws[..|raws| - 1])[i];
      FirstUse(lower, raws, t) == FirstUse(lower, raws[..|raws| - 1], t) < |raws| - 1
  {
    var t := Clean(lower, raws[..|raws| - 1])[i];
    assert t in Clean(lower, raws[..|raws| - 1]);
    SurvivesIff(lower, raws[..|raws| - 1], t);
  }
}
