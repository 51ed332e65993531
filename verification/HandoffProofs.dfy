/** What every run of the store keeps: the tag lists mirror the edges, and no topic under the
    policy carries a content the validator has not accepted. */
module HandoffProofs {
  import opened Options
  import opened HandoffTags
  import opened HandoffStore

  datatype Op =
    | OpUpsert(id: TopicId, texts: Texts, now: int, verdict: Verdict)
    | OpDelete(id: TopicId)
    | OpSetTags(id: TopicId, raws: seq<string>, linked: bool)

  function Do(s: State, p: Settings, op: Op): State {
    match op
    case OpUpsert(id, texts, now, v) => Upsert(s, p, id, texts, now, v)
    case OpDelete(id) => Delete(s, id)
    case OpSetTags(id, raws, linked) => SetTags(s, p.lower, id, raws, linked)
  }

  /** A sequential run. */
  function Run(s: State, p: Settings, ops: seq<Op>): State {
    if ops == [] then s else Do(Run(s, p, ops[..|ops| - 1]), p, ops[|ops| - 1])
  }

  // ---- the mirror ----

  /** The topic's tags, each once, are exactly the ends of its edges. */
  ghost predicate Mirrors(s: State, id: TopicId)
    requires id in s.topics
  {
    && NoRepeats(s.topics[id].tags)
    && (forall t :: t in s.topics[id].tags <==> (id, t) in s.edges)
  }

  ghost predicate TagMirror(s: State) {
    && (forall id :: id in s.topics ==> Mirrors(s, id))
    && (forall e :: e in s.edges ==> e.0 in s.topics)
  }

  /** Whether the second statement of `op`, if it is needed, went through. */
  predicate Completed(s: State, lower: CaseMap, op: Op) {
    op.OpSetTags? && op.id in s.topics ==> op.linked || Clean(lower, op.raws) == []
  }

  lemma UnlinkedMeans(edges: set<(TopicId, string)>, id: TopicId, i: TopicId, t: string)
    ensures (i, t) in Unlinked(edges, id) <==> (i, t) in edges && i != id
  {
  }

  lemma LinksMean(id: TopicId, tags: seq<string>, i: TopicId, t: string)
    ensures (i, t) in Links(id, tags) <==> i == id && t in tags
  {
  }

  /** An operation that does not touch the topic's tags or edges leaves its mirror alone. */
  lemma MirrorStays(s: State, s': State, id: TopicId)
    requires id in s.topics && id in s'.topics && s'.topics[id].tags == s.topics[id].tags
    requires forall t :: (id, t) in s'.edges <==> (id, t) in s.edges
    ensures Mirrors(s', id) <==> Mirrors(s, id)
  {
  }

  lemma UpsertMirrors(s: State, p: Settings, id: TopicId, texts: Texts, now: int, v: Verdict)
    requires TagMirror(s)
    ensures TagMirror(Upsert(s, p, id, texts, now, v))
  {
    var s' := Upsert(s, p, id, texts, now, v);
    forall i | i in s'.topics ensures Mirrors(s', i) {
      if i in s.topics {
        MirrorStays(s, s', i);
      }
    }
  }

  lemma DeleteMirrors(s: State, id: TopicId)
    requires TagMirror(s)
    ensures TagMirror(Delete(s, id))
  {
    var s' := Delete(s, id);
    forall i | i in s'.topics ensures Mirrors(s', i) {
      forall t ensures (i, t) in s'.edges <==> (i, t) in s.edges {
        UnlinkedMeans(s.edges, id, i, t);
      }
      MirrorStays(s, s', i);
    }
  }

  lemma SetTagsEdges(s: State, lower: CaseMap, id: TopicId, raws: seq<string>, linked: bool, i: TopicId, t: string)
    requires id in s.topics
    ensures (i, t) in SetTags(s, lower, id, raws, linked).edges <==>
      if i == id then linked && t in Clean(lower, raws) else (i, t) in s.edges
  {
    UnlinkedMeans(s.edges, id, i, t);
    LinksMean(id, Clean(lower, raws), i, t);
  }

  /** Setting tags keeps the mirror if and only if its second statement goes through or is
      not needed. */
  lemma SetTagsMirrorsIff(s: State, lower: CaseMap, id: TopicId, raws: seq<string>, linked: bool)
    requires TagMirror(s)
    ensures TagMirror(SetTags(s, lower, id, raws, linked)) <==> Completed(s, lower, OpSetTags(id, raws, linked))
  {
    if id in s.topics {
      var s', c := SetTags(s, lower, id, raws, linked), Clean(lower, raws);
      forall i, t ensures (i, t) in s'.edges <==> if i == id then linked && t in c else (i, t) in s.edges {
        SetTagsEdges(s, lower, id, raws, linked, i, t);
      }
      assert s'.topics[id].tags == c;
      if linked || c == [] {
        forall i | i in s'.topics ensures Mirrors(s', i) {
          if i != id {
            MirrorStays(s, s', i);
          }
        }
        forall e | e in s'.edges ensures e.0 in s'.topics {
          assert e == (e.0, e.1);
        }
      } else {
        assert c[0] in c && (id, c[0]) !in s'.edges;
        assert !Mirrors(s', id);
      }
    }
  }

  /** A tag update puts its topic right, whatever state it was in, if and only if its second
      statement goes through or is not needed. */
  lemma SetTagsHealsIff(s: State, lower: CaseMap, id: TopicId, raws: seq<string>, linked: bool)
    requires id in s.topics
    ensures Mirrors(SetTags(s, lower, id, raws, linked), id) <==> linked || Clean(lower, raws) == []
  {
    var s', c := SetTags(s, lower, id, raws, linked), Clean(lower, raws);
    forall t ensures (id, t) in s'.edges <==> linked && t in c {
      SetTagsEdges(s, lower, id, raws, linked, id, t);
    }
    assert s'.topics[id].tags == c;
    assert c != [] ==> c[0] in c;
  }

  /** Whether the topic's last tag update since it was made lost its second statement. */
  predicate LinksWereLost(s: State, p: Settings, ops: seq<Op>, id: TopicId) {
    if ops == [] then false
    else
      var front, last := ops[..|ops| - 1], ops[|ops| - 1];
      if last.OpDelete? && last.id == id then false
      else if last.OpSetTags? && last.id == id && id in Run(s, p, front).topics
      then !(last.linked || Clean(p.lower, last.raws) == [])
      else LinksWereLost(s, p, front, id)
  }

  /** No edge starts at a topic that is not there. */
  ghost predicate NoDangling(s: State) {
    forall e :: e in s.edges ==> e.0 in s.topics
  }

  lemma StepLeavesNoDangling(s: State, p: Settings, op: Op)
    requires NoDangling(s)
    ensures NoDangling(Do(s, p, op))
  {
    if op.OpSetTags? && op.id in s.topics {
      forall e | e in Do(s, p, op).edges ensures e.0 in Do(s, p, op).topics {
        assert e == (e.0, e.1);
        SetTagsEdges(s, p.lower, op.id, op.raws, op.linked, e.0, e.1);
      }
    } else if op.OpDelete? {
      forall e | e in Do(s, p, op).edges ensures e.0 in Do(s, p, op).topics {
        assert e == (e.0, e.1);
        UnlinkedMeans(s.edges, op.id, e.0, e.1);
      }
    }
  }

  lemma {:induction false} RunLeavesNoDangling(s: State, p: Settings, ops: seq<Op>)
    requires NoDangling(s)
    ensures NoDangling(Run(s, p, ops))
  {
    if ops != [] {
      RunLeavesNoDangling(s, p, ops[..|ops| - 1]);
      StepLeavesNoDangling(Run(s, p, ops[..|ops| - 1]), p, ops[|ops| - 1]);
    }
  }

  /** What an operation on another topic, or an upsert, means for this one's tags and edges. */
  lemma OtherOpKeepsMirror(s: State, p: Settings, op: Op, id: TopicId)
    requires NoDangling(s) && id in Do(s, p, op).topics
    requires op.OpUpsert? || op.id != id
    ensures id in s.topics ==> (Mirrors(Do(s, p, op), id) <==> Mirrors(s, id))
    ensures id !in s.topics ==> Mirrors(Do(s, p, op), id)
  {
    var s' := Do(s, p, op);
    forall t ensures (id, t) in s'.edges <==> (id, t) in s.edges {
      if op.OpDelete? {
        UnlinkedMeans(s.edges, op.id, id, t);
      } else if op.OpSetTags? && op.id in s.topics {
        SetTagsEdges(s, p.lower, op.id, op.raws, op.linked, id, t);
      }
    }
    if id in s.topics {
      MirrorStays(s, s', id);
    }
  }

  /** Over every sequential run, topic by topic: the tags mirror the edges if and only if the
      topic's last tag update since it was made did not lose its second statement. */
  lemma {:induction false} MirrorsIff(s: State, p: Settings, ops: seq<Op>, id: TopicId)
    requires TagMirror(s) && id in Run(s, p, ops).topics
    ensures Mirrors(Run(s, p, ops), id) <==> !LinksWereLost(s, p, ops, id)
  {
    if ops != [] {
      var front, last := ops[..|ops| - 1], ops[|ops| - 1];
      var now := Run(s, p, front);
      RunLeavesNoDangling(s, p, front);
      if id in now.topics {
        MirrorsIff(s, p, front, id);
      } else {
        NeverLostUnmade(s, p, front, id);
      }
      if last.OpUpsert? || last.id != id {
        OtherOpKeepsMirror(now, p, last, id);
      } else if last.OpSetTags? {
        SetTagsHealsIff(now, p.lower, id, last.raws, last.linked);
      }
    }
  }

  /** A topic that is not there has no update to account for. */
  lemma {:induction false} NeverLostUnmade(s: State, p: Settings, ops: seq<Op>, id: TopicId)
    requires id !in Run(s, p, ops).topics
    ensures !LinksWereLost(s, p, ops, id)
  {
    if ops != [] {
      var front, last := ops[..|ops| - 1], ops[|ops| - 1];
      if id !in Run(s, p, front).topics {
        NeverLostUnmade(s, p, front, id);
      } else {
        assert last.OpDelete? && last.id == id;
      }
    }
  }

  /** In every sequential run whose tag updates complete, every topic's tag list is free of
      repetitions and equals the ends of its HAS_TAG edges. */
  lemma {:induction false} MirrorAlways(s: State, p: Settings, ops: seq<Op>)
    requires TagMirror(s)
    requires forall k :: 0 <= k < |ops| ==> Completed(Run(s, p, ops[..k]), p.lower, ops[k])
    ensures TagMirror(Run(s, p, ops))
  {
    if ops != [] {
      var n := |ops| - 1;
      assert forall k :: 0 <= k < n ==> ops[..n][..k] == ops[..k];
      MirrorAlways(s, p, ops[..n]);
      var now := Run(s, p, ops[..n]);
      match ops[n] {
        case OpUpsert(id, texts, t, v) => UpsertMirrors(now, p, id, texts, t, v);
        case OpDelete(id) => DeleteMirrors(now, id);
        case OpSetTags(id, raws, linked) => SetTagsMirrorsIff(now, p.lower, id, raws, linked);
      }
    }
  }

  // ---- what an upsert lets through ----

  /** An upsert is refused if and only if it gives a content, the policy is on, and either the
      topic's time does not compare with the cutoff, or the validator does not accept the content
      and the topic is new or not made before the cutoff. A refused upsert changes nothing; after
      any other the topic is there, with the content given or else the one it had. */
  lemma RefusedIff(s: State, p: Settings, id: TopicId, texts: Texts, now: int, v: Verdict)
    ensures var s' := Upsert(s, p, id, texts, now, v);
      if && texts.content.Some? && p.enforce != "off"
         && ((id in s.topics && Clash(s.topics[id].createdAt, p.cutoff))
             || (v != Accepted && (id !in s.topics || NotBefore(s.topics[id].createdAt, p.cutoff))))
      then s' == s
      else
        && id in s'.topics && s'.topics[id].updatedAt == Aware(now)
        && s'.topics[id].texts.content == (if texts.content.Some? then texts.content
                                           else if id in s.topics then s.topics[id].texts.content else None)
  {
  }

  // ---- topics do not matter to one another ----

  /** The operations on one topic, in order. */
  function About(ops: seq<Op>, id: TopicId): seq<Op> {
    if ops == [] then []
    else About(ops[..|ops| - 1], id) + if ops[|ops| - 1].id == id then [ops[|ops| - 1]] else []
  }

  ghost predicate SameTopic(s: State, s': State, id: TopicId) {
    (id in s.topics <==> id in s'.topics) && (id in s.topics ==> s.topics[id] == s'.topics[id])
  }

  lemma StepOnTopic(s: State, s': State, p: Settings, op: Op, id: TopicId)
    requires SameTopic(s, s', id)
    ensures SameTopic(Do(s, p, op), if op.id == id then Do(s', p, op) else s', id)
  {
  }

  lemma RunSnoc(s: State, p: Settings, ops: seq<Op>, op: Op)
    ensures Run(s, p, ops + [op]) == Do(Run(s, p, ops), p, op)
  {
    assert (ops + [op])[..|ops|] == ops;
  }

  /** Whatever else a run does, a topic ends as if only the operations on it had been made. */
  lemma {:induction false} TopicsAlone(s: State, p: Settings, ops: seq<Op>, id: TopicId)
    ensures SameTopic(Run(s, p, ops), Run(s, p, About(ops, id)), id)
  {
    if ops != [] {
      var front, op := ops[..|ops| - 1], ops[|ops| - 1];
      TopicsAlone(s, p, front, id);
      StepOnTopic(Run(s, p, front), Run(s, p, About(front, id)), p, op, id);
      if op.id == id {
        RunSnoc(s, p, About(front, id), op);
      } else {
        assert About(front, id) + [] == About(front, id);
      }
    }
  }

  // ---- what one upsert touches ----

  predicate Carried(given: Option<string>, before: Option<string>, after: Option<string>) {
    after == if given.Some? then given else before
  }

  /** An upsert that is let through touches one topic and no edge; that topic keeps its time
      of creation and its tags, takes over the texts given and keeps the others. Writing the
      same texts again changes no text. */
  lemma UpsertTouches(s: State, p: Settings, id: TopicId, texts: Texts, now: int, v: Verdict)
    requires !Decide(p, s.topics, id, texts.content, v).Refused?
    ensures var s' := Upsert(s, p, id, texts, now, v);
      && id in s'.topics && s'.edges == s.edges && s'.topics[id].updatedAt == Aware(now)
      && (forall i :: i != id ==>
            (i in s'.topics <==> i in s.topics) && (i in s.topics ==> s'.topics[i] == s.topics[i]))
      && (id in s.topics ==>
            s'.topics[id].createdAt == s.topics[id].createdAt && s'.topics[id].tags == s.topics[id].tags)
      && (id !in s.topics ==> s'.topics[id].createdAt == Aware(now) && s'.topics[id].tags == [])
    ensures var was := if id in s.topics then s.topics[id].texts else NO_TEXTS;
      var after := Upsert(s, p, id, texts, now, v).topics[id].texts;
      && Carried(texts.title, was.title, after.title) && Carried(texts.summary, was.summary, after.summary)
      && Carried(texts.content, was.content, after.content) && Carried(texts.category, was.category, after.category)
      && Carried(texts.unit, was.unit, after.unit)
      && Overlay(texts, after) == after
  {
  }

  // ---- the policy ----

  /** The content, if any, is one the validator has let through. */
  ghost predicate Vetted(t: Topic, accepted: set<string>) {
    t.texts.content.Some? ==> t.texts.content.value in accepted
  }

  /** Every topic the policy binds has no content or a vetted one. */
  ghost predicate PolicyHolds(s: State, cutoff: Stamp) {
    forall id :: id in s.topics && !Exempt(s.topics[id].createdAt, cutoff) ==> Vetted(s.topics[id], s.accepted)
  }

  lemma UpsertKeepsPolicy(s: State, p: Settings, id: TopicId, texts: Texts, now: int, v: Verdict)
    requires p.enforce != "off" && PolicyHolds(s, p.cutoff)
    ensures PolicyHolds(Upsert(s, p, id, texts, now, v), p.cutoff)
  {
    var s' := Upsert(s, p, id, texts, now, v);
    var d := Decide(p, s.topics, id, texts.content, v);
    if !d.Refused? && !Exempt(s'.topics[id].createdAt, p.cutoff) {
      BoundTopicIsVetted(s, p, id, texts, now, v);
    }
  }

  lemma BoundTopicIsVetted(s: State, p: Settings, id: TopicId, texts: Texts, now: int, v: Verdict)
    requires p.enforce != "off" && PolicyHolds(s, p.cutoff)
    requires var d := Decide(p, s.topics, id, texts.content, v);
      !d.Refused? && !Exempt(Upserted(s.topics, id, texts, now).createdAt, p.cutoff)
    ensures Vetted(Upserted(s.topics, id, texts, now),
                   s.accepted + LetThrough(Decide(p, s.topics, id, texts.content, v), texts.content))
  {
    if texts.content.None? && id in s.topics {
      assert Vetted(s.topics[id], s.accepted);
    }
  }

  lemma OtherOpsKeepPolicy(s: State, p: Settings, op: Op)
    requires PolicyHolds(s, p.cutoff) && !op.OpUpsert?
    ensures PolicyHolds(Do(s, p, op), p.cutoff)
  {
  }

  /** While the policy is enforced, every run keeps it, whatever the validator answers and
      whenever it is silent: also for a topic made without content and filled in later, or
      deleted and made again. */
  lemma {:induction false} PolicyAlways(s: State, p: Settings, ops: seq<Op>)
    requires p.enforce != "off" && PolicyHolds(s, p.cutoff)
    ensures PolicyHolds(Run(s, p, ops), p.cutoff)
  {
    if ops != [] {
      var n := |ops| - 1;
      PolicyAlways(s, p, ops[..n]);
      var now := Run(s, p, ops[..n]);
      match ops[n] {
        case OpUpsert(id, texts, t, v) => UpsertKeepsPolicy(now, p, id, texts, t, v);
        case _ => OtherOpsKeepPolicy(now, p, ops[n]);
      }
    }
  }

  /** The policy holds when the empty store has gone through `ops`. */
  ghost predicate HoldsAfter(p: Settings, ops: seq<Op>) {
    PolicyHolds(Run(State(map[], {}, {}), p, ops), p.cutoff)
  }

  /** Every run keeps the policy if and only if it is not switched off, or the cutoff cannot
      be read, which exempts every topic. */
  lemma PolicyAlwaysIff(p: Settings)
    ensures (forall ops :: HoldsAfter(p, ops)) <==> p.enforce != "off" || p.cutoff.Unreadable?
  {
    var empty := State(map[], {}, {});
    if p.enforce != "off" {
      forall ops ensures HoldsAfter(p, ops) {
        PolicyAlways(empty, p, ops);
      }
    } else if p.cutoff.Unreadable? {
    } else {
      var op := OpUpsert("t", NO_TEXTS.(content := Some("x")), p.cutoff.seconds, Rejected);
      assert [op][..|[op]| - 1] == [];
      var s := Run(empty, p, [op]);
      assert Run(empty, p, []) == empty;
      assert s == Do(empty, p, op);
      assert "t" in s.topics && !Vetted(s.topics["t"], s.accepted);
      assert !HoldsAfter(p, [op]);
    }
  }

  /** The validator accepted `c` when the `k`th operation offered it. */
  ghost predicate AcceptedAt(ops: seq<Op>, k: int, c: string) {
    0 <= k < |ops| && ops[k].OpUpsert? && ops[k].verdict == Accepted && ops[k].texts.content == Some(c)
  }

  ghost predicate AcceptedIn(ops: seq<Op>, c: string) {
    exists k: int :: AcceptedAt(ops, k, c)
  }

  lemma {:induction false} AcceptedOnlyByValidator(s: State, p: Settings, ops: seq<Op>, c: string)
    requires c in Run(s, p, ops).accepted
    ensures c in s.accepted || AcceptedIn(ops, c)
  {
    if ops != [] {
      var n := |ops| - 1;
      if c in Run(s, p, ops[..n]).accepted {
        AcceptedOnlyByValidator(s, p, ops[..n], c);
        if AcceptedIn(ops[..n], c) {
          var k :| AcceptedAt(ops[..n], k, c);
          assert AcceptedAt(ops, k, c);
        }
      } else {
        assert AcceptedAt(ops, n, c);
      }
    }
  }

  /** The validator accepted `c` when an upsert of this very topic offered it. */
  ghost predicate AcceptedFor(ops: seq<Op>, id: TopicId, c: string) {
    exists k: int :: AcceptedAt(ops, k, c) && ops[k].id == id
  }

  ghost predicate BoundContent(s: State, cutoff: Stamp, id: TopicId, c: string) {
    id in s.topics && !Exempt(s.topics[id].createdAt, cutoff) && s.topics[id].texts.content == Some(c)
  }

  /** A bound topic's content comes from before the step, or was accepted in it for this topic. */
  lemma BoundContentStep(s: State, p: Settings, op: Op, id: TopicId, c: string)
    requires p.enforce != "off" && BoundContent(Do(s, p, op), p.cutoff, id, c)
    ensures BoundContent(s, p.cutoff, id, c) || (AcceptedAt([op], 0, c) && op.id == id)
  {
  }

  /** From the empty store: the content of a topic the policy binds was accepted by the
      validator when it was offered for this very topic. */
  lemma {:induction false} BoundContentWasAccepted(p: Settings, ops: seq<Op>, id: TopicId)
    requires p.enforce != "off"
    ensures var s := Run(State(map[], {}, {}), p, ops);
      id in s.topics && !Exempt(s.topics[id].createdAt, p.cutoff) && s.topics[id].texts.content.Some?
      ==> AcceptedFor(ops, id, s.topics[id].texts.content.value)
  {
    var empty := State(map[], {}, {});
    var s := Run(empty, p, ops);
    if id in s.topics && !Exempt(s.topics[id].createdAt, p.cutoff) && s.topics[id].texts.content.Some? {
      var n, c := |ops| - 1, s.topics[id].texts.content.value;
      var before := Run(empty, p, ops[..n]);
      BoundContentStep(before, p, ops[n], id, c);
      if BoundContent(before, p.cutoff, id, c) {
        BoundContentWasAccepted(p, ops[..n], id);
        var k: int :| AcceptedAt(ops[..n], k, c) && ops[..n][k].id == id;
        assert AcceptedAt(ops, k, c);
      } else {
        assert AcceptedAt(ops, n, c);
      }
    }
  }

  // ---- the witness for lost links ----

  /** A topic whose tag update lost its second statement: tags and edges part, until the next
      update that completes. */
  lemma LostLinksPart(p: Settings) returns (ops: seq<Op>)
    ensures ops == [OpUpsert("t", NO_TEXTS, 0, Accepted), OpSetTags("t", ["_"], false)]
    ensures var s := Run(State(map[], {}, {}), p, ops);
      "t" in s.topics && s.topics["t"].tags == ["_"] && s.edges == {} && !Mirrors(s, "t")
  {
    var tag := "_";
    UnderscoreIsClean(p.lower);
    var empty := State(map[], {}, {});
    var make, tags := OpUpsert("t", NO_TEXTS, 0, Accepted), OpSetTags("t", [tag], false);
    ops := [make, tags];
    assert ops[..1] == [make] && [make][..0] == [];
    assert Run(empty, p, []) == empty;
    var made := Run(empty, p, [make]);
    assert made == Do(empty, p, make) && made.edges == {} && "t" in made.topics;
    var s := Run(empty, p, ops);
    assert s == Do(made, p, tags);
    forall e | e in s.edges ensures false {
      assert e == (e.0, e.1);
      SetTagsEdges(made, p.lower, "t", [tag], false, e.0, e.1);
    }
    assert s.topics["t"].tags[0] in s.topics["t"].tags;
  }

  lemma UnderscoreStays(lower: CaseMap)
    ensures Normalised(lower, "_") == "_"
  {
    assert Strip("_") == "_" && lower("_") == "_";
  }

  lemma UnderscoreIsClean(lower: CaseMap)
    ensures Clean(lower, ["_"]) == ["_"]
  {
    UnderscoreStays(lower);
    CleanStep(lower, ["_"]);
    assert ["_"][..0] == [] && Clean(lower, []) == [];
  }
}
