/** The Memgraph store of topics: the write policy in front of every upsert, and the tag list
    kept beside the HAS_TAG edges. */
module HandoffStore {
  import opened Options
  import opened HandoffTags

  type TopicId = string

  /** A stored or configured time: not readable as ISO 8601, or readable, with or without a
      zone. Comparing a time with a zone and one without throws. */
  datatype Stamp = Unreadable | Naive(seconds: int) | Aware(seconds: int)

  datatype Texts = Texts(title: Option<string>, summary: Option<string>, content: Option<string>,
                         category: Option<string>, unit: Option<string>)

  const NO_TEXTS := Texts(None, None, None, None, None)

  datatype Topic = Topic(createdAt: Stamp, updatedAt: Stamp, texts: Texts, tags: seq<string>)

  /** The validator's answer to one content. */
  datatype Verdict = Accepted | Rejected | NoAnswer

  /** The deployment's settings, and the lower-casing of the language runtime. */
  datatype Settings = Settings(enforce: string, cutoff: Stamp, lower: CaseMap)

  datatype Refusal = NotValid | ValidatorSilent | TimesDoNotCompare

  datatype Decision = NotChecked | Passed | Refused(why: Refusal)

  datatype Outcome = Created(at: Stamp) | Updated(at: Stamp) | UpsertRefused(why: Refusal)

  datatype TagOutcome = TagsSet(tags: seq<string>) | NoTopic | LinksLost

  /** The store, and every content the validator has let through so far. */
  datatype State = State(topics: map<TopicId, Topic>, edges: set<(TopicId, string)>, accepted: set<string>)

  // ---- the policy ----

  /** A topic the policy does not bind: made before the cutoff, or at no readable time. */
  predicate Exempt(createdAt: Stamp, cutoff: Stamp) {
    || createdAt.Unreadable? || cutoff.Unreadable?
    || (createdAt.Aware? == cutoff.Aware? && createdAt.seconds < cutoff.seconds)
  }

  predicate Comparable(a: Stamp, b: Stamp) {
    a.Unreadable? || b.Unreadable? || a.Aware? == b.Aware?
  }

  /** Two readable times, of which only one has a zone. */
  predicate Clash(made: Stamp, cutoff: Stamp) {
    || (made.Naive? && cutoff.Aware?)
    || (made.Aware? && cutoff.Naive?)
  }

  /** Two readable times of one kind, the first not before the second. */
  predicate NotBefore(made: Stamp, cutoff: Stamp) {
    || (made.Naive? && cutoff.Naive? && made.seconds >= cutoff.seconds)
    || (made.Aware? && cutoff.Aware? && made.seconds >= cutoff.seconds)
  }

  function Decide(p: Settings, topics: map<TopicId, Topic>, id: TopicId, content: Option<string>, v: Verdict)
    : Decision
  {
    if content.None? || p.enforce == "off" then NotChecked
    else if id in topics && !Comparable(topics[id].createdAt, p.cutoff) then Refused(TimesDoNotCompare)
    else if id in topics && Exempt(topics[id].createdAt, p.cutoff) then NotChecked
    else
      match v
      case Accepted => Passed
      case Rejected => Refused(NotValid)
      case NoAnswer => Refused(ValidatorSilent)
  }

  // ---- the operations on values ----

  function OrElse<T>(o: Option<T>, otherwise: Option<T>): Option<T> {
    if o.Some? then o else otherwise
  }

  /** The texts given replace those that were there; the others stay. */
  function Overlay(new_: Texts, was: Texts): Texts {
    Texts(OrElse(new_.title, was.title), OrElse(new_.summary, was.summary), OrElse(new_.content, was.content),
          OrElse(new_.category, was.category), OrElse(new_.unit, was.unit))
  }

  function Upserted(topics: map<TopicId, Topic>, id: TopicId, texts: Texts, now: int): Topic {
    var t := if id in topics then topics[id] else Topic(Aware(now), Aware(now), NO_TEXTS, []);
    t.(updatedAt := Aware(now), texts := Overlay(texts, t.texts))
  }

  /** What the validator has just let through. */
  function LetThrough(d: Decision, content: Option<string>): set<string> {
    if d.Passed? && content.Some? then {content.value} else {}
  }

  function Upsert(s: State, p: Settings, id: TopicId, texts: Texts, now: int, v: Verdict): State {
    var d := Decide(p, s.topics, id, texts.content, v);
    if d.Refused? then s
    else
      s.(topics := s.topics[id := Upserted(s.topics, id, texts, now)],
         accepted := s.accepted + LetThrough(d, texts.content))
  }

  /** DETACH DELETE: the topic and its edges. */
  function Delete(s: State, id: TopicId): State {
    if id in s.topics then s.(topics := s.topics - {id}, edges := Unlinked(s.edges, id)) else s
  }

  function Unlinked(edges: set<(TopicId, string)>, id: TopicId): set<(TopicId, string)> {
    set e | e in edges && e.0 != id
  }

  function Links(id: TopicId, tags: seq<string>): set<(TopicId, string)> {
    set t | t in tags :: (id, t)
  }

  /** The list is replaced and the old edges deleted in one statement, the new edges made in
      a second one, which may be lost. */
  function SetTags(s: State, lower: CaseMap, id: TopicId, raws: seq<string>, linked: bool): State {
    if id !in s.topics then s
    else
      s.(topics := s.topics[id := s.topics[id].(tags := Clean(lower, raws))],
         edges := Unlinked(s.edges, id) + if linked then Links(id, Clean(lower, raws)) else {})
  }

  // ---- the store as the program keeps it ----

  class MemgraphHandoffStore {
    var topics: map<TopicId, Topic>
    var edges: set<(TopicId, string)>
    ghost var accepted: set<string>
    const settings: Settings

    constructor (settings: Settings)
      ensures Abstract() == State(map[], {}, {}) && this.settings == settings
    {
      topics, edges, accepted, this.settings := map[], {}, {}, settings;
    }

    ghost function Abstract(): State
      reads this
    {
      State(topics, edges, accepted)
    }

    method EnforcePolicy(id: TopicId, content: Option<string>, v: Verdict) returns (d: Decision)
      ensures d == Decide(settings, topics, id, content, v)
      ensures var asked := content.Some? && settings.enforce != "off";
        var clash := id in topics && Clash(topics[id].createdAt, settings.cutoff);
        var bound := id !in topics || NotBefore(topics[id].createdAt, settings.cutoff);
        && (d == Refused(TimesDoNotCompare) <==> asked && clash)
        && (d == Refused(NotValid) <==> asked && bound && v == Rejected)
        && (d == Refused(ValidatorSilent) <==> asked && bound && v == NoAnswer)
        && (d == Passed <==> asked && bound && v == Accepted)
        && (d == NotChecked <==> !asked || (!clash && !bound))
    {
      if content.None? || settings.enforce == "off" {
        return NotChecked;
      }
      if id in topics {
        var created := topics[id].createdAt;
        if created.Unreadable? || settings.cutoff.Unreadable? {
          return NotChecked;
        }
        if created.Aware? != settings.cutoff.Aware? {
          return Refused(TimesDoNotCompare);
        }
        if created.seconds < settings.cutoff.seconds {
          return NotChecked;
        }
      }
      match v {
        case NoAnswer => d := Refused(ValidatorSilent);
        case Accepted => d := Passed;
        case Rejected => d := Refused(NotValid);
      }
    }

    /** The action reported is `created` whenever the topic's time of creation is now. */
    method TopicUpsert(id: TopicId, texts: Texts, now: int, v: Verdict) returns (r: Outcome)
      modifies this
      ensures Abstract() == Upsert(old(Abstract()), settings, id, texts, now, v)
      ensures r.UpsertRefused? <==>
        && texts.content.Some? && settings.enforce != "off"
        && ((id in old(topics) && Clash(old(topics)[id].createdAt, settings.cutoff))
            || (v != Accepted && (id !in old(topics) || NotBefore(old(topics)[id].createdAt, settings.cutoff))))
      ensures r.UpsertRefused? ==> r.why == Decide(settings, old(topics), id, texts.content, v).why
      ensures r.UpsertRefused? ==> Abstract() == old(Abstract())
      ensures !r.UpsertRefused? ==>
        id in topics && r.at == topics[id].createdAt && topics[id].updatedAt == Aware(now)
      ensures !r.UpsertRefused? && texts.content.Some? ==> topics[id].texts.content == texts.content
      ensures r.Created? <==> !r.UpsertRefused? && r.at == Aware(now)
    {
      var d := EnforcePolicy(id, texts.content, v);
      if d.Refused? {
        return UpsertRefused(d.why);
      }
      accepted := accepted + LetThrough(d, texts.content);
      if id !in topics {
        topics := topics[id := Topic(Aware(now), Aware(now), NO_TEXTS, [])];
      }
      var t := topics[id];
      topics := topics[id := t.(updatedAt := Aware(now), texts := Overlay(texts, t.texts))];
      r := if t.createdAt == Aware(now) then Created(t.createdAt) else Updated(t.createdAt);
    }

    method TopicDelete(id: TopicId) returns (deleted: bool)
      modifies this
      ensures Abstract() == Delete(old(Abstract()), id)
      ensures deleted <==> id in old(topics)
    {
      deleted := id in topics;
      if deleted {
        edges := Unlinked(edges, id);
        topics := topics - {id};
      }
    }

    method TopicSetTags(id: TopicId, raws: seq<string>, linked: bool) returns (r: TagOutcome)
      modifies this
      ensures Abstract() == SetTags(old(Abstract()), settings.lower, id, raws, linked)
      ensures r == if id !in old(topics) then NoTopic
                   else if linked || Clean(settings.lower, raws) == []
                   then TagsSet(Clean(settings.lower, raws)) else LinksLost
    {
      var cleaned := CleanTags(settings.lower, raws);
      if id !in topics {
        return NoTopic;
      }
      topics := topics[id := topics[id].(tags := cleaned)];
      edges := Unlinked(edges, id);
      if cleaned != [] {
        if !linked {
          return LinksLost;
        }
        edges := edges + Links(id, cleaned);
      }
      r := TagsSet(cleaned);
    }
  }
}
