/** Session resolution: select the talks that take place, convert them,
    append the add-on sessions, patch, project onto the twelve session
    properties and sort by key. */
module Sessions {
  import opened Json
  import opened Seqs
  import opened Model
  import opened Ordering

  /** The talk states that make it onto the site. */
  const KeepStatus: seq<string> := ["confirmed", "accepted"]

  predicate IsKept(t: Talk) {
    t.state in KeepStatus
  }

  /** The talks of the event that are confirmed or accepted. */
  function SelectTalks(talks: seq<Talk>): (r: seq<Talk>)
    ensures forall i :: 0 <= i < |r| ==> r[i] in talks && (r[i].state == "confirmed" || r[i].state == "accepted")
    ensures forall i :: 0 <= i < |talks| && (talks[i].state == "confirmed" || talks[i].state == "accepted") ==> talks[i] in r
  {
    Filter(talks, IsKept)
  }

  /** Selection keeps the talks' relative order: it distributes over
      concatenation, and a list of kept talks selects to itself. */
  lemma SelectTalksKeepsOrder(a: seq<Talk>, b: seq<Talk>)
    ensures SelectTalks(a + b) == SelectTalks(a) + SelectTalks(b)
    ensures (forall i :: 0 <= i < |a| ==> a[i].state in {"confirmed", "accepted"}) ==> SelectTalks(a) == a
  {
    FilterConcat(a, b, IsKept);
    if forall i :: 0 <= i < |a| ==> a[i].state in {"confirmed", "accepted"} {
      FilterAllKept(a, IsKept);
    }
  }

  /** A talk in any other state is excluded entirely: inserting it anywhere
      in the event's talk list changes nothing that is selected. */
  lemma UnselectedTalkIsInvisible(a: seq<Talk>, t: Talk, b: seq<Talk>)
    requires t.state != "confirmed" && t.state != "accepted"
    ensures SelectTalks(a + [t] + b) == SelectTalks(a + b)
  {
    assert Filter([t], IsKept) == [] by {
      assert [t][1..] == [];
    }
    calc {
      Filter(a + [t] + b, IsKept);
      { FilterConcat(a + [t], b, IsKept); }
      Filter(a + [t], IsKept) + Filter(b, IsKept);
      { FilterConcat(a, [t], IsKept); }
      Filter(a, IsKept) + Filter(b, IsKept);
      { FilterConcat(a, b, IsKept); }
      Filter(a + b, IsKept);
    }
  }

  /** The list handed to the patch resolver: one converted session per
      selected talk, in order, followed by every add-on session, with no
      deduplication. */
  function SessionsBeforePatch(config: Config, event: Event): (r: seq<Record>)
    ensures var selected := SelectTalks(event.talks);
      && |r| == |selected| + |config.extraSessions|
      && (forall i :: 0 <= i < |selected| ==> r[i] == config.talkToSession(event, selected[i]))
      && r[|selected|..] == config.extraSessions
  {
    Map(SelectTalks(event.talks), t => config.talkToSession(event, t)) + config.extraSessions
  }

  /** `site` is what session resolution yields for this configuration and
      event: the patched list projected onto the session properties,
      rearranged in ascending key order. */
  ghost predicate SessionsResolved(config: Config, event: Event, site: seq<Record>) {
    var patched := config.applyAllPatch("sessions", SessionsBeforePatch(config, event));
    && |site| == |patched|
    && multiset(site) == multiset(ProjectAll(patched, SessionFields))
    && SortedByKey(site, config.keyLe)
  }

  /** The sessions of the site and the selected talks. The talks are the
      selection made before any add-on or patch was applied; every session
      has exactly the twelve session properties. */
  method GenerateSessions(config: Config, event: Event) returns (site: seq<Record>, talks: seq<Talk>)
    requires IsTotalPreorder(config.keyLe)
    ensures talks == SelectTalks(event.talks)
    ensures SessionsResolved(config, event, site)
    ensures forall i :: 0 <= i < |site| ==> site[i].fields.Keys == SessionFields
  {
    var selected := SelectTalks(event.talks);
    var sessions := SessionsBeforePatch(config, event);
    var patched := config.applyAllPatch("sessions", sessions);
    var result := ProjectAll(patched, SessionFields);
    site := SortByKey(result, config.keyLe);
    ProjectedRearrangement(site, result, SessionFields);
    assert |site| == |multiset(site)| == |multiset(result)|;
    talks := selected;
  }

  /** The sessions do not depend on the order in which the patched list
      arrives: when the keys are distinct and the comparison is a total
      order, two session resolutions whose patched lists hold the same
      records are the same sequence. */
  lemma SessionsIgnoreInputOrder(config: Config, event: Event, config': Config, event': Event,
                                 site: seq<Record>, site': seq<Record>)
    requires IsTotalPreorder(config.keyLe) && Antisymmetric(config.keyLe) && config'.keyLe == config.keyLe
    requires multiset(config.applyAllPatch("sessions", SessionsBeforePatch(config, event)))
          == multiset(config'.applyAllPatch("sessions", SessionsBeforePatch(config', event')))
    requires SessionsResolved(config, event, site) && SessionsResolved(config', event', site')
    requires DistinctKeys(site)
    ensures site == site'
  {
    MapRespectsPermutation(config.applyAllPatch("sessions", SessionsBeforePatch(config, event)),
                           config'.applyAllPatch("sessions", SessionsBeforePatch(config', event')),
                           Projector(SessionFields));
    SortedArrangementIsUnique(site, site', config.keyLe);
  }
}
