/** Speaker resolution: collect the speaker ids of the selected talks, keep
    the event speakers they name, append the add-on speakers, patch, project
    onto the ten speaker properties, sort by key, and enrich each speaker's
    photo. */
module Speakers {
  import opened Json
  import opened Seqs
  import opened Model
  import opened Ordering

  /** Every speaker id some talk refers to. */
  function ReferencedIds(talks: seq<Talk>): (ids: set<SpeakerId>)
    ensures forall i, k :: 0 <= i < |talks| && 0 <= k < |talks[i].speakers| ==> talks[i].speakers[k] in ids
    ensures forall id :: id in ids ==> exists i :: 0 <= i < |talks| && id in talks[i].speakers
  {
    if talks == [] then {}
    else ReferencedIds(talks[..|talks| - 1]) + Elements(talks[|talks| - 1].speakers)
  }

  function Elements(ids: seq<SpeakerId>): set<SpeakerId> {
    set k | 0 <= k < |ids| :: ids[k]
  }

  /** The `reduce` that adds each talk's speaker ids to one set. */
  method CollectSpeakerIds(talks: seq<Talk>) returns (ids: set<SpeakerId>)
    ensures ids == ReferencedIds(talks)
  {
    ids := {};
    for i := 0 to |talks|
      invariant ids == ReferencedIds(talks[..i])
    {
      var speakers := talks[i].speakers;
      for k := 0 to |speakers|
        invariant ids == ReferencedIds(talks[..i]) + Elements(speakers[..k])
      {
        assert speakers[..k + 1] == speakers[..k] + [speakers[k]];
        ids := ids + {speakers[k]};
      }
      assert speakers[..|speakers|] == speakers;
      assert talks[..i + 1][..i] == talks[..i];
    }
    assert talks[..|talks|] == talks;
  }

  function IsReferencedBy(ids: set<SpeakerId>): EventSpeaker -> bool {
    (s: EventSpeaker) => s.uid in ids
  }

  /** The event speakers whose uid some selected talk refers to, in the
      event's order. */
  function SelectSpeakers(speakers: seq<EventSpeaker>, talks: seq<Talk>): (r: seq<EventSpeaker>)
    ensures |r| <= |speakers|
    ensures forall i :: 0 <= i < |r| ==>
              r[i] in speakers && exists j :: 0 <= j < |talks| && r[i].uid in talks[j].speakers
  {
    Filter(speakers, IsReferencedBy(ReferencedIds(talks)))
  }

  /** An event speaker is kept exactly when its uid occurs among the
      speakers of at least one of the talks. */
  lemma SpeakerKeptIffReferenced(speakers: seq<EventSpeaker>, talks: seq<Talk>, s: EventSpeaker)
    requires s in speakers
    ensures s in SelectSpeakers(speakers, talks) <==>
            exists i :: 0 <= i < |talks| && s.uid in talks[i].speakers
  {
  }

  /** Kept speakers stay in the event's order. */
  lemma SelectSpeakersKeepsOrder(a: seq<EventSpeaker>, b: seq<EventSpeaker>, talks: seq<Talk>)
    ensures SelectSpeakers(a + b, talks) == SelectSpeakers(a, talks) + SelectSpeakers(b, talks)
  {
    FilterConcat(a, b, IsReferencedBy(ReferencedIds(talks)));
  }

  /** The list handed to the patch resolver: the converted kept speakers in
      order, followed by every add-on speaker. */
  function SpeakersBeforePatch(config: Config, event: Event, talks: seq<Talk>): (r: seq<Record>)
    ensures var kept := SelectSpeakers(event.speakers, talks);
      && |r| == |kept| + |config.extraSpeakers|
      && (forall i :: 0 <= i < |kept| ==> r[i] == config.toSiteSpeaker(kept[i]))
      && r[|kept|..] == config.extraSpeakers
  {
    Map(SelectSpeakers(event.speakers, talks), config.toSiteSpeaker) + config.extraSpeakers
  }

  /** `parts.join(sep)`. */
  function Join(parts: seq<string>, sep: string): string {
    if |parts| == 0 then ""
    else if |parts| == 1 then parts[0]
    else parts[0] + sep + Join(parts[1..], sep)
  }

  /** The site-relative URL of a downloaded photo. */
  function PhotoPath(file: string): string {
    Join(["", "images", "speakers", file], "/")
  }

  lemma PhotoPathIsSiteRelative(file: string)
    ensures PhotoPath(file) == "/images/speakers/" + file
  {
    var parts := ["", "images", "speakers", file];
    assert parts[1..] == ["images", "speakers", file];
    assert parts[1..][1..] == ["speakers", file];
    assert parts[1..][1..][1..] == [file];
    calc {
      PhotoPath(file);
      "" + "/" + Join(["images", "speakers", file], "/");
      "/" + ("images" + "/" + Join(["speakers", file], "/"));
      "/" + ("images" + "/" + ("speakers" + "/" + file));
      { assert "/" + "images" + "/" + "speakers" + "/" == "/images/speakers/"; }
      "/images/speakers/" + file;
    }
  }

  /** Photo enrichment, with its three outcomes: a speaker without a photo
      URL, or whose download fails, is returned as it is; otherwise only
      `photoURL` changes, to the downloaded file under /images/speakers/. */
  function DownloadPhoto(speaker: Record, downloadToFile: (Value, string) -> Download): (r: Record)
    ensures !Truthy(Get(speaker, "photoURL")) ==> r == speaker
    ensures Truthy(Get(speaker, "photoURL")) && downloadToFile(Get(speaker, "photoURL"), speaker.key).DownloadFailed?
            ==> r == speaker
    ensures Truthy(Get(speaker, "photoURL")) && downloadToFile(Get(speaker, "photoURL"), speaker.key).Downloaded?
            ==> Get(r, "photoURL") == Str("/images/speakers/" + downloadToFile(Get(speaker, "photoURL"), speaker.key).file)
    ensures r.key == speaker.key && r.fields.Keys == speaker.fields.Keys
    ensures forall f :: f in r.fields && f != "photoURL" ==> r.fields[f] == speaker.fields[f]
  {
    var url := Get(speaker, "photoURL");
    if !Truthy(url) then speaker
    else
      match downloadToFile(url, speaker.key)
      case DownloadFailed => speaker
      case Downloaded(file) =>
        PhotoPathIsSiteRelative(file);
        speaker.(fields := speaker.fields["photoURL" := Str(PhotoPath(file))])
  }

  /** Every speaker enriched in place of its position (the downloads are
      independent, so running them one after another yields the same list). */
  function EnrichAll(speakers: seq<Record>, downloadToFile: (Value, string) -> Download): (r: seq<Record>)
    ensures |r| == |speakers|
    ensures forall i :: 0 <= i < |speakers| ==> r[i] == DownloadPhoto(speakers[i], downloadToFile)
  {
    seq(|speakers|, i requires 0 <= i < |speakers| => DownloadPhoto(speakers[i], downloadToFile))
  }

  /** Enrichment keeps every key in its position, so a sorted list stays
      sorted, and keeps every speaker's set of properties. */
  lemma EnrichAllKeepsOrder(speakers: seq<Record>, downloadToFile: (Value, string) -> Download, le: (string, string) -> bool)
    requires SortedByKey(speakers, le)
    ensures SortedByKey(EnrichAll(speakers, downloadToFile), le)
    ensures forall i :: 0 <= i < |speakers| ==> EnrichAll(speakers, downloadToFile)[i].fields.Keys == speakers[i].fields.Keys
  {
  }

  /** When every download fails, enrichment changes nothing. */
  lemma FailedDownloadsChangeNothing(speakers: seq<Record>, downloadToFile: (Value, string) -> Download)
    requires forall url, key :: downloadToFile(url, key) == DownloadFailed
    ensures EnrichAll(speakers, downloadToFile) == speakers
  {
  }

  /** `sorted` is the patched speaker list projected onto the speaker
      properties and rearranged in ascending key order. */
  ghost predicate SortedResolution(config: Config, event: Event, talks: seq<Talk>, sorted: seq<Record>) {
    var patched := config.applyAllPatch("speakers", SpeakersBeforePatch(config, event, talks));
    && |sorted| == |patched|
    && multiset(sorted) == multiset(ProjectAll(patched, SpeakerFields))
    && SortedByKey(sorted, config.keyLe)
  }

  /** `speakers` is what speaker resolution yields: a sorted resolution with
      each photo enriched in place. */
  ghost predicate SpeakersResolved(config: Config, event: Event, talks: seq<Talk>, speakers: seq<Record>) {
    exists sorted :: SortedResolution(config, event, talks, sorted) && speakers == EnrichAll(sorted, config.downloadToFile)
  }

  /** The speakers of the site: resolved as above, ascending by key, each
      with exactly the ten speaker properties. */
  method GenerateSpeakers(config: Config, event: Event, talks: seq<Talk>) returns (speakers: seq<Record>)
    requires IsTotalPreorder(config.keyLe)
    ensures SpeakersResolved(config, event, talks, speakers)
    ensures SortedByKey(speakers, config.keyLe)
    ensures forall i :: 0 <= i < |speakers| ==> speakers[i].fields.Keys == SpeakerFields
  {
    var speakerIds := CollectSpeakerIds(talks);
    var baseSpeakers := Map(Filter(event.speakers, IsReferencedBy(speakerIds)), config.toSiteSpeaker);
    var patched := config.applyAllPatch("speakers", baseSpeakers + config.extraSpeakers);
    var result := ProjectAll(patched, SpeakerFields);
    var sorted := SortByKey(result, config.keyLe);
    assert |sorted| == |multiset(sorted)| == |multiset(result)|;
    ProjectedRearrangement(sorted, result, SpeakerFields);
    EnrichAllKeepsOrder(sorted, config.downloadToFile, config.keyLe);
    speakers := EnrichAll(sorted, config.downloadToFile);
    assert SortedResolution(config, event, talks, sorted);
  }
}
