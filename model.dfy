/** The event as the conference API delivers it, the canonical field sets of
    the site entities, the projection that enforces them, and the
    configuration together with everything the pipeline's collaborators
    return for it. */
module Model {
  import opened Json
  import opened Seqs

  type SpeakerId = string

  /** A talk of the event; `more` holds its other properties (language,
      level, tags, ...), which only `talkToSession` reads. */
  datatype Talk = Talk(id: string, title: string, state: string, speakers: seq<SpeakerId>,
                       more: map<string, Value>)

  /** A speaker of the event, identified by `uid`; `more` holds its other
      properties, which only `toSiteSpeaker` reads. */
  datatype EventSpeaker = EventSpeaker(uid: SpeakerId, displayName: string, more: map<string, Value>)

  /** A category or a format of the event. */
  datatype Named = Named(id: string, name: string)

  /** Location data; `more` holds the properties the site does not copy. */
  datatype Place = Place(shortName: string, longName: string, more: map<string, Value>)
  datatype LatLng = LatLng(lat: real, lng: real)
  datatype Address = Address(formattedAddress: string, locality: Place, country: Place,
                             latLng: LatLng, more: map<string, Value>)
  datatype ConferenceDates = ConferenceDates(start: Value, end: Value, more: map<string, Value>)

  datatype Event = Event(
    name: string,
    address: Address,
    conferenceDates: ConferenceDates,
    talks: seq<Talk>,
    speakers: seq<EventSpeaker>,
    categories: seq<Named>,
    formats: seq<Named>)

  /** The room, slot and schedule add-on, each part possibly absent. */
  datatype SlotRow = SlotRow(start: real, end: real)
  datatype Slot = Slot(key: string, start: Value, duration: real, row: SlotRow)
  datatype ScheduleAddon = ScheduleAddon(
    rooms: Option<seq<Record>>,
    slots: Option<seq<Slot>>,
    schedule: Option<seq<Value>>)

  /** What the photo downloader does: the name of the stored file, or a throw. */
  datatype Download = Downloaded(file: string) | DownloadFailed

  /** The configuration, with what each collaborator returns for it:
      the talk and speaker converters, the key builder, the patch resolver
      (called with an entity-kind name), the add-on loaders, the photo
      downloader (called with the remote URL and the speaker's key, which
      names the destination), the team file, and `compareKey` read as
      "sorts no later than" on keys. */
  datatype Config = Config(
    eventId: string,
    talkToSession: (Event, Talk) -> Record,
    toSiteSpeaker: EventSpeaker -> Record,
    buildKey: string -> string,
    applyAllPatch: (string, seq<Record>) -> seq<Record>,
    extraSessions: seq<Record>,
    extraSpeakers: seq<Record>,
    downloadToFile: (Value, string) -> Download,
    schedule: ScheduleAddon,
    sponsors: Value,
    team: seq<Record>,
    keyLe: (string, string) -> bool)

  /** The properties a site session has besides `key`: twelve in all. */
  const SessionFields: set<string> :=
    {"title", "id", "language", "format", "tags", "level", "speakers",
     "videoId", "presentation", "draft", "description"}

  /** The properties a site speaker has besides `key`: ten in all. */
  const SpeakerFields: set<string> :=
    {"name", "id", "feature", "company", "city", "photoURL", "socials",
     "draft", "description"}

  /** Destructuring `r` into the named properties and building a fresh
      object literal from them: the literal has every named property (an
      absent one becomes `undefined`) and nothing else. */
  function Project(r: Record, names: set<string>): (p: Record)
    ensures p.key == r.key
    ensures p.fields.Keys == names
    ensures forall f :: f in names ==> p.fields[f] == Get(r, f)
  {
    Record(r.key, map f | f in names :: Get(r, f))
  }

  function Projector(names: set<string>): Record -> Record {
    r => Project(r, names)
  }

  function ProjectAll(rs: seq<Record>, names: set<string>): (ps: seq<Record>)
    ensures |ps| == |rs|
    ensures forall i :: 0 <= i < |rs| ==> ps[i] == Project(rs[i], names)
  {
    Map(rs, Projector(names))
  }

  /** Properties outside the canonical set cannot influence the projection:
      whatever a patch or an add-on injected there is dropped. */
  lemma ProjectIgnoresOtherFields(r: Record, r': Record, names: set<string>)
    requires r.key == r'.key
    requires forall f :: f in names ==> Get(r, f) == Get(r', f)
    ensures Project(r, names) == Project(r', names)
  {
  }

  /** Projecting twice is projecting once. */
  lemma ProjectIdempotent(r: Record, names: set<string>)
    ensures Project(Project(r, names), names) == Project(r, names)
  {
  }

  /** A record that already has exactly the canonical properties, even
      `undefined` ones, comes out of the projection unchanged. */
  lemma ProjectKeepsCanonical(r: Record, names: set<string>)
    requires r.fields.Keys == names
    ensures Project(r, names) == r
  {
  }

  /** A rearrangement of projected records consists of projected records. */
  lemma ProjectedRearrangement(s: seq<Record>, projected: seq<Record>, names: set<string>)
    requires forall i :: 0 <= i < |projected| ==> projected[i].fields.Keys == names
    requires multiset(s) == multiset(projected)
    ensures forall i :: 0 <= i < |s| ==> s[i].fields.Keys == names
  {
    forall i | 0 <= i < |s| ensures s[i].fields.Keys == names {
      assert s[i] in multiset(projected);
    }
  }
}
