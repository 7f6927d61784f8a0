/** Site assembly: the `info` sub-document, the four entity kinds resolved in
    order, the team sorted by key, and the final document with absent
    collections defaulted to empty. */
module SiteAssembly {
  import opened Json
  import opened Model
  import opened Ordering
  import opened Sessions
  import opened Speakers
  import opened Taxonomy

  datatype PlaceInfo = PlaceInfo(shortName: string, longName: string)
  datatype AddressInfo = AddressInfo(formattedAddress: string, locality: PlaceInfo,
                                     country: PlaceInfo, latLng: LatLng)
  datatype DateRange = DateRange(start: Value, end: Value)
  datatype Info = Info(id: string, name: string, address: AddressInfo, dates: DateRange)

  datatype EventData = EventData(
    sessions: seq<Record>, speakers: seq<Record>, categories: seq<Record>, formats: seq<Record>)

  datatype Site = Site(
    info: Info,
    sessions: seq<Record>,
    speakers: seq<Record>,
    categories: seq<Record>,
    formats: seq<Record>,
    rooms: seq<Record>,
    slots: seq<Slot>,
    schedule: seq<Value>,
    sponsors: Value,
    team: seq<Record>)

  function PlaceInfoOf(p: Place): PlaceInfo {
    PlaceInfo(p.shortName, p.longName)
  }

  /** The reshaped event metadata: the configured event id, the event name,
      the address reduced to its formatted text, locality, country and
      coordinates, and the start and end dates. */
  function SiteInfo(id: string, event: Event): (info: Info)
    ensures info.id == id && info.name == event.name
    ensures info.address.formattedAddress == event.address.formattedAddress
    ensures info.address.locality == PlaceInfo(event.address.locality.shortName, event.address.locality.longName)
    ensures info.address.country == PlaceInfo(event.address.country.shortName, event.address.country.longName)
    ensures info.address.latLng == event.address.latLng
    ensures info.dates == DateRange(event.conferenceDates.start, event.conferenceDates.end)
  {
    var a := event.address;
    Info(id, event.name,
         AddressInfo(a.formattedAddress, PlaceInfoOf(a.locality), PlaceInfoOf(a.country), a.latLng),
         DateRange(event.conferenceDates.start, event.conferenceDates.end))
  }

  /** Properties of the address and the dates that the reshaping does not
      name never reach the site. */
  lemma SiteInfoDropsOtherProperties(id: string, event: Event, m1: map<string, Value>, m2: map<string, Value>,
                                     m3: map<string, Value>, m4: map<string, Value>)
    ensures var a := event.address;
      SiteInfo(id, event.(address := a.(more := m1, locality := a.locality.(more := m2),
                                         country := a.country.(more := m3)),
                          conferenceDates := event.conferenceDates.(more := m4)))
      == SiteInfo(id, event)
  {
  }

  /** The four entity kinds, sessions first, because speaker selection uses
      the talks that session resolution selected (and only those: add-on
      sessions never select a speaker). */
  method GenerateDataFromEvent(config: Config, event: Event) returns (data: EventData)
    requires IsTotalPreorder(config.keyLe)
    ensures SessionsResolved(config, event, data.sessions)
    ensures SpeakersResolved(config, event, SelectTalks(event.talks), data.speakers)
    ensures KindResolved(config, "categories", event.categories, data.categories)
    ensures KindResolved(config, "formats", event.formats, data.formats)
    ensures SortedByKey(data.speakers, config.keyLe)
    ensures forall i :: 0 <= i < |data.sessions| ==> data.sessions[i].fields.Keys == SessionFields
    ensures forall i :: 0 <= i < |data.speakers| ==> data.speakers[i].fields.Keys == SpeakerFields
  {
    var sessions, talks := GenerateSessions(config, event);
    var speakers := GenerateSpeakers(config, event, talks);
    var categories := GenerateCategories(config, event);
    var formats := GenerateFormats(config, event);
    data := EventData(sessions, speakers, categories, formats);
  }

  /** The team file's members, ascending by key. */
  method GenerateTeam(config: Config) returns (team: seq<Record>)
    requires IsTotalPreorder(config.keyLe)
    ensures multiset(team) == multiset(config.team)
    ensures SortedByKey(team, config.keyLe)
  {
    team := SortByKey(config.team, config.keyLe);
  }

  /** `value || []` for a collection, which JavaScript treats as falsy only
      when it is absent. */
  function OrEmpty<T>(o: Option<seq<T>>): (s: seq<T>)
    ensures o.None? ==> s == []
    ensures o.Some? ==> s == o.value
  {
    match o
    case None => []
    case Some(s) => s
  }

  /** The final document. The entity collections come from the pipeline and
      are never absent, so defaulting leaves them as they are; rooms, slots
      and schedule are the loaded lists, or empty when the add-on has none;
      sponsors and team are taken as given. */
  function AssembleSite(info: Info, data: EventData, loaded: ScheduleAddon, sponsors: Value, team: seq<Record>): (site: Site)
    ensures site.info == info
    ensures site.sessions == data.sessions && site.speakers == data.speakers
    ensures site.categories == data.categories && site.formats == data.formats
    ensures loaded.rooms.None? ==> site.rooms == []
    ensures loaded.rooms.Some? ==> site.rooms == loaded.rooms.value
    ensures loaded.slots.None? ==> site.slots == []
    ensures loaded.slots.Some? ==> site.slots == loaded.slots.value
    ensures loaded.schedule.None? ==> site.schedule == []
    ensures loaded.schedule.Some? ==> site.schedule == loaded.schedule.value
    ensures site.sponsors == sponsors && site.team == team
  {
    Site(info,
         OrEmpty(Some(data.sessions)), OrEmpty(Some(data.speakers)),
         OrEmpty(Some(data.categories)), OrEmpty(Some(data.formats)),
         OrEmpty(loaded.rooms), OrEmpty(loaded.slots), OrEmpty(loaded.schedule),
         sponsors, team)
  }

  /** The whole site for a fetched event. */
  method GenerateSite(config: Config, event: Event) returns (site: Site)
    requires IsTotalPreorder(config.keyLe)
    ensures site.info == SiteInfo(config.eventId, event)
    ensures SessionsResolved(config, event, site.sessions)
    ensures SpeakersResolved(config, event, SelectTalks(event.talks), site.speakers)
    ensures KindResolved(config, "categories", event.categories, site.categories)
    ensures KindResolved(config, "formats", event.formats, site.formats)
    ensures site.rooms == OrEmpty(config.schedule.rooms)
    ensures site.slots == OrEmpty(config.schedule.slots)
    ensures site.schedule == OrEmpty(config.schedule.schedule)
    ensures site.sponsors == config.sponsors
    ensures multiset(site.team) == multiset(config.team) && SortedByKey(site.team, config.keyLe)
  {
    var info := SiteInfo(config.eventId, event);
    var data := GenerateDataFromEvent(config, event);
    var team := GenerateTeam(config);
    site := AssembleSite(info, data, config.schedule, config.sponsors, team);
  }
}
