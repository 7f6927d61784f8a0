# DevFest toolkit: the merge/override pipeline, modelled in Dafny

This project models the core of the DevFest toolkit's site generator, the
functions in `src/commons.ts` that turn a conference-management event into
the data of a static site. The event holds talks, speakers, categories and
formats. Add-on files supply extra sessions and speakers, plus the schedule,
sponsors and team. Patch files override entries.

- **Session resolution** keeps the confirmed and accepted talks and converts
  each one to a session. It appends the add-on sessions, patches the list,
  projects every record onto the twelve session properties and sorts by key.
  It also returns the selected talks as they were before any add-on or patch.
- **Speaker resolution** collects the speaker ids of those talks into a set.
  It keeps the event speakers named in that set and appends the add-on
  speakers. It then patches, projects onto the ten speaker properties and
  sorts by key. Last, it enriches each speaker's photo.
- **Photo enrichment** has three outcomes. A speaker without a photo URL is
  returned unchanged. A speaker whose download fails is also returned
  unchanged. Otherwise only `photoURL` changes, to `/images/speakers/<file>`.
- **Categories and formats** become `{key, name, id}` records, keyed from
  the name. Each list is patched and sorted. No projection follows the patch.
- **Site assembly** reshapes the event's location and dates into `info`. It
  runs the four resolutions with sessions first, then sorts the team. In the
  final document, absent rooms, slots and schedule become empty lists.
  Sponsors are passed through exactly as loaded.

Files, one module each: `json.dfy` (JSON values, keyed records, truthiness),
`seqs.dfy` (filter and map), `ordering.dfy` (sorting by key), `model.dfy`
(event entities, canonical field sets, projection, configuration),
`sessions.dfy`, `speakers.dfy`, `taxonomy.dfy` (categories and formats) and
`site.dfy` (assembly).

The foreign calls are parameters of the model. They are gathered in
`Model.Config`, which holds the configuration together with what each
collaborator returns for it:

- `talkToSession`, `toSiteSpeaker` and `buildKey` are arbitrary functions.
- `applyAllPatch` is an arbitrary function of the entity-kind name and the list.
- The add-on loaders, the schedule and sponsor loaders and the team file are
  given values.
- `downloadToFile` is a function of the photo URL and the speaker's key. It
  yields either `Downloaded(file)` or `DownloadFailed`.
- `compareKey` is a relation `keyLe` on keys. Every sorting operation
  requires it to be total and transitive.

Every record is a `Json.Record`: a `key` string plus a map from property
names to JSON values. A missing property reads as `undefined`.

Two points of the behaviour are easy to misread:

- Categories and formats are NOT re-projected after patching, unlike
  sessions and speakers (src/commons.ts:198-200, 214-216). A property a patch
  adds to a category therefore reaches the site, as
  `Taxonomy.PatchedPropertyReachesSite` shows.
- Photo enrichment tests the photo URL for JavaScript truthiness, so
  `undefined`, `null`, `false`, `0` and `""` all skip the download.
  `Json.Truthy` models that test.

## Model

| member | source | states |
|---|---|---|
| `Sessions.SelectTalks` | src/commons.ts:69-70 | every selected talk comes from the event and is confirmed or accepted; every confirmed or accepted talk of the event is selected |
| `Sessions.SelectTalksKeepsOrder` | src/commons.ts:70 | selection distributes over concatenation, and a list of kept talks selects to itself, so selected talks keep their original order |
| `Sessions.UnselectedTalkIsInvisible` | src/commons.ts:69-70 | a talk in any other state, inserted anywhere in the event's talks, changes nothing that is selected |
| `Sessions.SessionsBeforePatch` | src/commons.ts:72-74 | the list given to the patch resolver is one converted session per selected talk, in order, followed by every add-on session, with no deduplication |
| `Sessions.GenerateSessions` | src/commons.ts:64-111 | the returned talks are the selection made before add-ons and patches; the sessions are the patched list projected and rearranged in ascending key order, each with exactly the twelve session properties |
| `Sessions.SessionsIgnoreInputOrder` | src/commons.ts:77-107 | with distinct keys and a total order, two resolutions whose patched lists hold the same records are the same sequence, whatever their input order |
| `Model.Project` | src/commons.ts:77-106 | the projected record keeps the key and has exactly the named properties, each read from the original record (an absent one as `undefined`) |
| `Model.ProjectIgnoresOtherFields` | src/commons.ts:77-106 | two records that agree on the key and the canonical properties project alike, so no injected property survives |
| `Model.ProjectIdempotent` | src/commons.ts:77-106 | projecting a projected record changes nothing |
| `Model.ProjectKeepsCanonical` | src/commons.ts:77-106 | a record that already has exactly the canonical properties is its own projection |
| `Model.ProjectAll` | src/commons.ts:77 | one projected record per patched record, in the same position |
| `Model.ProjectedRearrangement` | src/commons.ts:106-107 | sorting projected records leaves only projected records, each with exactly the canonical properties |
| `Seqs.Filter` | src/commons.ts:70 | the filter keeps exactly the elements that satisfy the predicate and never lengthens the list |
| `Seqs.FilterConcat` | src/commons.ts:126 | filtering distributes over concatenation, so kept elements stay in order |
| `Seqs.FilterAllKept` | src/commons.ts:70 | a list whose every element satisfies the predicate is its own filter |
| `Seqs.MapRespectsPermutation` | src/commons.ts:132 | mapping rearranged input gives rearranged output |
| `Ordering.SortInPlace` | src/commons.ts:107 | the array ends up in ascending key order and holds the same records as before |
| `Ordering.SortByKey` | src/commons.ts:158 | the sorted list is in ascending key order and holds exactly the records it was given |
| `Ordering.SortedArrangementIsUnique` | src/commons.ts:199 | with distinct keys and an antisymmetric total order, two sorted arrangements of the same records are equal |
| `Speakers.ReferencedIds` | src/commons.ts:119-122 | an id is in the set exactly when it occurs among the speakers of some talk |
| `Speakers.CollectSpeakerIds` | src/commons.ts:119-122 | the set built by adding each talk's speaker ids one by one is the set of referenced ids |
| `Speakers.SpeakerKeptIffReferenced` | src/commons.ts:125-127 | an event speaker is kept exactly when its uid occurs among the speakers of at least one of the given talks |
| `Speakers.SelectSpeakersKeepsOrder` | src/commons.ts:125-127 | speaker selection distributes over concatenation, so kept speakers stay in the event's order |
| `Speakers.SelectSpeakers` | src/commons.ts:125-126 | never longer than the event's speaker list; every kept speaker is an event speaker whose uid occurs among the speakers of some given talk |
| `Speakers.SpeakersBeforePatch` | src/commons.ts:125-129 | the list given to the patch resolver is the converted kept speakers in order, followed by every add-on speaker |
| `Speakers.PhotoPathIsSiteRelative` | src/commons.ts:180 | joining `""`, `images`, `speakers` and the file name with `/` gives `/images/speakers/` followed by the file name |
| `Speakers.DownloadPhoto` | src/commons.ts:164-185 | a falsy photo URL or a failed download returns the speaker unchanged; a successful download sets `photoURL` to `/images/speakers/<file>`; the key, the set of properties and every other property are always kept |
| `Speakers.EnrichAll` | src/commons.ts:160-161 | each speaker is enriched in its own position and the length is kept |
| `Speakers.EnrichAllKeepsOrder` | src/commons.ts:158-161 | enrichment keeps a key-sorted list sorted and keeps each speaker's properties |
| `Speakers.FailedDownloadsChangeNothing` | src/commons.ts:179-184 | when every download fails, the enriched list equals the input list |
| `Speakers.GenerateSpeakers` | src/commons.ts:113-162 | the speakers are a key-sorted rearrangement of the projected patched list, with each photo enriched in place; the result is sorted by key and every speaker has exactly the ten speaker properties |
| `Taxonomy.DescribeAll` | src/commons.ts:192-196 | one record per event entry, in order, keyed by the built key of its name and holding exactly its name and id |
| `Taxonomy.GenerateCategories` | src/commons.ts:187-201 | the categories are the patched list, records unchanged, rearranged in ascending key order |
| `Taxonomy.GenerateFormats` | src/commons.ts:203-217 | the formats are the patched list, records unchanged, rearranged in ascending key order |
| `Taxonomy.PatchedPropertyReachesSite` | src/commons.ts:198-200 | because no projection follows the patch, when a patch adds a property to every category, every resolved category has it, next to exactly its name and id |
| `SiteAssembly.SiteInfo` | src/commons.ts:250-271 | `info` holds the configured event id, the event name, the formatted address, the short and long names of the locality and of the country, the latitude and longitude, and the start and end dates |
| `SiteAssembly.SiteInfoDropsOtherProperties` | src/commons.ts:253-271 | properties of the address, its places and the dates that the reshaping does not name never affect `info` |
| `SiteAssembly.GenerateDataFromEvent` | src/commons.ts:219-233 | sessions, categories and formats are resolved from the event; speakers are resolved from the talks selected out of the event alone, so add-on sessions never select a speaker |
| `SiteAssembly.GenerateTeam` | src/commons.ts:235-244 | the team is the team file's members in ascending key order |
| `SiteAssembly.OrEmpty` | src/commons.ts:285-291 | an absent collection becomes the empty list; a present one, even an empty one, is kept as it is |
| `SiteAssembly.AssembleSite` | src/commons.ts:283-294 | entity collections pass unchanged; rooms, slots and schedule are the loaded lists, or empty when absent; sponsors and team are as given |
| `SiteAssembly.GenerateSite` | src/commons.ts:246-295 | `info` comes from the configured id and the event; every collection is resolved as above; absent schedule parts are empty; sponsors are passed through; the team is sorted |

## Left out

- Loading logger levels from `logger.json` (src/commons.ts:30-39): file I/O and global state with no effect on the data.
- The command-line flag declarations (src/commons.ts:41-62): configuration with no behaviour.
- Logging (src/commons.ts:109, 123, 197, 213, 241): observational only.
- The bodies of `getEvent`, `applyAllPatch`, `loadExtraSessions`, `loadExtraSpeakers`, `loadSchedule`, `loadSponsors`, `readFileCache`, `downloadToFile`, `talkToSession`, `toSiteSpeaker`, `buildKey` and `compareKey`: these modules are not part of this model. Each is a parameter (see `Model.Config`).
- A failing event fetch aborts generation before any modelled step runs. The model starts from a fetched event.
- An unreadable team file: the team file is read last (src/commons.ts:281), so such a failure comes after every modelled resolution and every photo download. The model takes the parsed team file as given.
- A patch-file error in `applyAllPatch` (src/commons.ts:76, 131, 198, 214) is fatal to the run. The model's patch resolver is a total function, so it cannot fail.
- An event without `address`, `locality`, `latLng` or `conferenceDates` makes the destructuring at src/commons.ts:253-257 throw. The model's `Event` always has them, so it cannot express that failure.
- The destination path built with `path.join` (src/commons.ts:172-178): the model passes the speaker's key, the only part that varies, to the downloader.
- `Promise.all` (src/commons.ts:160-161): the downloads run concurrently in the source. The model enriches the speakers one after another, which gives the same list because each result depends only on its own speaker.
- Ordering.SortInPlace: the stability of `Array.prototype.sort` is not stated. The sort promises only ascending key order and the same records, so the relative order of records with equal keys is not captured.
- Ordering.SortByKey: the stability of `Array.prototype.sort` is not stated, as for the in-place sort it wraps.
- Records whose `key` a patch removes or makes non-string: the model types the key as a string, as the site interfaces do.
- Numbers, including those of slots, are kept as reals and only copied. The JavaScript `NaN` (also falsy) is not modelled.
