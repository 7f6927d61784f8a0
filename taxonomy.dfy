/** Categories and formats: each event entry becomes `{key, name, id}` with
    the key built from the name; the list is patched and sorted by key.
    Unlike sessions and speakers, nothing is projected after the patch. */
module Taxonomy {
  import opened Json
  import opened Seqs
  import opened Model
  import opened Ordering

  function Describe(entry: Named, buildKey: string -> string): Record {
    Record(buildKey(entry.name), map["name" := Str(entry.name), "id" := Str(entry.id)])
  }

  /** One record per event entry, in order, keyed from its name and holding
      exactly its name and id. */
  function DescribeAll(entries: seq<Named>, buildKey: string -> string): (r: seq<Record>)
    ensures |r| == |entries|
    ensures forall i :: 0 <= i < |entries| ==>
              && r[i].key == buildKey(entries[i].name)
              && r[i].fields.Keys == {"name", "id"}
              && Get(r[i], "name") == Str(entries[i].name)
              && Get(r[i], "id") == Str(entries[i].id)
  {
    Map(entries, (n: Named) => Describe(n, buildKey))
  }

  /** `r` is the patched list of one kind rearranged in ascending key order,
      with every record exactly as the patch resolver returned it. */
  ghost predicate KindResolved(config: Config, kind: string, entries: seq<Named>, r: seq<Record>) {
    var patched := config.applyAllPatch(kind, DescribeAll(entries, config.buildKey));
    && |r| == |patched|
    && multiset(r) == multiset(patched)
    && SortedByKey(r, config.keyLe)
  }

  method GenerateCategories(config: Config, event: Event) returns (categories: seq<Record>)
    requires IsTotalPreorder(config.keyLe)
    ensures KindResolved(config, "categories", event.categories, categories)
  {
    var described := DescribeAll(event.categories, config.buildKey);
    var result := config.applyAllPatch("categories", described);
    categories := SortByKey(result, config.keyLe);
    assert |categories| == |multiset(categories)| == |multiset(result)|;
  }

  method GenerateFormats(config: Config, event: Event) returns (formats: seq<Record>)
    requires IsTotalPreorder(config.keyLe)
    ensures KindResolved(config, "formats", event.formats, formats)
  {
    var described := DescribeAll(event.formats, config.buildKey);
    var result := config.applyAllPatch("formats", described);
    formats := SortByKey(result, config.keyLe);
    assert |formats| == |multiset(formats)| == |multiset(result)|;
  }

  /** Because no projection follows the patch, a property a patch adds to a
      category reaches the site: when a patch gives every category a
      `color`, every resolved category still has it, next to its name and id. */
  lemma PatchedPropertyReachesSite(config: Config, entries: seq<Named>, r: seq<Record>, color: Value)
    requires forall rs :: config.applyAllPatch("categories", rs) ==
               Map(rs, (c: Record) => c.(fields := c.fields["color" := color]))
    requires KindResolved(config, "categories", entries, r)
    ensures forall i :: 0 <= i < |r| ==> Get(r[i], "color") == color && r[i].fields.Keys == {"name", "id", "color"}
  {
    var patched := config.applyAllPatch("categories", DescribeAll(entries, config.buildKey));
    forall i | 0 <= i < |r| ensures Get(r[i], "color") == color && r[i].fields.Keys == {"name", "id", "color"} {
      assert r[i] in multiset(patched);
    }
  }
}
