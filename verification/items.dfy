/** A file record as the document-store search endpoints return it, reduced to
    the fields the core reads or writes. */
module Items {
  import opened Wrappers

  /** `parentReference`: where the item lives. `siteId` is the provenance tag the
      discovery pipeline writes; `driveId` stands for the fields it leaves alone. */
  datatype ParentRef = ParentRef(driveId: Option<string>, siteId: Option<string>)

  /** A search hit: `id`, `name`, `webUrl`, an optional `parentReference`, and the
      `similarity_score` the ranker attaches. */
  datatype Item = Item(
    id: string,
    name: string,
    webUrl: string,
    parent: Option<ParentRef>,
    similarity: Option<real>)

  /** `item.get("parentReference", {}).get("siteId")`. */
  function SiteIdOf(f: Item): Option<string> {
    if f.parent.Some? then f.parent.value.siteId else None
  }
}
