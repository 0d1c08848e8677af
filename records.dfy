/** The metadata record pinned to and read back from IPFS: an open JSON object of which the
    core reads and writes these fields (each absent unless set). */
module Records {
  import opened Wrappers

  /** One entry of the record's `attributes` array, `{ trait_type, value }`. */
  datatype Attribute = Attribute(traitType: string, value: string)

  datatype Record = Record(
    name: Option<string>,
    description: Option<string>,
    message: Option<string>,
    image: Option<string>,
    attributes: Option<seq<Attribute>>)

  /** A record with only a display name and a description, as the sentinel records are. */
  function Placeholder(name: string, description: string): (r: Record)
    ensures r.name == Some(name) && r.description == Some(description)
    ensures r.image.None? && r.attributes.None? && r.message.None?
  {
    Record(Some(name), Some(description), None, None, None)
  }
}
