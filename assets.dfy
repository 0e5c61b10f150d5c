/** The Election asset: the record the election contract keeps in the ledger. */
module Assets {

  /** The properties of a stored JSON object, by name. */
  type Fields = map<string, string>

  /** An election as the contract builds it: three string properties. The
      list of candidates is disabled in the asset, so it is not part of it. */
  datatype Election = Election(id: string, name: string, description: string)

  /** The properties JSON.stringify writes for an Election whose three
      properties have all been assigned. */
  function ToFields(e: Election): (f: Fields)
    ensures f.Keys == {"id", "name", "description"}
    ensures f["id"] == e.id && f["name"] == e.name && f["description"] == e.description
  {
    map["id" := e.id, "name" := e.name, "description" := e.description]
  }
}
