/** The records the provider registry returns for one lookup, as the plugin
    decodes them from the JSON response. The HTTP call and the JSON decoding
    are not part of this model: a lookup is an opaque function from a query to
    a LookupResults value (see module Session). */
module Registry {

  datatype Basic = Basic(firstName: string, lastName: string, organization: string)

  datatype OtherName = OtherName(
    kind: string,          // JSON "type": e.g. a former name or a doing-business-as name
    prefix: string,
    firstName: string,
    lastName: string,
    organization: string)

  datatype Address = Address(city: string, state: string, postalCode: string, country: string)

  datatype Taxonomy = Taxonomy(
    code: string,
    description: string,
    primary: bool,
    state: string,
    license: string)

  datatype NpiInfo = NpiInfo(
    number: int,
    basic: Basic,
    enumerationType: string,
    taxonomies: seq<Taxonomy>,
    addresses: seq<Address>,
    otherNames: seq<OtherName>)

  datatype LookupResults = LookupResults(resultCount: int, results: seq<NpiInfo>)
}
