/** The records that flow through the pipeline: a normalised listing as an
    adapter emits it, the attributes the AI collaborator extracts, an entry of
    the area table, the persisted row, and the adapter configuration. */
module Schema {
  import opened Wrappers

  /** A listing as an adapter's parser emits it. `None` is null/undefined.
      `floor` is the site's raw floor text; `city` is the `_city` hint some
      adapters add for geocoding. */
  datatype Listing = Listing(
    url: string,
    image: Option<string>,
    street: string,
    zipcode: Option<string>,
    meters: Option<int>,
    price: Option<int>,
    floor: Option<string>,
    rooms: Option<int>,
    city: Option<string>)

  /** What the AI extraction returns for a listing's detail page. */
  datatype AiProps = AiProps(
    garden: bool,
    rooftarrace: bool,
    year: Option<int>,
    rooms: Option<int>,
    servicecosts: Option<int>,
    rating: Option<int>,
    reason: Option<string>,
    size: Option<int>,
    price: Option<int>)

  /** One entry of the area table: a postal-code prefix and how much it is liked. */
  datatype Area = Area(code: int, likebility: int)

  /** One row of the `properties` table; `url` carries the UNIQUE constraint. */
  datatype Record = Record(
    platform: string,
    url: string,
    image: Option<string>,
    floor: Option<int>,
    street: string,
    zipcode: Option<string>,
    meters: Option<int>,
    price: Option<int>,
    garden: Option<bool>,
    rooftarrace: Option<bool>,
    year: Option<int>,
    rooms: Option<int>,
    servicecosts: Option<int>,
    rating: Option<int>,
    reason: Option<string>)

  /** The store, keyed by listing URL. */
  type Store = map<string, Record>

  /** An adapter module (one file under crawlers/). The parsers themselves
      run outside the orchestration model; only their presence matters here.
      `enrich` is `enrichCallback` (a `Failure` is a thrown error) and
      `aiHook` is `getAIProperties` (`None` covers both null and a throw). */
  datatype Adapter = Adapter(
    file: string,
    platform: string,
    baseUrl: Option<string>,
    postData: Option<string>,
    targetUrl: string,
    hasParseJSON: bool,
    hasParseHTML: bool,
    enrich: Option<Listing -> Result<Listing, string>>,
    aiHook: Option<Listing -> Option<AiProps>>)
}
