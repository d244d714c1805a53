/** The de Alliantie adapter: the JSON answer of the search endpoint becomes
    listings (only items marked new, with absolute URLs and image links), and
    a listing without a postal code gets one from the geocoder. */
module Dealliantie {
  import opened Wrappers
  import opened Text
  import opened Js
  import opened Arrays
  import opened Schema
  import opened Pipeline
  import opened Orchestrator

  /** An entry of an item's `status` list; `kind` is its `type`. */
  datatype Status = Status(kind: string)

  datatype Image = Image(url: Option<string>)

  /** One element of `json.data`, with the fields the parser reads. */
  datatype Item = Item(
    url: Option<string>,
    address: string,
    size: Option<int>,
    price: Option<string>,
    status: Option<seq<Status>>,
    images: Option<seq<Image>>)

  /** The response body; `data` may be missing and its elements may be null. */
  datatype Payload = Payload(data: Option<seq<Option<Item>>>)

  const Host := "https://ik-zoek.de-alliantie.nl"
  const BaseUrl := "https://ik-zoek.de-alliantie.nl/kopen/"
  const TargetUrl := "https://ik-zoek.de-alliantie.nl/getproperties"
  const FormTail :=
    "&type=kopen&city=&maxprice=0&minrooms=0&street=&minsurface=0&maxsurface=0&page=1&sorting=date&order=desc"
  const PostData := TokenKey + "=" + TokenPlaceholder + FormTail
  const DefaultCity := "Amsterdam"

  /** The error the parser throws on an item it cannot read. */
  const ItemError := "TypeError: cannot read an item"

  /** `property?.status?.find((s) => s.type === "new")` is truthy. */
  predicate IsNew(item: Option<Item>) {
    item.Some? && item.value.status.Some?
    && exists k :: 0 <= k < |item.value.status.value| && item.value.status.value[k].kind == "new"
  }

  /** `i.url` is truthy. */
  predicate HasUrl(i: Image) {
    TruthyText(i.url)
  }

  /** `k` is the first image with a truthy URL. */
  predicate FirstWithUrl(images: seq<Image>, k: int) {
    0 <= k < |images| && HasUrl(images[k]) && forall j :: 0 <= j < k ==> !HasUrl(images[j])
  }

  /** The link for an image URL: cut at its first `?` and put after the
      host; null when the cut leaves nothing. */
  function ImageLink(url: string): (r: Option<string>)
    ensures r.None? <==> Split(url, '?')[0] == ""
    ensures r.Some? ==> Host <= r.value && |r.value| > |Host| && '?' !in r.value[|Host|..]
    ensures r.Some? ==> r.value == Host + Split(url, '?')[0]
  {
    var path := Split(url, '?')[0];
    if path == "" then None
    else
      assert (Host + path)[|Host|..] == path;
      Some(Host + path)
  }

  /** The image link of the first image with a (truthy) URL; null when
      there is no such image. */
  function ImageOf(images: seq<Image>): (r: Option<string>)
    ensures (forall k :: 0 <= k < |images| ==> !HasUrl(images[k])) ==> r.None?
    ensures forall k :: FirstWithUrl(images, k) ==> r == ImageLink(images[k].url.value)
  {
    match FindIndex(images, HasUrl)
    case None => None
    case Some(k) =>
      assert forall k' :: FirstWithUrl(images, k') ==> k' == k;
      ImageLink(images[k].url.value)
  }

  /** `property.url.split("/")[1] || "Amsterdam"`. */
  function CityOf(url: string): (city: string)
    ensures city == DefaultCity || (|Split(url, '/')| >= 2 && city == Split(url, '/')[1] && city != "")
    ensures |Split(url, '/')| >= 2 && Split(url, '/')[1] != "" ==> city == Split(url, '/')[1]
    ensures '/' !in url ==> city == DefaultCity
  {
    var parts := Split(url, '/');
    if |parts| >= 2 && parts[1] != "" then parts[1] else DefaultCity
  }

  /** The city is the segment between the first and the second `/`. */
  lemma CityOfSecondSegment(first: string, city: string, rest: string)
    requires '/' !in first && '/' !in city && city != ""
    ensures CityOf(first + "/" + city + "/" + rest) == city
  {
    var tail := city + "/" + rest;
    assert first + "/" + city + "/" + rest == first + ['/'] + tail;
    SplitAfterFirst(first, tail, '/');
    assert tail == city + ['/'] + rest;
    SplitAfterFirst(city, rest, '/');
  }

  /** With only one `/`, the city is what follows it. */
  lemma CityOfLastSegment(first: string, city: string)
    requires '/' !in first && '/' !in city && city != ""
    ensures CityOf(first + "/" + city) == city
  {
    assert first + "/" + city == first + ['/'] + city;
    SplitAfterFirst(first, city, '/');
    SplitWithout(city, '/');
  }

  /** An image URL with a query string loses it; one without is kept whole. */
  lemma ImageOfFirst(images: seq<Image>, path: string, query: string)
    requires |images| > 0 && path != "" && '?' !in path
    ensures images[0].url == Some(path) ==> ImageOf(images) == Some(Host + path)
    ensures images[0].url == Some(path + "?" + query) ==> ImageOf(images) == Some(Host + path)
  {
    if images[0].url == Some(path) {
      SplitWithout(path, '?');
    }
    if images[0].url == Some(path + "?" + query) {
      assert path + "?" + query == path + ['?'] + query;
      SplitAfterFirst(path, query, '?');
    }
  }

  /** `property.price?.replace(/\D/g, "")`, read as the number its digits
      denote; an absent price or one without digits is falsy. */
  function PriceOf(price: Option<string>): (r: Option<int>)
    ensures price.None? ==> r.None?
    ensures price.Some? && StripNonDigits(price.value) != "" ==> r == Some(DecimalValue(StripNonDigits(price.value)))
    ensures r.None? || r.value >= 0
  {
    if price.None? then None
    else
      var digits := StripNonDigits(price.value);
      if digits == "" then None else Some(DecimalValue(digits))
  }

  /** The listing for one new item; reading `images` or `url` of an item that
      lacks them throws. */
  function ConvertItem(item: Item): (r: Result<Listing, string>)
    ensures r.Success? <==> item.images.Some? && item.url.Some?
    ensures r.Success? ==> var l := r.value;
      && l.url == Host + "/" + item.url.value
      && l.zipcode.None? && l.floor.None? && l.rooms.None?
      && l.street == item.address && l.meters == item.size
      && l.image == ImageOf(item.images.value)
      && l.price == PriceOf(item.price)
      && l.city == Some(CityOf(item.url.value))
  {
    if item.images.None? || item.url.None? then Failure(ItemError)
    else
      Success(Listing(
        Host + "/" + item.url.value,
        ImageOf(item.images.value),
        item.address,
        None,
        item.size,
        PriceOf(item.price),
        None,
        None,
        Some(CityOf(item.url.value))))
  }

  /** The new items, in order. */
  function NewItems(items: seq<Option<Item>>): (r: seq<Item>)
    ensures |r| <= |items|
    ensures forall x :: x in r ==> IsNew(Some(x)) && Some(x) in items
    ensures forall k :: 0 <= k < |items| && IsNew(items[k]) ==> items[k].value in r
  {
    if |items| == 0 then []
    else (if IsNew(items[0]) then [items[0].value] else []) + NewItems(items[1..])
  }

  /** The loop of `parseJSON` over the items. */
  function ParseItems(items: seq<Option<Item>>): (r: Result<seq<Listing>, string>)
    ensures r.Success? ==> |r.value| <= |items|
    ensures r.Failure? ==> r.error == ItemError
  {
    if |items| == 0 then Success([])
    else if !IsNew(items[0]) then ParseItems(items[1..])
    else match ConvertItem(items[0].value)
      case Failure(e) => Failure(e)
      case Success(l) =>
        match ParseItems(items[1..])
        case Failure(e) => Failure(e)
        case Success(rest) => Success([l] + rest)
  }

  /** `parseJSON`: iterating a missing `data` throws. */
  function ParseJson(p: Payload): (r: Result<seq<Listing>, string>)
    ensures p.data.None? ==> r.Failure?
    ensures p.data.Some? ==> r == ParseItems(p.data.value)
  {
    if p.data.None? then Failure("TypeError: json.data is not iterable")
    else ParseItems(p.data.value)
  }

  /** The item has the fields the parser reads without a check. */
  predicate Readable(item: Item) {
    item.images.Some? && item.url.Some?
  }

  /** Filtering a concatenation filters each part, so the new items keep
      their input order and multiplicity. */
  lemma {:induction false} NewItemsAppend(a: seq<Option<Item>>, b: seq<Option<Item>>)
    ensures NewItems(a + b) == NewItems(a) + NewItems(b)
  {
    if |a| == 0 {
      assert a + b == b;
    } else {
      assert (a + b)[0] == a[0];
      assert (a + b)[1..] == a[1..] + b;
      NewItemsAppend(a[1..], b);
    }
  }

  lemma NewItemsCons(items: seq<Option<Item>>)
    requires |items| > 0
    ensures NewItems(items) == (if IsNew(items[0]) then [items[0].value] else []) + NewItems(items[1..])
  {
  }

  /** The parser succeeds exactly when every new item has images and a URL. */
  lemma {:induction false} ParseItemsSucceeds(items: seq<Option<Item>>)
    ensures ParseItems(items).Success? <==> forall x :: x in NewItems(items) ==> Readable(x)
  {
    if |items| > 0 {
      ParseItemsSucceeds(items[1..]);
      NewItemsCons(items);
      var tail := NewItems(items[1..]);
      if IsNew(items[0]) {
        assert NewItems(items) == [items[0].value] + tail;
        assert items[0].value in NewItems(items);
        if ParseItems(items).Success? {
          assert ParseItems(items[1..]).Success?;
        }
      } else {
        assert NewItems(items) == tail;
      }
    }
  }

  /** When the parser succeeds it emits one listing per new item, in order,
      each the conversion of that item. */
  lemma {:induction false} ParseItemsOutput(items: seq<Option<Item>>)
    requires ParseItems(items).Success?
    ensures var out := ParseItems(items).value;
      var news := NewItems(items);
      |out| == |news| && forall k :: 0 <= k < |news| ==> ConvertItem(news[k]) == Success(out[k])
  {
    if |items| > 0 {
      NewItemsCons(items);
      var tail := NewItems(items[1..]);
      var news := NewItems(items);
      var out := ParseItems(items).value;
      if IsNew(items[0]) {
        var rest := ParseItems(items[1..]);
        assert rest.Success?;
        ParseItemsOutput(items[1..]);
        assert news == [items[0].value] + tail;
        assert out == [ConvertItem(items[0].value).value] + rest.value;
        forall k | 0 <= k < |news| ensures ConvertItem(news[k]) == Success(out[k]) {
          if k > 0 {
            assert news[k] == tail[k - 1];
            assert out[k] == rest.value[k - 1];
          }
        }
      } else {
        ParseItemsOutput(items[1..]);
        assert news == tail;
      }
    }
  }

  /** Every emitted listing points into the site, has no postal code and no
      floor text, and its price (when there is one) is a number read from
      digits only. */
  lemma ParsedListings(p: Payload)
    requires ParseJson(p).Success?
    ensures forall l :: l in ParseJson(p).value ==>
      && Host + "/" <= l.url
      && l.zipcode.None? && l.floor.None?
      && (l.price.None? || l.price.value >= 0)
  {
    var items := p.data.value;
    ParseItemsOutput(items);
    var out := ParseJson(p).value;
    var news := NewItems(items);
    forall l | l in out
      ensures Host + "/" <= l.url && l.zipcode.None? && l.floor.None? && (l.price.None? || l.price.value >= 0)
    {
      var k :| 0 <= k < |out| && out[k] == l;
      assert ConvertItem(news[k]) == Success(l);
    }
  }

  /** A payload without items marked new yields no listing. */
  lemma {:induction false} NothingNew(items: seq<Option<Item>>)
    requires forall k :: 0 <= k < |items| ==> !IsNew(items[k])
    ensures ParseItems(items) == Success([])
  {
    if |items| > 0 {
      assert !IsNew(items[0]);
      forall k | 0 <= k < |items[1..]| ensures !IsNew(items[1..][k]) {
        assert items[1..][k] == items[k + 1];
      }
      NothingNew(items[1..]);
    }
  }

  /** The geocoder's query: `${street}, ${_city}, Netherlands`. */
  function GeocodeQuery(l: Listing): (q: string)
    ensures l.street <= q
    ensures |q| >= |l.street| + |", Netherlands"| && q[|q| - |", Netherlands"|..] == ", Netherlands"
  {
    l.street + ", " + Interpolate(l.city) + ", Netherlands"
  }

  /** `enrichCallback`: a listing with a postal code is returned as it is;
      otherwise the geocoder's answer for the address becomes its postal
      code, and a geocoder error is thrown on. */
  function EnrichCallback(l: Listing, geocode: string -> Result<Option<string>, string>): (r: Result<Listing, string>)
    ensures TruthyText(l.zipcode) ==> r == Success(l)
    ensures !TruthyText(l.zipcode) ==>
      (r.Success? <==> geocode(GeocodeQuery(l)).Success?)
      && (r.Success? ==> r.value == l.(zipcode := geocode(GeocodeQuery(l)).value))
  {
    if TruthyText(l.zipcode) then Success(l)
    else match geocode(GeocodeQuery(l))
      case Failure(e) => Failure(e)
      case Success(zip) => Success(l.(zipcode := zip))
  }

  /** The adapter module; `aiHook` stands for `getAIProperties`, whose page
      scraping and language-model call are outside this model. */
  function Adapter(geocode: string -> Result<Option<string>, string>,
                   aiHook: Option<Listing -> Option<AiProps>>): (a: Schema.Adapter)
    ensures a.platform == "dealliantie" && HasParser(a)
    ensures a.enrich.Some? && forall l :: a.enrich.value(l) == EnrichCallback(l, geocode)
  {
    Schema.Adapter("dealliantie.js", "dealliantie", Some(BaseUrl), Some(PostData), TargetUrl,
                   true, false, Some((l: Listing) => EnrichCallback(l, geocode)), aiHook)
  }

  /** Enrichment never changes a listing's URL, so the run's bookkeeping
      by URL holds for this adapter. */
  lemma AdapterUrlStable(geocode: string -> Result<Option<string>, string>,
                         aiHook: Option<Listing -> Option<AiProps>>)
    ensures UrlStable(Adapter(geocode, aiHook))
  {
    var a := Adapter(geocode, aiHook);
    forall l | a.enrich.value(l).Success? ensures a.enrich.value(l).value.url == l.url {
      assert a.enrich.value(l) == EnrichCallback(l, geocode);
    }
  }

  /** The search form is posted with the token in the first field. */
  lemma PostBody(jar: seq<Cookie>, geocode: string -> Result<Option<string>, string>,
                 aiHook: Option<Listing -> Option<AiProps>>)
    ensures RequestFor(Adapter(geocode, aiHook), jar) == Post(TargetUrl, TokenKey + "=" + Token(jar) + FormTail)
  {
    var a := Adapter(geocode, aiHook);
    var prefix := TokenKey + "=";
    var i := |prefix|;
    assert PostData == prefix + TokenPlaceholder + FormTail;
    assert PostData[..i] == prefix;
    assert PostData[i..i + |TokenPlaceholder|] == TokenPlaceholder;
    assert PostData[i + |TokenPlaceholder|..] == FormTail;
    assert '{' !in prefix;
    forall j: nat | j < i ensures !OccursAt(PostData, TokenPlaceholder, j) {
      assert PostData[j] == prefix[j] != '{';
      if j + |TokenPlaceholder| <= |PostData| {
        assert PostData[j..j + |TokenPlaceholder|][0] == PostData[j];
      }
    }
    PostBodySubstitution(a, jar, i);
  }

  /** What `main` makes of a de Alliantie answer: the parsed listings, or
      none when `parseJSON` threw, which `main` catches and logs. */
  function ResponseOf(p: Payload): (r: Response)
    ensures r.Fetched?
    ensures r.listings.Some? <==> ParseJson(p).Success?
    ensures r.listings.Some? ==> r.listings.value == ParseJson(p).value
  {
    match ParseJson(p)
    case Success(ls) => Fetched(Some(ls))
    case Failure(_) => Fetched(None)
  }

  /** The batch the pipeline receives from a de Alliantie answer: empty when
      parsing threw, and otherwise listings inside the site with no postal
      code and no floor text. */
  lemma ParsedBatch(p: Payload)
    ensures var batch := BatchOf(ResponseOf(p).listings);
      && (ParseJson(p).Failure? ==> batch == [])
      && (ParseJson(p).Success? ==> batch == ParseJson(p).value)
      && forall l :: l in batch ==> Host + "/" <= l.url && l.zipcode.None? && l.floor.None?
  {
    if ParseJson(p).Success? {
      ParsedListings(p);
    }
  }

  /** A run over the de Alliantie adapter alone, whose landing page and
      search answer arrive, ends without an error and stores every listing
      the parser emitted. */
  lemma DealliantieRun(env: Env, geocode: string -> Result<Option<string>, string>,
                       aiHook: Option<Listing -> Option<AiProps>>, store: Store, p: Payload)
    requires Selected(env.filter, Adapter(geocode, aiHook))
    requires env.fetch(Get(BaseUrl)).Fetched?
    requires env.fetch(RequestFor(Adapter(geocode, aiHook), env.cookies(Some(BaseUrl)))) == ResponseOf(p)
    ensures Main(env, [Adapter(geocode, aiHook)], store).error.None?
    ensures Main(env, [Adapter(geocode, aiHook)], store).store.Keys
      == store.Keys + Urls(BatchOf(ResponseOf(p).listings))
  {
    var a := Adapter(geocode, aiHook);
    var ctx := Context(a, env.areas, DevMode(env));
    var batch := BatchOf(ResponseOf(p).listings);
    AdapterUrlStable(geocode, aiHook);
    BatchKeys(ctx, store, batch);
    var o := ProcessBatch(ctx, store, batch);
    assert [a][1..] == [];
    assert Main(env, [a], store) == Run(o.store, o.notices + [], None);
  }
}
