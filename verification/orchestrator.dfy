/** One run of `main` over the adapters, in directory order: adapters of other
    platforms are skipped when a platform filter is set, an adapter without a
    parser stops the run with an error, the request is built (a form post
    with the verification token substituted, or a plain get), and the parsed
    batch goes through the pipeline. The network, the cookie jar and the
    parsers are parameters. */
module Orchestrator {
  import opened Wrappers
  import opened Text
  import opened Js
  import opened Arrays
  import opened Schema
  import opened Pipeline
  import opened Scoring

  /** A cookie of the jar. */
  datatype Cookie = Cookie(key: string, value: string)

  datatype Request = Get(url: string) | Post(url: string, body: string)

  /** What a fetch gives: a network failure (which throws), or a response
      whose parsed listings are `None` when reading or parsing it threw. */
  datatype Response = FetchFailed | Fetched(listings: Option<seq<Listing>>)

  /** The world as the run sees it. `cookies(baseUrl)` is the jar's content
      for that URL once the landing page has been fetched; `fetch` answers
      every request. */
  datatype Env = Env(
    cookies: Option<string> -> seq<Cookie>,
    fetch: Request -> Response,
    areas: seq<Area>,
    nodeEnv: Option<string>,
    filter: Option<string>)

  /** Why a run stopped early. */
  datatype RunError = ConfigError(file: string) | FetchError(url: string)

  /** The store and the alerts after the run, and the error that ended it, if any. */
  datatype Run = Run(store: Store, notices: seq<Notice>, error: Option<RunError>)

  const TokenKey := "__RequestVerificationToken"
  const TokenPlaceholder := "{{__RequestVerificationToken}}"

  /** `FILTER_PLATFORM && config.platform !== FILTER_PLATFORM` is false. */
  predicate Selected(filter: Option<string>, a: Adapter) {
    !TruthyText(filter) || a.platform == filter.value
  }

  predicate HasParser(a: Adapter) {
    a.hasParseHTML || a.hasParseJSON
  }

  predicate DevMode(env: Env) {
    env.nodeEnv == Some("development")
  }

  /** The value of the first cookie named `__RequestVerificationToken`, or
      `""` when there is none (`token || ""`). */
  function Token(jar: seq<Cookie>): (t: string)
    ensures (forall k :: 0 <= k < |jar| ==> jar[k].key != TokenKey) ==> t == ""
    ensures forall k ::
              (0 <= k < |jar| && jar[k].key == TokenKey && forall j :: 0 <= j < k ==> jar[j].key != TokenKey)
              ==> t == jar[k].value
  {
    match FindIndex(jar, (c: Cookie) => c.key == TokenKey)
    case None => ""
    case Some(k) => jar[k].value
  }

  /** The request for the listings: a post of the form body with the token
      put in place of the first placeholder when `postData` is set, a plain
      get otherwise. */
  function RequestFor(a: Adapter, jar: seq<Cookie>): (r: Request)
    ensures r.url == a.targetUrl
    ensures r.Post? <==> TruthyText(a.postData)
    ensures r.Post? ==> r.body == ReplaceFirst(a.postData.value, TokenPlaceholder, Token(jar))
  {
    if TruthyText(a.postData) then Post(a.targetUrl, ReplaceFirst(a.postData.value, TokenPlaceholder, Token(jar)))
    else Get(a.targetUrl)
  }

  /** The batch a response yields: what the parser returned, or nothing when
      reading or parsing threw (the error is logged and the run goes on). */
  function BatchOf(listings: Option<seq<Listing>>): (batch: seq<Listing>)
    ensures listings.None? ==> batch == []
    ensures listings.Some? ==> batch == listings.value
  {
    if listings.Some? then listings.value else []
  }

  /** `main`: the adapters are taken in order; the run stops at the first
      configuration error or failed fetch. */
  function Main(env: Env, adapters: seq<Adapter>, store: Store): (r: Run)
    ensures forall u :: u in store ==> u in r.store && r.store[u] == store[u]
    ensures r.error.Some? && r.error.value.ConfigError? ==>
              exists k :: 0 <= k < |adapters| && adapters[k].file == r.error.value.file
                          && Selected(env.filter, adapters[k]) && !HasParser(adapters[k])
    ensures (forall k :: 0 <= k < |adapters| ==> !Selected(env.filter, adapters[k])) ==> r == Run(store, [], None)
    decreases |adapters|
  {
    if |adapters| == 0 then Run(store, [], None)
    else
      var a := adapters[0];
      if !Selected(env.filter, a) then Main(env, adapters[1..], store)
      else if !HasParser(a) then Run(store, [], Some(ConfigError(a.file)))
      else if TruthyText(a.baseUrl) && env.fetch(Get(a.baseUrl.value)).FetchFailed? then
        Run(store, [], Some(FetchError(a.baseUrl.value)))
      else
        var request := RequestFor(a, env.cookies(a.baseUrl));
        match env.fetch(request)
        case FetchFailed => Run(store, [], Some(FetchError(a.targetUrl)))
        case Fetched(listings) =>
          var o := ProcessBatch(Context(a, env.areas, DevMode(env)), store, BatchOf(listings));
          var rest := Main(env, adapters[1..], o.store);
          Run(rest.store, o.notices + rest.notices, rest.error)
  }

  /** What one adapter does to the run: stop it with an error, or go on with
      the store and the alerts its batch leaves. */
  datatype Leg = Stop(error: RunError) | Go(store: Store, notices: seq<Notice>)

  /** One adapter's turn in `main`. */
  function AdapterLeg(env: Env, a: Adapter, store: Store): Leg {
    if !Selected(env.filter, a) then Go(store, [])
    else if !HasParser(a) then Stop(ConfigError(a.file))
    else if TruthyText(a.baseUrl) && env.fetch(Get(a.baseUrl.value)).FetchFailed? then
      Stop(FetchError(a.baseUrl.value))
    else
      match env.fetch(RequestFor(a, env.cookies(a.baseUrl)))
      case FetchFailed => Stop(FetchError(a.targetUrl))
      case Fetched(listings) =>
        var o := ProcessBatch(Context(a, env.areas, DevMode(env)), store, BatchOf(listings));
        Go(o.store, o.notices)
  }

  function LegOf(env: Env): (Adapter, Store) -> Leg {
    (a: Adapter, s: Store) => AdapterLeg(env, a, s)
  }

  /** The adapters taken in turn by an arbitrary leg, stopping at the first
      error. */
  function Chain(leg: (Adapter, Store) -> Leg, adapters: seq<Adapter>, store: Store): Run
    decreases |adapters|
  {
    if |adapters| == 0 then Run(store, [], None)
    else match leg(adapters[0], store)
      case Stop(e) => Run(store, [], Some(e))
      case Go(s, ns) =>
        var rest := Chain(leg, adapters[1..], s);
        Run(rest.store, ns + rest.notices, rest.error)
  }

  /** `Main` is `Chain` over `AdapterLeg`. */
  lemma {:induction false} MainIsChain(env: Env, adapters: seq<Adapter>, store: Store)
    ensures Main(env, adapters, store) == Chain(LegOf(env), adapters, store)
    decreases |adapters|
  {
    if |adapters| > 0 {
      var a := adapters[0];
      var leg := AdapterLeg(env, a, store);
      assert LegOf(env)(a, store) == leg;
      if leg.Go? {
        MainIsChain(env, adapters[1..], leg.store);
        var rest := Main(env, adapters[1..], leg.store);
        if !Selected(env.filter, a) {
          assert [] + rest.notices == rest.notices;
        }
      }
    }
  }

  /** Running two lists of adapters in turn, the second from where the first
      left the store, is running them together; an error in the first ends
      the whole run there. */
  lemma {:induction false} ChainAppend(leg: (Adapter, Store) -> Leg, store: Store, a: seq<Adapter>, b: seq<Adapter>)
    ensures var r1 := Chain(leg, a, store);
      Chain(leg, a + b, store) ==
        if r1.error.Some? then r1
        else var r2 := Chain(leg, b, r1.store); Run(r2.store, r1.notices + r2.notices, r2.error)
    decreases |a|
  {
    if |a| == 0 {
      assert a + b == b;
    } else {
      assert (a + b)[0] == a[0] && (a + b)[1..] == a[1..] + b;
      match leg(a[0], store)
      case Stop(e) =>
      case Go(s, ns) =>
        ChainAppend(leg, s, a[1..], b);
        var r1 := Chain(leg, a[1..], s);
        if r1.error.None? {
          var r2 := Chain(leg, b, r1.store);
          assert ns + (r1.notices + r2.notices) == (ns + r1.notices) + r2.notices;
        }
    }
  }

  /** `main` over two lists of adapters is `main` over the first, then, when
      that ended without an error, `main` over the second from the store
      the first left. */
  lemma MainAppend(env: Env, a: seq<Adapter>, b: seq<Adapter>, store: Store)
    ensures var r1 := Main(env, a, store);
      Main(env, a + b, store) ==
        if r1.error.Some? then r1
        else var r2 := Main(env, b, r1.store); Run(r2.store, r1.notices + r2.notices, r2.error)
  {
    var r1 := Main(env, a, store);
    MainIsChain(env, a, store);
    MainIsChain(env, a + b, store);
    MainIsChain(env, b, r1.store);
    ChainAppend(LegOf(env), store, a, b);
  }

  /** The run over the adapters from `k` on, started from where the ones
      before `k` left it. */
  lemma MainFrom(env: Env, adapters: seq<Adapter>, store: Store, k: nat)
    requires k < |adapters|
    requires Main(env, adapters[..k], store).error.None?
    ensures var r1 := Main(env, adapters[..k], store);
      var r2 := Main(env, adapters[k..], r1.store);
      Main(env, adapters, store) == Run(r2.store, r1.notices + r2.notices, r2.error)
  {
    MainAppend(env, adapters[..k], adapters[k..], store);
    assert adapters[..k] + adapters[k..] == adapters;
  }

  /** A run's first adapter, selected and answered, hands its batch's alerts
      to the run. */
  lemma MainHeadNotices(env: Env, adapters: seq<Adapter>, store: Store)
    requires |adapters| > 0
    requires AdapterLeg(env, adapters[0], store).Go?
    ensures AdapterLeg(env, adapters[0], store).notices <= Main(env, adapters, store).notices
  {
    MainIsChain(env, adapters, store);
    MainIsChain(env, adapters[1..], AdapterLeg(env, adapters[0], store).store);
    assert LegOf(env)(adapters[0], store) == AdapterLeg(env, adapters[0], store);
  }

  /** The batch an adapter's answer yields in this world; empty when the
      fetch fails, which stops the run before any batch. */
  function AnswerOf(env: Env, a: Adapter): seq<Listing> {
    match env.fetch(RequestFor(a, env.cookies(a.baseUrl)))
    case FetchFailed => []
    case Fetched(listings) => BatchOf(listings)
  }

  /** The pipeline's view of an adapter in this world. */
  function ContextOf(env: Env, a: Adapter): Context {
    Context(a, env.areas, DevMode(env))
  }

  /** A selected adapter whose fetches answer and whose batch passes through
      `store` hands on its batch's outcome. */
  predicate Answers(env: Env, a: Adapter) {
    && Selected(env.filter, a) && HasParser(a)
    && !(TruthyText(a.baseUrl) && env.fetch(Get(a.baseUrl.value)).FetchFailed?)
    && env.fetch(RequestFor(a, env.cookies(a.baseUrl))).Fetched?
  }

  /** An adapter that answers hands on the outcome of its batch. */
  lemma LegOutcome(env: Env, a: Adapter, store: Store)
    requires Answers(env, a)
    ensures var o := ProcessBatch(ContextOf(env, a), store, AnswerOf(env, a));
      AdapterLeg(env, a, store) == Go(o.store, o.notices)
  {
  }

  /** The alert a new, first-met listing of the batch raises is among the
      alerts the adapter hands on. */
  lemma LegAlerts(env: Env, a: Adapter, store: Store, i: nat)
    requires Answers(env, a) && UrlStable(a)
    requires i < |AnswerOf(env, a)|
    requires var batch := AnswerOf(env, a);
      var p := Enrich(a.enrich, batch[i]);
      && batch[i].url !in store
      && (forall j :: 0 <= j < i ==> batch[j].url != batch[i].url)
      && PassesPreFilter(AreaFor(env.areas, ParseIntOf(p.zipcode)), p.meters)
    ensures var e := Evaluate(ContextOf(env, a), Enrich(a.enrich, AnswerOf(env, a)[i]));
      && AdapterLeg(env, a, store).Go?
      && e.notice.Some? && e.notice.value in AdapterLeg(env, a, store).notices
  {
    BatchAlerts(ContextOf(env, a), store, AnswerOf(env, a), i);
    LegOutcome(env, a, store);
  }

  /** Every listing of a selected adapter's answer that is new to the store
      the adapters before it left, met for the first time in its batch, and
      passing the pre-filter once enriched, has its alert among the run's
      alerts. */
  lemma MainAlerts(env: Env, adapters: seq<Adapter>, store: Store, k: nat, i: nat)
    requires k < |adapters| && Main(env, adapters[..k], store).error.None?
    requires Answers(env, adapters[k]) && UrlStable(adapters[k])
    requires i < |AnswerOf(env, adapters[k])|
    requires var a := adapters[k];
      var batch := AnswerOf(env, a);
      var p := Enrich(a.enrich, batch[i]);
      && batch[i].url !in Main(env, adapters[..k], store).store
      && (forall j :: 0 <= j < i ==> batch[j].url != batch[i].url)
      && PassesPreFilter(AreaFor(env.areas, ParseIntOf(p.zipcode)), p.meters)
    ensures var a := adapters[k];
      var e := Evaluate(ContextOf(env, a), Enrich(a.enrich, AnswerOf(env, a)[i]));
      e.notice.Some? && e.notice.value in Main(env, adapters, store).notices
  {
    var a := adapters[k];
    var r1 := Main(env, adapters[..k], store);
    LegAlerts(env, a, r1.store, i);
    assert adapters[k..][0] == a;
    MainHeadNotices(env, adapters[k..], r1.store);
    MainFrom(env, adapters, store, k);
  }

  /** A failed fetch is not caught: when a selected adapter with a parser
      cannot fetch its landing page or its listings, the run ends there
      with an error naming the URL, keeping what the adapters before it
      stored and alerted, and no later adapter runs. */
  lemma MainFetchFails(env: Env, adapters: seq<Adapter>, store: Store, k: nat)
    requires k < |adapters| && Main(env, adapters[..k], store).error.None?
    requires Selected(env.filter, adapters[k]) && HasParser(adapters[k])
    requires var a := adapters[k];
      || (TruthyText(a.baseUrl) && env.fetch(Get(a.baseUrl.value)).FetchFailed?)
      || env.fetch(RequestFor(a, env.cookies(a.baseUrl))).FetchFailed?
    ensures var a := adapters[k];
      var r1 := Main(env, adapters[..k], store);
      var url := if TruthyText(a.baseUrl) && env.fetch(Get(a.baseUrl.value)).FetchFailed? then a.baseUrl.value
                 else a.targetUrl;
      Main(env, adapters, store) == Run(r1.store, r1.notices, Some(FetchError(url)))
  {
    var r1 := Main(env, adapters[..k], store);
    assert adapters[k..][0] == adapters[k];
    MainFrom(env, adapters, store, k);
    assert r1.notices + [] == r1.notices;
  }

  /** With a platform filter set, every row the run adds carries that platform. */
  lemma {:induction false} MainFilterPlatform(env: Env, adapters: seq<Adapter>, store: Store)
    requires TruthyText(env.filter)
    ensures var r := Main(env, adapters, store);
      forall u :: u in r.store && u !in store ==> r.store[u].platform == env.filter.value
    decreases |adapters|
  {
    if |adapters| > 0 {
      var a := adapters[0];
      if Selected(env.filter, a) && HasParser(a)
         && !(TruthyText(a.baseUrl) && env.fetch(Get(a.baseUrl.value)).FetchFailed?) {
        var request := RequestFor(a, env.cookies(a.baseUrl));
        if env.fetch(request).Fetched? {
          var o := ProcessBatch(Context(a, env.areas, DevMode(env)), store, BatchOf(env.fetch(request).listings));
          MainFilterPlatform(env, adapters[1..], o.store);
        }
      } else if !Selected(env.filter, a) {
        MainFilterPlatform(env, adapters[1..], store);
      }
    }
  }

  /** A run with every selected adapter configured and every fetch answered
      ends without an error. */
  lemma {:induction false} MainCompletes(env: Env, adapters: seq<Adapter>, store: Store)
    requires forall k :: 0 <= k < |adapters| && Selected(env.filter, adapters[k]) ==> HasParser(adapters[k])
    requires forall rq :: env.fetch(rq).Fetched?
    ensures Main(env, adapters, store).error.None?
  {
    MainIsChain(env, adapters, store);
    forall k, s | 0 <= k < |adapters| ensures LegOf(env)(adapters[k], s).Go? {
      LegGoes(env, adapters[k], s);
    }
    ChainCompletes(LegOf(env), adapters, store);
  }

  /** A selected adapter with a parser, whose fetches answer, lets the run
      go on. */
  lemma LegGoes(env: Env, a: Adapter, store: Store)
    requires Selected(env.filter, a) ==> HasParser(a)
    requires forall rq :: env.fetch(rq).Fetched?
    ensures AdapterLeg(env, a, store).Go?
  {
  }

  /** A chain whose every leg goes on ends without error. */
  lemma {:induction false} ChainCompletes(leg: (Adapter, Store) -> Leg, adapters: seq<Adapter>, store: Store)
    requires forall k, s :: 0 <= k < |adapters| ==> leg(adapters[k], s).Go?
    ensures Chain(leg, adapters, store).error.None?
    decreases |adapters|
  {
    if |adapters| > 0 {
      forall k, s | 0 <= k < |adapters[1..]| ensures leg(adapters[1..][k], s).Go? {
        assert adapters[1..][k] == adapters[k + 1];
      }
      assert leg(adapters[0], store).Go?;
      ChainCompletes(leg, adapters[1..], leg(adapters[0], store).store);
    }
  }

  /** The first selected adapter without a parser stops the run with an
      error naming its file, and nothing is fetched after it. */
  lemma MainStopsAtConfigError(env: Env, adapters: seq<Adapter>, store: Store)
    requires |adapters| > 0 && Selected(env.filter, adapters[0]) && !HasParser(adapters[0])
    ensures Main(env, adapters, store) == Run(store, [], Some(ConfigError(adapters[0].file)))
  {
  }

  /** A selected adapter without a parser is never skipped: the run ends
      with an error, at that adapter or before it. */
  lemma {:induction false} ParserlessStopsRun(env: Env, adapters: seq<Adapter>, store: Store, k: nat)
    requires k < |adapters| && Selected(env.filter, adapters[k]) && !HasParser(adapters[k])
    ensures Main(env, adapters, store).error.Some?
    decreases |adapters|
  {
    if k > 0 {
      var a := adapters[0];
      assert adapters[1..][k - 1] == adapters[k];
      if !Selected(env.filter, a) {
        ParserlessStopsRun(env, adapters[1..], store, k - 1);
      } else if HasParser(a) && !(TruthyText(a.baseUrl) && env.fetch(Get(a.baseUrl.value)).FetchFailed?) {
        var request := RequestFor(a, env.cookies(a.baseUrl));
        if env.fetch(request).Fetched? {
          var o := ProcessBatch(Context(a, env.areas, DevMode(env)), store, BatchOf(env.fetch(request).listings));
          ParserlessStopsRun(env, adapters[1..], o.store, k - 1);
        }
      }
    }
  }

  /** When every fetch answers, the run stops exactly at the first selected
      adapter without a parser, with an error naming its file. */
  lemma FirstParserlessNamed(env: Env, adapters: seq<Adapter>, store: Store, k: nat)
    requires k < |adapters| && Selected(env.filter, adapters[k]) && !HasParser(adapters[k])
    requires forall j :: 0 <= j < k && Selected(env.filter, adapters[j]) ==> HasParser(adapters[j])
    requires forall rq :: env.fetch(rq).Fetched?
    ensures Main(env, adapters, store).error == Some(ConfigError(adapters[k].file))
  {
    MainIsChain(env, adapters, store);
    forall j, s | 0 <= j < k ensures LegOf(env)(adapters[j], s).Go? {
      LegGoes(env, adapters[j], s);
    }
    ChainStopsAt(LegOf(env), adapters, store, k, ConfigError(adapters[k].file));
  }

  /** A chain whose legs before k go on, and whose leg k stops, ends with
      leg k's error. */
  lemma {:induction false} ChainStopsAt(leg: (Adapter, Store) -> Leg, adapters: seq<Adapter>, store: Store, k: nat, e: RunError)
    requires k < |adapters|
    requires forall j, s :: 0 <= j < k ==> leg(adapters[j], s).Go?
    requires forall s :: leg(adapters[k], s) == Stop(e)
    ensures Chain(leg, adapters, store).error == Some(e)
    decreases k
  {
    if k > 0 {
      forall j, s | 0 <= j < k - 1 ensures leg(adapters[1..][j], s).Go? {
        assert adapters[1..][j] == adapters[j + 1];
      }
      assert adapters[1..][k - 1] == adapters[k];
      assert leg(adapters[0], store).Go?;
      ChainStopsAt(leg, adapters[1..], leg(adapters[0], store).store, k - 1, e);
    }
  }

  /** The post body is the form text with the first placeholder replaced by
      the token, which is `""` without a token cookie. */
  lemma PostBodySubstitution(a: Adapter, jar: seq<Cookie>, i: nat)
    requires TruthyText(a.postData)
    requires OccursAt(a.postData.value, TokenPlaceholder, i)
    requires forall j: nat :: j < i ==> !OccursAt(a.postData.value, TokenPlaceholder, j)
    ensures var body := a.postData.value[..i] + Token(jar) + a.postData.value[i + |TokenPlaceholder|..];
      RequestFor(a, jar) == Post(a.targetUrl, body)
    ensures (forall k :: 0 <= k < |jar| ==> jar[k].key != TokenKey) ==>
      RequestFor(a, jar) == Post(a.targetUrl, a.postData.value[..i] + a.postData.value[i + |TokenPlaceholder|..])
  {
    ReplaceFirstAt(a.postData.value, TokenPlaceholder, Token(jar), i);
    if forall k :: 0 <= k < |jar| ==> jar[k].key != TokenKey {
      assert Token(jar) == "";
      assert a.postData.value[..i] + "" == a.postData.value[..i];
    }
  }

  /** Form text without a placeholder is posted as it is. */
  lemma PostBodyWithoutPlaceholder(a: Adapter, jar: seq<Cookie>)
    requires TruthyText(a.postData)
    requires forall j: nat :: !OccursAt(a.postData.value, TokenPlaceholder, j)
    ensures RequestFor(a, jar) == Post(a.targetUrl, a.postData.value)
  {
    ReplaceFirstAbsent(a.postData.value, TokenPlaceholder, Token(jar));
  }
}
