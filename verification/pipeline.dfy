/** One batch of listings from one adapter, in order: a listing whose URL is
    already stored is skipped; otherwise it is enriched, its floor, area,
    alert decision and AI attributes are worked out, an alert is raised when
    it passes the pre-filter, and its row is inserted unless the URL is
    already taken. */
module Pipeline {
  import opened Wrappers
  import opened Text
  import opened Js
  import opened Schema
  import opened Floor
  import opened Scoring
  import opened Message

  /** What the run knows besides the listing: the adapter, the area table,
      and whether NODE_ENV is "development". */
  datatype Context = Context(adapter: Adapter, areas: seq<Area>, devMode: bool)

  /** An alert handed to the transport: the listing it is about, the text,
      the photo, the mute decision, and the options object the transport
      receives (the corrected one, `Scoring.SendOptions`, which carries the
      decision under the key the transport reads). */
  datatype Notice = Notice(url: string, text: string, image: Option<string>, muted: bool,
                           options: map<string, bool>)

  /** The row a listing produces and the alert it raises, if any. */
  datatype Evaluation = Evaluation(record: Record, notice: Option<Notice>)

  /** The store and the alert, if any, after one listing. */
  datatype Step = Step(store: Store, notice: Option<Notice>)

  /** The store and the alerts raised, in order, after a batch. */
  datatype Outcome = Outcome(store: Store, notices: seq<Notice>)

  /** The enrichment hook keeps the URL of every listing it returns. */
  ghost predicate UrlStable(a: Adapter) {
    a.enrich.Some? ==> forall l :: a.enrich.value(l).Success? ==> a.enrich.value(l).value.url == l.url
  }

  /** `enrichCallback`, when the adapter has one: a thrown error is logged
      and the listing goes on as it was. */
  function Enrich(hook: Option<Listing -> Result<Listing, string>>, l: Listing): (r: Listing)
    ensures hook.None? ==> r == l
    ensures hook.Some? && hook.value(l).Success? ==> r == hook.value(l).value
    ensures hook.Some? && hook.value(l).Failure? ==> r == l
  {
    if hook.None? then l
    else match hook.value(l)
      case Success(p) => p
      case Failure(_) => l
  }

  /** `getAIProperties`, called only when the gate lets it through; a throw
      and a null both leave `ai` empty. */
  function AiFor(ctx: Context, l: Listing, alert: bool): (ai: Option<AiProps>)
    ensures ai.Some? ==> AiGate(ctx.adapter.aiHook.Some?, alert, ctx.devMode)
    ensures ai.Some? ==> ai == ctx.adapter.aiHook.value(l)
  {
    if AiGate(ctx.adapter.aiHook.Some?, alert, ctx.devMode) then ctx.adapter.aiHook.value(l) else None
  }

  /** With the gate as intended, the hook's answer is used exactly when the
      adapter has a hook and the listing alerts or development mode is on. */
  lemma AiGateIntended(ctx: Context, l: Listing, alert: bool)
    ensures ctx.adapter.aiHook.Some? && (alert || ctx.devMode) ==> AiFor(ctx, l, alert) == ctx.adapter.aiHook.value(l)
    ensures ctx.adapter.aiHook.None? || (!alert && !ctx.devMode) ==> AiFor(ctx, l, alert).None?
  {
  }

  /** The bound parameters of the insert statement. */
  function ToRecord(platform: string, l: Listing, floor: Option<int>, ai: Option<AiProps>): (r: Record)
    ensures r.platform == platform && r.url == l.url && r.image == l.image && r.floor == floor
    ensures r.street == l.street && r.zipcode == l.zipcode
    ensures Truthy(l.meters) ==> r.meters == l.meters
    ensures Truthy(l.price) ==> r.price == l.price
    ensures Truthy(l.rooms) ==> r.rooms == l.rooms
    ensures !Truthy(l.meters) ==> r.meters == (if ai.Some? then OrNull(ai.value.size) else None)
    ensures !Truthy(l.price) ==> r.price == (if ai.Some? then OrNull(ai.value.price) else None)
    ensures !Truthy(l.rooms) ==> r.rooms == (if ai.Some? then OrNull(ai.value.rooms) else None)
    ensures r.garden == (if HasGarden(ai) then Some(true) else None)
    ensures r.rooftarrace == (if HasRoofTerrace(ai) then Some(true) else None)
    ensures ai.None? ==> r.year.None? && r.servicecosts.None? && r.rating.None? && r.reason.None?
    ensures ai.Some? ==> r.year == OrNull(ai.value.year) && r.servicecosts == OrNull(ai.value.servicecosts)
                         && r.rating == OrNull(ai.value.rating)
    ensures ai.Some? && TruthyText(ai.value.reason) ==> r.reason == ai.value.reason
    ensures ai.Some? && !TruthyText(ai.value.reason) ==> r.reason.None?
    ensures r.meters.None? || Truthy(r.meters)
    ensures r.reason.None? || TruthyText(r.reason)
  {
    var aiSize := if ai.Some? then ai.value.size else None;
    var aiPrice := if ai.Some? then ai.value.price else None;
    var aiRooms := if ai.Some? then ai.value.rooms else None;
    Record(
      platform, l.url, l.image, floor, l.street, l.zipcode,
      Prefer(l.meters, aiSize),
      Prefer(l.price, aiPrice),
      if HasGarden(ai) then Some(true) else None,
      if HasRoofTerrace(ai) then Some(true) else None,
      if ai.Some? then OrNull(ai.value.year) else None,
      Prefer(l.rooms, aiRooms),
      if ai.Some? then OrNull(ai.value.servicecosts) else None,
      if ai.Some? then OrNull(ai.value.rating) else None,
      if ai.Some? && TruthyText(ai.value.reason) then ai.value.reason else None)
  }

  /** Everything `processResult` decides for one (already enriched) listing. */
  function Evaluate(ctx: Context, l: Listing): (e: Evaluation)
    ensures var area := AreaFor(ctx.areas, ParseIntOf(l.zipcode));
      && (e.notice.Some? <==> PassesPreFilter(area, l.meters))
      && (e.notice.Some? ==> e.notice.value.url == l.url && e.notice.value.image == l.image)
      && (e.notice.Some? ==> (e.notice.value.muted <==> area.value.likebility <= 5))
      && (e.notice.Some? ==> (DeliveredSilently(e.notice.value.options) <==> e.notice.value.muted))
      && (e.notice.Some? ==>
            e.notice.value.text == AlertText(l, FloorOf(l.floor, l.street), area.value.likebility,
                                           AiFor(ctx, l, PassesPreFilter(area, l.meters))))
    ensures e.record == ToRecord(ctx.adapter.platform, l, FloorOf(l.floor, l.street),
                                 AiFor(ctx, l, PassesPreFilter(AreaFor(ctx.areas, ParseIntOf(l.zipcode)), l.meters)))
    ensures e.record.url == l.url && e.record.platform == ctx.adapter.platform
    ensures e.record.floor == FloorOf(l.floor, l.street)
    ensures Truthy(l.meters) ==> e.record.meters == l.meters
    ensures Truthy(l.price) ==> e.record.price == l.price
    ensures Truthy(l.rooms) ==> e.record.rooms == l.rooms
    ensures ctx.adapter.aiHook.None? ==> e.record.garden.None? && e.record.rooftarrace.None? && e.record.rating.None?
  {
    var floor := FloorOf(l.floor, l.street);
    var area := AreaFor(ctx.areas, ParseIntOf(l.zipcode));
    var alert := PassesPreFilter(area, l.meters);
    var ai := AiFor(ctx, l, alert);
    var notice :=
      if alert then
        var likebility := area.value.likebility;
        var muted := Muted(likebility);
        Some(Notice(l.url, AlertText(l, floor, likebility, ai), l.image, muted, SendOptions(muted)))
      else None;
    Evaluation(ToRecord(ctx.adapter.platform, l, floor, ai), notice)
  }

  /** `INSERT OR IGNORE` on the UNIQUE url column. */
  function InsertOrIgnore(store: Store, rec: Record): (s: Store)
    ensures s.Keys == store.Keys + {rec.url}
    ensures forall u :: u in store ==> s[u] == store[u]
    ensures rec.url !in store ==> s[rec.url] == rec
  {
    if rec.url in store then store else store[rec.url := rec]
  }

  /** Inserting the same row twice is inserting it once. */
  lemma InsertOrIgnoreIdempotent(store: Store, rec: Record)
    ensures InsertOrIgnore(InsertOrIgnore(store, rec), rec) == InsertOrIgnore(store, rec)
  {
  }

  /** A row whose URL is taken leaves the store as it was. */
  lemma InsertOrIgnoreTaken(store: Store, rec: Record)
    requires rec.url in store
    ensures InsertOrIgnore(store, rec) == store
  {
  }

  /** The new store and alert after one listing. */
  function ProcessOne(ctx: Context, store: Store, l: Listing): (r: Step)
    ensures l.url in store ==> r == Step(store, None)
    ensures l.url !in store ==>
      var e := Evaluate(ctx, Enrich(ctx.adapter.enrich, l));
      r.notice == e.notice && r.store == InsertOrIgnore(store, e.record)
    ensures r.store.Keys == store.Keys + (if l.url in store then {} else {Enrich(ctx.adapter.enrich, l).url})
    ensures forall u :: u in store ==> r.store[u] == store[u]
    ensures forall u :: u in r.store && u !in store ==> r.store[u].platform == ctx.adapter.platform
  {
    if l.url in store then Step(store, None)
    else
      var e := Evaluate(ctx, Enrich(ctx.adapter.enrich, l));
      Step(InsertOrIgnore(store, e.record), e.notice)
  }

  function NoticeSeq(n: Option<Notice>): seq<Notice> {
    if n.Some? then [n.value] else []
  }

  /** `processResult` over a batch, listing by listing. */
  function ProcessBatch(ctx: Context, store: Store, batch: seq<Listing>): (o: Outcome)
    ensures store.Keys <= o.store.Keys
    ensures forall u :: u in store ==> o.store[u] == store[u]
    ensures forall u :: u in o.store && u !in store ==> o.store[u].platform == ctx.adapter.platform
    ensures |o.notices| <= |batch|
    decreases |batch|
  {
    if |batch| == 0 then Outcome(store, [])
    else
      var step := ProcessOne(ctx, store, batch[0]);
      var rest := ProcessBatch(ctx, step.store, batch[1..]);
      Outcome(rest.store, NoticeSeq(step.notice) + rest.notices)
  }

  /** The URLs of a batch. */
  function Urls(batch: seq<Listing>): set<string> {
    set k | 0 <= k < |batch| :: batch[k].url
  }

  lemma UrlsCons(batch: seq<Listing>)
    requires |batch| > 0
    ensures Urls(batch) == {batch[0].url} + Urls(batch[1..])
  {
    forall u | u in Urls(batch) ensures u in {batch[0].url} + Urls(batch[1..]) {
      var k :| 0 <= k < |batch| && batch[k].url == u;
      if k > 0 { assert batch[1..][k - 1] == batch[k]; }
    }
    forall u | u in Urls(batch[1..]) ensures u in Urls(batch) {
      var k :| 0 <= k < |batch[1..]| && batch[1..][k].url == u;
      assert batch[k + 1] == batch[1..][k];
    }
  }

  /** With a URL-keeping hook, a new listing is stored under its own URL and
      its alert names that URL. */
  lemma ProcessOneStable(ctx: Context, store: Store, l: Listing)
    requires UrlStable(ctx.adapter)
    ensures var r := ProcessOne(ctx, store, l);
      && r.store.Keys == store.Keys + {l.url}
      && (r.notice.Some? ==> r.notice.value.url == l.url && l.url !in store)
  {
    var p := Enrich(ctx.adapter.enrich, l);
    assert p.url == l.url;
  }

  /** With a URL-keeping hook, the stored URLs after a batch are the ones
      before it and the batch's own. */
  lemma {:induction false} BatchKeys(ctx: Context, store: Store, batch: seq<Listing>)
    requires UrlStable(ctx.adapter)
    ensures ProcessBatch(ctx, store, batch).store.Keys == store.Keys + Urls(batch)
    decreases |batch|
  {
    if |batch| > 0 {
      var s1 := ProcessOne(ctx, store, batch[0]).store;
      ProcessOneStable(ctx, store, batch[0]);
      BatchKeys(ctx, s1, batch[1..]);
      UrlsCons(batch);
    } else {
      assert Urls(batch) == {};
    }
  }

  /** A URL not yet stored gets the row of its first occurrence in the batch. */
  lemma {:induction false} BatchFirstOccurrence(ctx: Context, store: Store, batch: seq<Listing>, k: nat)
    requires UrlStable(ctx.adapter)
    requires k < |batch| && batch[k].url !in store
    requires forall j :: 0 <= j < k ==> batch[j].url != batch[k].url
    ensures var u := batch[k].url;
      u in ProcessBatch(ctx, store, batch).store
      && ProcessBatch(ctx, store, batch).store[u] == Evaluate(ctx, Enrich(ctx.adapter.enrich, batch[k])).record
    decreases |batch|
  {
    var l := batch[0];
    var step := ProcessOne(ctx, store, l);
    var s1, n := step.store, step.notice;
    if k == 0 {
      var e := Evaluate(ctx, Enrich(ctx.adapter.enrich, l));
      assert s1 == InsertOrIgnore(store, e.record);
      assert s1[l.url] == e.record;
    } else {
      assert s1.Keys == store.Keys + {l.url};
      assert batch[1..][k - 1] == batch[k];
      forall j | 0 <= j < k - 1 ensures batch[1..][j].url != batch[k].url {
        assert batch[1..][j] == batch[j + 1];
      }
      BatchFirstOccurrence(ctx, s1, batch[1..], k - 1);
    }
  }

  /** The alert, if any, that a listing raises when it is processed as new. */
  function AlertOf(ctx: Context, l: Listing): Option<Notice> {
    Evaluate(ctx, Enrich(ctx.adapter.enrich, l)).notice
  }

  lemma ProcessOneAlert(ctx: Context, store: Store, l: Listing)
    requires l.url !in store
    ensures ProcessOne(ctx, store, l).notice == AlertOf(ctx, l)
  {
  }

  lemma NoticeInCons(n: Option<Notice>, rest: seq<Notice>, x: Notice)
    requires n == Some(x) || x in rest
    ensures x in NoticeSeq(n) + rest
  {
    if n == Some(x) {
      assert (NoticeSeq(n) + rest)[0] == x;
    }
  }

  /** The loop of `processResult` over an arbitrary per-listing step. */
  function Loop(step: (Store, Listing) -> Step, store: Store, batch: seq<Listing>): (o: Outcome)
    ensures |o.notices| <= |batch|
    decreases |batch|
  {
    if |batch| == 0 then Outcome(store, [])
    else
      var st := step(store, batch[0]);
      var rest := Loop(step, st.store, batch[1..]);
      Outcome(rest.store, NoticeSeq(st.notice) + rest.notices)
  }

  /** `ProcessOne` as a step of `Loop`. */
  function StepOf(ctx: Context): (Store, Listing) -> Step {
    (s: Store, l: Listing) => ProcessOne(ctx, s, l)
  }

  /** `ProcessBatch` is `Loop` over `ProcessOne`. */
  lemma {:induction false} ProcessBatchIsLoop(ctx: Context, store: Store, batch: seq<Listing>)
    ensures ProcessBatch(ctx, store, batch) == Loop(StepOf(ctx), store, batch)
    decreases |batch|
  {
    if |batch| > 0 {
      var st := ProcessOne(ctx, store, batch[0]);
      assert StepOf(ctx)(store, batch[0]) == st;
      ProcessBatchIsLoop(ctx, st.store, batch[1..]);
    }
  }

  /** Running the loop over two parts, the second against the store the
      first leaves, is running it over the whole. */
  lemma {:induction false} LoopAppend(step: (Store, Listing) -> Step, store: Store, a: seq<Listing>, b: seq<Listing>)
    ensures var o1 := Loop(step, store, a);
      var o2 := Loop(step, o1.store, b);
      Loop(step, store, a + b) == Outcome(o2.store, o1.notices + o2.notices)
    decreases |a|
  {
    if |a| == 0 {
      assert a + b == b;
    } else {
      assert (a + b)[0] == a[0] && (a + b)[1..] == a[1..] + b;
      var st := step(store, a[0]);
      LoopAppend(step, st.store, a[1..], b);
      var o1 := Loop(step, st.store, a[1..]);
      var o2 := Loop(step, o1.store, b);
      assert NoticeSeq(st.notice) + (o1.notices + o2.notices) == (NoticeSeq(st.notice) + o1.notices) + o2.notices;
    }
  }

  /** The alert of the head is among the loop's alerts. */
  lemma LoopHeadNotice(step: (Store, Listing) -> Step, store: Store, batch: seq<Listing>, x: Notice)
    requires |batch| > 0 && step(store, batch[0]).notice == Some(x)
    ensures x in Loop(step, store, batch).notices
  {
    var rest := Loop(step, step(store, batch[0]).store, batch[1..]);
    NoticeInCons(step(store, batch[0]).notice, rest.notices, x);
  }

  /** The alerts of the loop from `k` on are alerts of the whole loop. */
  lemma LoopSuffixNotices(step: (Store, Listing) -> Step, store: Store, batch: seq<Listing>, k: nat, x: Notice)
    requires k <= |batch|
    requires x in Loop(step, Loop(step, store, batch[..k]).store, batch[k..]).notices
    ensures x in Loop(step, store, batch).notices
  {
    LoopAppend(step, store, batch[..k], batch[k..]);
    assert batch[..k] + batch[k..] == batch;
  }

  /** Processing a batch in two parts, the second against the store the
      first leaves, gives the store and the alerts of the whole. */
  lemma ProcessBatchAppend(ctx: Context, store: Store, a: seq<Listing>, b: seq<Listing>)
    ensures var o1 := ProcessBatch(ctx, store, a);
      var o2 := ProcessBatch(ctx, o1.store, b);
      ProcessBatch(ctx, store, a + b) == Outcome(o2.store, o1.notices + o2.notices)
  {
    var o1 := ProcessBatch(ctx, store, a);
    ProcessBatchIsLoop(ctx, store, a);
    ProcessBatchIsLoop(ctx, o1.store, b);
    ProcessBatchIsLoop(ctx, store, a + b);
    LoopAppend(StepOf(ctx), store, a, b);
  }

  /** The URL of a first occurrence is not stored by the listings before it. */
  lemma MissingBefore(ctx: Context, store: Store, batch: seq<Listing>, k: nat)
    requires UrlStable(ctx.adapter)
    requires k < |batch| && batch[k].url !in store
    requires forall j :: 0 <= j < k ==> batch[j].url != batch[k].url
    ensures batch[k].url !in ProcessBatch(ctx, store, batch[..k]).store
  {
    BatchKeys(ctx, store, batch[..k]);
    forall j | 0 <= j < |batch[..k]| ensures batch[..k][j].url != batch[k].url {
      assert batch[..k][j] == batch[j];
    }
  }

  /** A new head's alert is among the batch's alerts. */
  lemma AlertAtHead(ctx: Context, store: Store, batch: seq<Listing>, x: Notice)
    requires |batch| > 0 && batch[0].url !in store
    requires AlertOf(ctx, batch[0]) == Some(x)
    ensures x in ProcessBatch(ctx, store, batch).notices
  {
    ProcessOneAlert(ctx, store, batch[0]);
    LoopHeadNotice(StepOf(ctx), store, batch, x);
    ProcessBatchIsLoop(ctx, store, batch);
  }

  /** The alerts raised by the listings from `k` on, against the store the
      ones before `k` leave, are alerts of the batch. */
  lemma SuffixNotices(ctx: Context, store: Store, batch: seq<Listing>, k: nat, x: Notice)
    requires k <= |batch|
    requires x in ProcessBatch(ctx, ProcessBatch(ctx, store, batch[..k]).store, batch[k..]).notices
    ensures x in ProcessBatch(ctx, store, batch).notices
  {
    var s1 := ProcessBatch(ctx, store, batch[..k]).store;
    ProcessBatchIsLoop(ctx, store, batch[..k]);
    ProcessBatchIsLoop(ctx, s1, batch[k..]);
    ProcessBatchIsLoop(ctx, store, batch);
    LoopSuffixNotices(StepOf(ctx), store, batch, k, x);
  }

  /** A listing new to the store and met for the first time at `k` raises,
      within the batch, the alert it raises on its own. */
  lemma AlertInBatch(ctx: Context, store: Store, batch: seq<Listing>, k: nat, x: Notice)
    requires UrlStable(ctx.adapter)
    requires k < |batch| && batch[k].url !in store
    requires forall j :: 0 <= j < k ==> batch[j].url != batch[k].url
    requires AlertOf(ctx, batch[k]) == Some(x)
    ensures x in ProcessBatch(ctx, store, batch).notices
  {
    var s1 := ProcessBatch(ctx, store, batch[..k]).store;
    MissingBefore(ctx, store, batch, k);
    assert batch[k..][0] == batch[k];
    AlertAtHead(ctx, s1, batch[k..], x);
    SuffixNotices(ctx, store, batch, k, x);
  }

  /** Every listing that is new to the store, seen for the first time in the
      batch, and passes the pre-filter once enriched raises its alert: the
      complete direction of `BatchNotices`. */
  lemma BatchAlerts(ctx: Context, store: Store, batch: seq<Listing>, k: nat)
    requires UrlStable(ctx.adapter)
    requires k < |batch| && batch[k].url !in store
    requires forall j :: 0 <= j < k ==> batch[j].url != batch[k].url
    requires var p := Enrich(ctx.adapter.enrich, batch[k]);
      PassesPreFilter(AreaFor(ctx.areas, ParseIntOf(p.zipcode)), p.meters)
    ensures var e := Evaluate(ctx, Enrich(ctx.adapter.enrich, batch[k]));
      e.notice.Some? && e.notice.value in ProcessBatch(ctx, store, batch).notices
  {
    AlertInBatch(ctx, store, batch, k, AlertOf(ctx, batch[k]).value);
  }

  /** Raw floor area, price and rooms win over the AI's when truthy. */
  lemma StoredRawValues(ctx: Context, store: Store, batch: seq<Listing>, k: nat)
    requires UrlStable(ctx.adapter)
    requires k < |batch| && batch[k].url !in store
    requires forall j :: 0 <= j < k ==> batch[j].url != batch[k].url
    ensures var p := Enrich(ctx.adapter.enrich, batch[k]);
      var o := ProcessBatch(ctx, store, batch);
      && batch[k].url in o.store
      && var r := o.store[batch[k].url];
      && r.url == batch[k].url && r.platform == ctx.adapter.platform
      && (Truthy(p.meters) ==> r.meters == p.meters)
      && (Truthy(p.price) ==> r.price == p.price)
      && (Truthy(p.rooms) ==> r.rooms == p.rooms)
  {
    BatchFirstOccurrence(ctx, store, batch, k);
  }

  /** Every alert is about a URL of `urls` that `store` does not hold. */
  predicate NoticesFresh(ns: seq<Notice>, urls: set<string>, store: Store) {
    forall i :: 0 <= i < |ns| ==> ns[i].url in urls && ns[i].url !in store
  }

  /** No two alerts are about the same URL. */
  predicate NoticesDistinct(ns: seq<Notice>) {
    forall i, j :: 0 <= i < j < |ns| ==> ns[i].url != ns[j].url
  }

  lemma FreshCons(n: Option<Notice>, rest: seq<Notice>, urls: set<string>, urls1: set<string>,
                  store: Store, s1: Store)
    requires n.Some? ==> n.value.url in urls && n.value.url !in store
    requires urls1 <= urls && store.Keys <= s1.Keys
    requires NoticesFresh(rest, urls1, s1)
    ensures NoticesFresh(NoticeSeq(n) + rest, urls, store)
  {
    var ns := NoticeSeq(n) + rest;
    var m := |NoticeSeq(n)|;
    forall i | 0 <= i < |ns| ensures ns[i].url in urls && ns[i].url !in store {
      if i < m {
        assert ns[i] == n.value;
      } else {
        assert ns[i] == rest[i - m];
      }
    }
  }

  lemma DistinctCons(n: Option<Notice>, rest: seq<Notice>, urls1: set<string>, s1: Store)
    requires n.Some? ==> n.value.url in s1
    requires NoticesFresh(rest, urls1, s1) && NoticesDistinct(rest)
    ensures NoticesDistinct(NoticeSeq(n) + rest)
  {
    var ns := NoticeSeq(n) + rest;
    var m := |NoticeSeq(n)|;
    forall i, j | 0 <= i < j < |ns| ensures ns[i].url != ns[j].url {
      assert ns[j] == rest[j - m];
      if i < m {
        assert ns[i] == n.value;
      } else {
        assert ns[i] == rest[i - m];
      }
    }
  }

  /** Alerts are raised only for URLs of the batch that were not stored
      before, and at most one per URL. */
  lemma {:induction false} BatchNotices(ctx: Context, store: Store, batch: seq<Listing>)
    requires UrlStable(ctx.adapter)
    ensures var ns := ProcessBatch(ctx, store, batch).notices;
      NoticesFresh(ns, Urls(batch), store) && NoticesDistinct(ns)
    decreases |batch|
  {
    if |batch| > 0 {
      var l := batch[0];
      var step := ProcessOne(ctx, store, l);
      var rest := ProcessBatch(ctx, step.store, batch[1..]).notices;
      BatchNotices(ctx, step.store, batch[1..]);
      ProcessOneStable(ctx, store, l);
      UrlsCons(batch);
      FreshCons(step.notice, rest, Urls(batch), Urls(batch[1..]), store, step.store);
      DistinctCons(step.notice, rest, Urls(batch[1..]), step.store);
    }
  }

  /** Running the same batch again stores nothing new and raises no alert. */
  lemma {:induction false} BatchRerun(ctx: Context, store: Store, batch: seq<Listing>)
    requires UrlStable(ctx.adapter)
    ensures var s := ProcessBatch(ctx, store, batch).store;
      ProcessBatch(ctx, s, batch) == Outcome(s, [])
  {
    var s := ProcessBatch(ctx, store, batch).store;
    BatchKeys(ctx, store, batch);
    BatchKnown(ctx, s, batch);
  }

  /** A batch whose URLs are all stored changes nothing. */
  lemma {:induction false} BatchKnown(ctx: Context, store: Store, batch: seq<Listing>)
    requires forall k :: 0 <= k < |batch| ==> batch[k].url in store
    ensures ProcessBatch(ctx, store, batch) == Outcome(store, [])
    decreases |batch|
  {
    if |batch| > 0 {
      assert batch[0].url in store;
      forall k | 0 <= k < |batch[1..]| ensures batch[1..][k].url in store {
        assert batch[1..][k] == batch[k + 1];
      }
      BatchKnown(ctx, store, batch[1..]);
    }
  }

  /** `processResult` as written: the AI gate reads the undeclared `cconfig`,
      so the first listing whose URL is not stored throws, after its
      enrichment and area lookup and before anything is stored or sent;
      listings already stored before it were skipped. */
  function ProcessBatchAsWritten(ctx: Context, store: Store, batch: seq<Listing>): (r: Result<Outcome, string>)
    ensures r.Failure? ==> r.error == CconfigError
    decreases |batch|
  {
    if |batch| == 0 then Success(Outcome(store, []))
    else if batch[0].url in store then ProcessBatchAsWritten(ctx, store, batch[1..])
    else
      var p := Enrich(ctx.adapter.enrich, batch[0]);
      var alert := PassesPreFilter(AreaFor(ctx.areas, ParseIntOf(p.zipcode)), p.meters);
      match AiGateAsWritten(ctx.adapter.aiHook.Some?, alert, ctx.devMode)
      case Failure(e) => Failure(e)
      case Success(_) => assert false; Failure(CconfigError)
  }

  /** As written, a batch gets through only when every URL in it is already
      stored, and then it changes nothing: no listing is ever stored or
      alerted. */
  lemma {:induction false} AsWrittenNeverStores(ctx: Context, store: Store, batch: seq<Listing>)
    ensures var r := ProcessBatchAsWritten(ctx, store, batch);
      && (r.Success? <==> forall k :: 0 <= k < |batch| ==> batch[k].url in store)
      && (r.Success? ==> r.value == Outcome(store, []))
    decreases |batch|
  {
    if |batch| > 0 {
      forall k | 0 <= k < |batch[1..]| ensures batch[1..][k] == batch[k + 1] { }
      if batch[0].url in store {
        AsWrittenNeverStores(ctx, store, batch[1..]);
      }
    }
  }

  /** The corrected pipeline, on the same input, stores a listing that the
      as-written one fails on. */
  lemma AsWrittenLosesNewListing(ctx: Context, l: Listing)
    requires UrlStable(ctx.adapter)
    ensures ProcessBatchAsWritten(ctx, map[], [l]).Failure?
    ensures l.url in ProcessBatch(ctx, map[], [l]).store
  {
    AsWrittenNeverStores(ctx, map[], [l]);
    BatchKeys(ctx, map[], [l]);
    assert l.url in Urls([l]) by { assert [l][0].url == l.url; }
  }

  /** The postal code "1011" reads as the number 1011. */
  lemma ScenarioZipcode()
    ensures ParseIntOf(Some("1011")) == Some(1011)
  {
    var s1 := ['1'];
    var s2 := s1 + ['0'];
    var s3 := s2 + ['1'];
    var s4 := s3 + ['1'];
    assert s4 == "1011";
    assert s1[..0] == [] && s2[..1] == s1 && s3[..2] == s2 && s4[..3] == s3;
    assert ValueIn(s1, 10) == 1;
    assert ValueIn(s2, 10) == 10;
    assert ValueIn(s3, 10) == 101;
    assert ValueIn(s4, 10) == 1011;
    assert IsDigitString(s4) by {
      assert forall i :: 0 <= i < |s4| ==> IsDigit(s4[i]);
    }
    ParseIntOfDigits(s4);
  }

  /** The area table entry for postal code 1011 is found from the text "1011". */
  lemma ScenarioArea(areas: seq<Area>)
    requires areas == [Area(1011, 9)]
    ensures AreaFor(areas, ParseIntOf(Some("1011"))) == Some(Area(1011, 9))
  {
    ScenarioZipcode();
    assert areas[0].code == 1011;
  }

  /** A price of 450000 shows as €450k. */
  lemma ScenarioPriceSegment()
    ensures PriceSegment(Some(450000)) == Some("\U{20AC}450k")
  {
    assert RoundHalfUp(450000, 1000) == 450;
    assert NatToString(4) == "4";
    assert NatToString(45) == NatToString(4) + [DigitChar(5)] == "45";
    assert NatToString(450) == NatToString(45) + [DigitChar(0)] == "450";
    assert IntToString(450) == "450";
    assert "\U{20AC}" + "450" + "k" == "\U{20AC}450k";
  }

  /** A price of 450000 for 65 m² shows as €6923/m2. */
  lemma ScenarioPricePerMeterSegment()
    ensures PricePerMeterSegment(Some(450000), Some(65)) == Some("\U{20AC}6923/m2")
  {
    assert RoundHalfUp(450000, 65) == 6923;
    assert NatToString(6) == "6";
    assert NatToString(69) == NatToString(6) + [DigitChar(9)] == "69";
    assert NatToString(692) == NatToString(69) + [DigitChar(2)] == "692";
    assert NatToString(6923) == NatToString(692) + [DigitChar(3)] == "6923";
    assert IntToString(6923) == "6923";
    assert "\U{20AC}" + "6923" + "/m2" == "\U{20AC}6923/m2";
  }

  /** A listing on the third floor of a liked area, with a known price and
      floor area and no hooks, raises an audible alert and is stored with its
      floor and its raw values. */
  lemma ScenarioThirdFloor(ctx: Context, l: Listing)
    requires l == Listing("https://example.nl/1", None, "Hoofdstraat 12-3", Some("1011"),
                          Some(65), Some(450000), None, None, None)
    requires ctx.areas == [Area(1011, 9)] && ctx.adapter.aiHook.None?
    ensures var e := Evaluate(ctx, l);
      && e.notice.Some? && !e.notice.value.muted
      && e.record.floor == Some(3) && e.record.meters == Some(65) && e.record.price == Some(450000)
      && e.record.garden.None? && e.record.rating.None?
  {
    FloorDigitSuffixExample();
    ScenarioArea(ctx.areas);
  }

  /** The alert of the same listing shows its price as €450k and its price
      per square metre as €6923/m2 on the summary line. */
  lemma ScenarioAlertText(ctx: Context, l: Listing)
    requires l == Listing("https://example.nl/1", None, "Hoofdstraat 12-3", Some("1011"),
                          Some(65), Some(450000), None, None, None)
    requires ctx.areas == [Area(1011, 9)] && ctx.adapter.aiHook.None?
    ensures var e := Evaluate(ctx, l);
      && e.notice.Some? && e.notice.value.text == AlertText(l, Some(3), 9, None)
      && "\U{20AC}450k" in Segments(l, Some(3), 9, None)
      && "\U{20AC}6923/m2" in Segments(l, Some(3), 9, None)
  {
    ScenarioThirdFloor(ctx, l);
    ScenarioArea(ctx.areas);
    FloorDigitSuffixExample();
    AiGateIntended(ctx, l, true);
    ScenarioPriceSegment();
    ScenarioPricePerMeterSegment();
    SegmentsContents(l, Some(3), 9, None);
  }
}
