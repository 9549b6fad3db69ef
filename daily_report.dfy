/**
 * The daily-report cron job: after authorisation it fetches all three
 * resorts once, selects the subscribers whose stay covers today, and mails
 * each of them either a single-resort report or a digest led by the resort
 * with the most new snow, counting sends and failures.
 */
module DailyReport {
  import opened Wrappers
  import opened JsStrings
  import opened JsNumbers
  import opened Lists
  import opened MountainTypes
  import Stratton
  import VailResorts
  import MountainRoute

  // ---- authorisation ----

  /**
   * The check as written: the header must equal `Bearer ` followed by the
   * secret as a template string prints it, which for an unset secret is
   * the text `undefined`.
   */
  predicate AuthorizedAsWritten(header: Option<string>, secret: Option<string>) {
    header == Some("Bearer " + (if secret.Some? then secret.value else "undefined"))
  }

  /** With no secret configured, anyone sending `Bearer undefined` is let in. */
  lemma UnsetSecretAdmitsAnyone()
    ensures AuthorizedAsWritten(Some("Bearer undefined"), None)
  {
    assert "Bearer " + "undefined" == "Bearer undefined";
  }

  /** The intended check: a secret must be configured and the header must carry it. */
  predicate Authorized(header: Option<string>, secret: Option<string>) {
    secret.Some? && header == Some("Bearer " + secret.value)
  }

  /**
   * The corrected check admits a request only with the configured secret,
   * never without one, and agrees with the written check whenever a secret
   * is configured.
   */
  lemma AuthorizedSpec(header: Option<string>, secret: Option<string>)
    ensures Authorized(header, secret) ==> secret.Some? && header.Some? && header.value[7..] == secret.value
    ensures secret.None? ==> !Authorized(header, secret)
    ensures secret.Some? ==> (Authorized(header, secret) <==> AuthorizedAsWritten(header, secret))
  {
  }

  // ---- the data map ----

  /** `dataMap[slug]`: an unlisted slug is `undefined`, a failed adapter `null`. */
  datatype DataEntry = Missing | Null | Present(data: MountainData)

  datatype DataMap = DataMap(mountSnow: Option<MountainData>, okemo: Option<MountainData>, stratton: Option<MountainData>)

  /** `.catch(e => null)`: a failing adapter leaves `null`. */
  function OrNull(r: Result<MountainData>): (o: Option<MountainData>)
    ensures r.Success? <==> o.Some?
    ensures r.Success? ==> o.value == r.value
  {
    if r.Success? then Some(r.value) else None
  }

  /** All three adapters run once, before any subscriber is looked at. */
  function BuildDataMap(up: MountainRoute.Upstream, now: string): DataMap {
    DataMap(
      OrNull(VailResorts.VailResortData("mount-snow", up.mountSnow, now)),
      OrNull(VailResorts.VailResortData("okemo", up.okemo, now)),
      OrNull(Stratton.StrattonData(up.stratton, now)))
  }

  function Entry(o: Option<MountainData>): DataEntry {
    if o.Some? then Present(o.value) else Null
  }

  function DataFor(dm: DataMap, slug: string): (e: DataEntry)
    ensures e.Missing? <==> slug != "mount-snow" && slug != "okemo" && slug != "stratton"
  {
    match slug
    case "mount-snow" => Entry(dm.mountSnow)
    case "okemo" => Entry(dm.okemo)
    case "stratton" => Entry(dm.stratton)
    case _ => Missing
  }

  // ---- subscribers ----

  datatype Subscriber = Subscriber(email: string, resorts: Option<seq<string>>, startDate: string, endDate: string)

  /** `start_date <= today <= end_date` on ISO date texts. */
  predicate Active(s: Subscriber, today: string) {
    !Less(today, s.startDate) && !Less(s.endDate, today)
  }

  /** `toISOString().split('T')[0]`: the text before the first `T`. */
  function DatePart(iso: string): (d: string)
    ensures |d| <= |iso| && d == iso[..|d|]
    ensures 'T' !in d
    ensures |d| < |iso| ==> iso[|d|] == 'T'
  {
    if |iso| == 0 || iso[0] == 'T' then "" else [iso[0]] + DatePart(iso[1..])
  }

  /** `sub.resorts || []`. */
  function ResortsOf(s: Subscriber): seq<string> {
    if s.resorts.Some? then s.resorts.value else []
  }

  // ---- the winner ----

  /** `x` ranks strictly above `y`; `NaN` ranks below every number. */
  predicate Above(x: Number, y: Number) {
    x.Fin? && (y.NaN? || x.r > y.r)
  }

  function Snow(d: MountainData): Number {
    d.snowReport.snow24hIn
  }

  /**
   * The index of the digest's leader: no resort has more new snow, and every
   * earlier resort has less, so ties go to the first in the subscriber's order.
   */
  function WinnerIndex(ds: seq<MountainData>): (k: nat)
    requires |ds| > 0
    ensures k < |ds|
    ensures forall j :: 0 <= j < |ds| ==> !Above(Snow(ds[j]), Snow(ds[k]))
    ensures forall j :: 0 <= j < k ==> Above(Snow(ds[k]), Snow(ds[j]))
  {
    if |ds| == 1 then 0
    else
      var k := WinnerIndex(ds[..|ds| - 1]);
      if Above(Snow(ds[|ds| - 1]), Snow(ds[k])) then |ds| - 1 else k
  }

  // ---- one subscriber ----

  datatype Email = Single(to: string, data: MountainData) | Digest(to: string, leader: MountainData, resorts: seq<MountainData>)

  /** What the loop body does for one subscriber. */
  datatype Action = Skip | Send(email: Email) | Fail

  predicate NotNull(e: DataEntry) { !e.Null? }

  /** `userResorts.map(slug => dataMap[slug]).filter(d => d !== null)`: `undefined` entries stay. */
  function Relevant(dm: DataMap, resorts: seq<string>): seq<DataEntry> {
    Filter(Map(resorts, (slug: string) => DataFor(dm, slug)), NotNull)
  }

  predicate HasMissing(es: seq<DataEntry>) {
    exists i :: 0 <= i < |es| && es[i].Missing?
  }

  function Datas(es: seq<DataEntry>): (ds: seq<MountainData>)
    requires forall i :: 0 <= i < |es| ==> es[i].Present?
    ensures |ds| == |es| && forall i :: 0 <= i < |es| ==> ds[i] == es[i].data
  {
    seq(|es|, i requires 0 <= i < |es| => es[i].data)
  }

  /**
   * No resorts: skipped.  One resort: a report when its data is there,
   * otherwise nothing.  Several: nothing when every entry is `null`; a
   * failure when an `undefined` entry (an unlisted slug) is left, since
   * reading its fields throws; otherwise a digest of the resorts in order.
   */
  function Plan(dm: DataMap, s: Subscriber): (a: Action)
    ensures |ResortsOf(s)| == 0 ==> a == Skip
    ensures a.Send? ==> a.email.to == s.email && (a.email.Single? <==> |ResortsOf(s)| == 1)
  {
    var resorts := ResortsOf(s);
    if |resorts| == 0 then Skip
    else if |resorts| == 1 then
      match DataFor(dm, resorts[0])
      case Present(d) => Send(Single(s.email, d))
      case _ => Skip
    else
      var relevant := Relevant(dm, resorts);
      if |relevant| == 0 then Skip
      else if HasMissing(relevant) then Fail
      else
        var ds := Datas(relevant);
        Send(Digest(s.email, ds[WinnerIndex(ds)], ds))
  }

  datatype Tally = Tally(sent: nat, failed: nat, emails: seq<Email>)

  /** One step of the loop: a send adds one to `sent` and an email, a caught exception one to `failed`. */
  function Apply(t: Tally, a: Action): Tally {
    match a
    case Skip => t
    case Fail => t.(failed := t.failed + 1)
    case Send(e) => Tally(t.sent + 1, t.failed, t.emails + [e])
  }

  /** The counters and the outbox after a run of actions. */
  function TallyOf(acts: seq<Action>): Tally {
    if |acts| == 0 then Tally(0, 0, []) else Apply(TallyOf(acts[..|acts| - 1]), acts[|acts| - 1])
  }

  function Actions(dm: DataMap, subs: seq<Subscriber>): (acts: seq<Action>)
    ensures |acts| == |subs| && forall i :: 0 <= i < |subs| ==> acts[i] == Plan(dm, subs[i])
  {
    seq(|subs|, i requires 0 <= i < |subs| => Plan(dm, subs[i]))
  }

  /** The loop's effect on the counters and the outbox, subscriber by subscriber. */
  function RunAll(dm: DataMap, subs: seq<Subscriber>): Tally {
    TallyOf(Actions(dm, subs))
  }

  /** The `for` loop over the subscribers. */
  method SendReports(dm: DataMap, subs: seq<Subscriber>) returns (sent: nat, failed: nat, emails: seq<Email>)
    ensures Tally(sent, failed, emails) == RunAll(dm, subs)
  {
    ghost var acts := Actions(dm, subs);
    sent, failed, emails := 0, 0, [];
    var i := 0;
    while i < |subs|
      invariant 0 <= i <= |subs|
      invariant Tally(sent, failed, emails) == TallyOf(acts[..i])
    {
      assert acts[..i + 1][..i] == acts[..i];
      var sub := subs[i];
      var userResorts := ResortsOf(sub);
      if |userResorts| == 0 {
        i := i + 1;
        continue;
      }
      var action := Plan(dm, sub);
      match action {
        case Skip =>
        case Fail =>
          failed := failed + 1;
        case Send(e) =>
          emails := emails + [e];
          sent := sent + 1;
      }
      i := i + 1;
    }
    assert acts[..i] == acts;
  }

  // ---- the request ----

  datatype Query = QueryFailed(message: string) | Rows(rows: seq<Subscriber>)

  datatype Response =
    | Unauthorized
    | Skipped
    | NoSubscribers
    | Processed(subscribers: nat, sent: nat, failed: nat)
    | CriticalError(message: string)

  /** The database's answer to the active-subscriber query for `today`. */
  function ActiveRows(q: Query, today: string): Query {
    match q
    case QueryFailed(m) => QueryFailed(m)
    case Rows(rows) => Rows(Filter(rows, (s: Subscriber) => Active(s, today)))
  }

  /**
   * Everything after the authorisation check: skipped without a database,
   * the query's error message when it fails, nothing to do without active
   * subscribers, and otherwise the loop's counters and outbox.
   */
  function Serve(databaseConfigured: bool, up: MountainRoute.Upstream, table: Query, now: string)
    : (r: (Response, seq<Email>))
    ensures !databaseConfigured ==> r == (Skipped, [])
    ensures !r.0.Processed? ==> r.1 == []
    ensures r.0.Processed? ==> r.0.subscribers > 0 && r.0.sent + r.0.failed <= r.0.subscribers && |r.1| == r.0.sent
  {
    if !databaseConfigured then (Skipped, [])
    else
      var dm := BuildDataMap(up, now);
      match ActiveRows(table, DatePart(now))
      case QueryFailed(m) => (CriticalError(m), [])
      case Rows(subs) =>
        if |subs| == 0 then (NoSubscribers, [])
        else
          var t := RunAll(dm, subs);
          RunAllSpec(dm, subs);
          (Processed(|subs|, t.sent, t.failed), t.emails)
  }

  /** The whole request as written, with the emails it sends. */
  function Run(header: Option<string>, secret: Option<string>, databaseConfigured: bool,
               up: MountainRoute.Upstream, table: Query, now: string): (r: (Response, seq<Email>))
    ensures !AuthorizedAsWritten(header, secret) ==> r == (Unauthorized, [])
    ensures AuthorizedAsWritten(header, secret) ==> r == Serve(databaseConfigured, up, table, now)
  {
    if !AuthorizedAsWritten(header, secret) then (Unauthorized, [])
    else Serve(databaseConfigured, up, table, now)
  }

  /** The whole request with the corrected authorisation. */
  function RunFixed(header: Option<string>, secret: Option<string>, databaseConfigured: bool,
                    up: MountainRoute.Upstream, table: Query, now: string): (r: (Response, seq<Email>))
    ensures !Authorized(header, secret) ==> r == (Unauthorized, [])
    ensures Authorized(header, secret) ==> r == Serve(databaseConfigured, up, table, now)
  {
    if !Authorized(header, secret) then (Unauthorized, [])
    else Serve(databaseConfigured, up, table, now)
  }

  /** The handler: authorise, fetch, query, then the loop. */
  method Get(header: Option<string>, secret: Option<string>, databaseConfigured: bool,
             up: MountainRoute.Upstream, table: Query, now: string)
    returns (resp: Response, outbox: seq<Email>)
    ensures (resp, outbox) == Run(header, secret, databaseConfigured, up, table, now)
  {
    if !AuthorizedAsWritten(header, secret) {
      return Unauthorized, [];
    }
    if !databaseConfigured {
      return Skipped, [];
    }
    var mountSnow := VailResorts.GetVailResortData("mount-snow", up.mountSnow, now);
    var okemo := VailResorts.GetVailResortData("okemo", up.okemo, now);
    var stratton := Stratton.GetStrattonData(up.stratton, now);
    var dm := DataMap(OrNull(mountSnow), OrNull(okemo), OrNull(stratton));
    var today := DatePart(now);
    var query := ActiveRows(table, today);
    if query.QueryFailed? {
      return CriticalError(query.message), [];
    }
    var subs := query.rows;
    if |subs| == 0 {
      return NoSubscribers, [];
    }
    var sent, failed;
    sent, failed, outbox := SendReports(dm, subs);
    resp := Processed(|subs|, sent, failed);
  }

  // ---- what the job promises ----

  /**
   * With the corrected check, a request without the configured secret, and
   * any request at all when no secret is configured, sends nothing.
   */
  lemma UnauthorizedSendsNothing(header: Option<string>, secret: Option<string>, db: bool,
                                 up: MountainRoute.Upstream, table: Query, now: string)
    requires secret.None? || header != Some("Bearer " + secret.value)
    ensures RunFixed(header, secret, db, up, table, now) == (Unauthorized, [])
  {
  }

  /**
   * Where the two handlers part: with no secret configured, `Bearer
   * undefined` gets past the written check and the job runs, while the
   * corrected handler refuses it.
   */
  lemma UnsetSecretRunsJob(up: MountainRoute.Upstream, table: Query, now: string)
    ensures Run(Some("Bearer undefined"), None, true, up, table, now) == Serve(true, up, table, now)
    ensures Serve(true, up, table, now).0 != Unauthorized
    ensures RunFixed(Some("Bearer undefined"), None, true, up, table, now) == (Unauthorized, [])
  {
    UnsetSecretAdmitsAnyone();
  }

  /** Once a secret is configured, the written and the corrected handler agree on every request. */
  lemma HandlersAgreeWithSecret(header: Option<string>, secret: Option<string>, db: bool,
                                up: MountainRoute.Upstream, table: Query, now: string)
    requires secret.Some?
    ensures Run(header, secret, db, up, table, now) == RunFixed(header, secret, db, up, table, now)
  {
    AuthorizedSpec(header, secret);
  }

  /** A failing adapter turns into a `null` entry; it never stops the run. */
  lemma AdapterFailureIsNull(up: MountainRoute.Upstream, now: string)
    ensures var dm := BuildDataMap(up, now);
      && (DataFor(dm, "okemo").Null? <==> VailResorts.VailResortData("okemo", up.okemo, now).Failure?)
      && (DataFor(dm, "mount-snow").Null? <==> VailResorts.VailResortData("mount-snow", up.mountSnow, now).Failure?)
      && (DataFor(dm, "stratton").Null? <==> Stratton.StrattonData(up.stratton, now).Failure?)
  {
    var dm := BuildDataMap(up, now);
    assert DataFor(dm, "okemo") == Entry(dm.okemo);
    assert DataFor(dm, "mount-snow") == Entry(dm.mountSnow);
    assert DataFor(dm, "stratton") == Entry(dm.stratton);
  }

  /** The query keeps exactly the subscribers whose stay covers today. */
  lemma ActiveRowsSpec(rows: seq<Subscriber>, today: string, s: Subscriber)
    ensures s in ActiveRows(Rows(rows), today).rows <==> s in rows && Active(s, today)
  {
    FilterMembers(rows, (s: Subscriber) => Active(s, today), s);
  }

  /** A one-resort subscriber gets one report exactly when that resort's data is there; it never fails. */
  lemma SingleResortRule(dm: DataMap, s: Subscriber)
    requires |ResortsOf(s)| == 1
    ensures Plan(dm, s).Send? <==> DataFor(dm, ResortsOf(s)[0]).Present?
    ensures !Plan(dm, s).Fail?
    ensures Plan(dm, s).Send? ==> Plan(dm, s).email == Single(s.email, DataFor(dm, ResortsOf(s)[0]).data)
  {
  }

  /**
   * A subscriber's run fails exactly when the subscriber has several resorts
   * and one of the slugs names none of the three resorts: its `undefined`
   * entry survives the `null` filter and reading its fields throws.
   */
  lemma FailureNeedsUnlistedSlug(dm: DataMap, s: Subscriber)
    ensures Plan(dm, s).Fail? <==>
      |ResortsOf(s)| > 1 && exists i :: 0 <= i < |ResortsOf(s)| && DataFor(dm, ResortsOf(s)[i]).Missing?
  {
    var resorts := ResortsOf(s);
    var mapped := Map(resorts, (slug: string) => DataFor(dm, slug));
    var relevant := Relevant(dm, resorts);
    if Plan(dm, s).Fail? {
      var k :| 0 <= k < |relevant| && relevant[k].Missing?;
      FilterMembers(mapped, NotNull, relevant[k]);
      var i :| 0 <= i < |mapped| && mapped[i] == relevant[k];
      assert DataFor(dm, resorts[i]).Missing?;
    }
    if |resorts| > 1 && exists i :: 0 <= i < |resorts| && DataFor(dm, resorts[i]).Missing? {
      var i :| 0 <= i < |resorts| && DataFor(dm, resorts[i]).Missing?;
      assert mapped[i] == Missing;
      FilterMembers(mapped, NotNull, Missing);
      var k :| 0 <= k < |relevant| && relevant[k] == Missing;
      assert HasMissing(relevant);
    }
  }

  /**
   * A digest lists exactly the resorts whose data is there, in the
   * subscriber's order; its leader has the most new snow, and is the first
   * such resort, every earlier one having strictly less.
   */
  lemma DigestSpec(dm: DataMap, s: Subscriber)
    requires |ResortsOf(s)| > 1 && Plan(dm, s).Send?
    ensures var e := Plan(dm, s).email;
      && e.Digest? && e.to == s.email
      && |e.resorts| == CountWhere(Map(ResortsOf(s), (slug: string) => DataFor(dm, slug)), NotNull) > 0
      && Map(e.resorts, (d: MountainData) => Present(d)) == Filter(Map(ResortsOf(s), (slug: string) => DataFor(dm, slug)), NotNull)
      && (forall d :: d in e.resorts ==> exists i :: 0 <= i < |ResortsOf(s)| && DataFor(dm, ResortsOf(s)[i]) == Present(d))
      && e.leader in e.resorts
      && (forall d :: d in e.resorts ==> !Above(Snow(d), Snow(e.leader)))
      && exists k :: 0 <= k < |e.resorts| && e.leader == e.resorts[k]
           && forall j :: 0 <= j < k ==> Above(Snow(e.leader), Snow(e.resorts[j]))
  {
    var resorts := ResortsOf(s);
    var mapped := Map(resorts, (slug: string) => DataFor(dm, slug));
    var relevant := Relevant(dm, resorts);
    var ds := Datas(relevant);
    var e := Plan(dm, s).email;
    assert e.resorts == ds;
    assert Map(ds, (d: MountainData) => Present(d)) == relevant by {
      forall i | 0 <= i < |relevant|
        ensures relevant[i].Present?
      {
        assert !HasMissing(relevant);
        assert !relevant[i].Missing?;
      }
    }
    forall d | d in ds
      ensures exists i :: 0 <= i < |resorts| && DataFor(dm, resorts[i]) == Present(d)
    {
      var k :| 0 <= k < |ds| && ds[k] == d;
      FilterMembers(mapped, NotNull, relevant[k]);
      var i :| 0 <= i < |mapped| && mapped[i] == relevant[k];
      assert DataFor(dm, resorts[i]) == Present(d);
    }
    var k := WinnerIndex(ds);
    assert e.leader == ds[k];
  }

  /** Every action adds at most one to the counters, and each send is one email. */
  lemma {:induction false} CountersBounded(acts: seq<Action>)
    ensures var t := TallyOf(acts);
      && t.sent + t.failed <= |acts|
      && |t.emails| == t.sent
      && t.sent == CountWhere(acts, (a: Action) => a.Send?)
      && t.failed == CountWhere(acts, (a: Action) => a.Fail?)
    decreases |acts|
  {
    if |acts| > 0 {
      CountersBounded(acts[..|acts| - 1]);
    }
  }

  /** The outbox holds the planned emails, in the order of the actions. */
  lemma {:induction false} OutboxIsPlanned(acts: seq<Action>)
    ensures forall i :: 0 <= i < |TallyOf(acts).emails| ==>
      exists j :: 0 <= j < |acts| && acts[j] == Send(TallyOf(acts).emails[i])
    decreases |acts|
  {
    if |acts| > 0 {
      var init := acts[..|acts| - 1];
      var last := acts[|acts| - 1];
      OutboxIsPlanned(init);
      var before := TallyOf(init).emails;
      var emails := TallyOf(acts).emails;
      assert emails == if last.Send? then before + [last.email] else before;
      forall i | 0 <= i < |emails|
        ensures exists j :: 0 <= j < |acts| && acts[j] == Send(emails[i])
      {
        if i < |before| {
          assert emails[i] == before[i];
          var j :| 0 <= j < |init| && init[j] == Send(before[i]);
          assert acts[j] == init[j];
        } else {
          assert acts[|acts| - 1] == Send(emails[i]);
        }
      }
      assert forall i :: 0 <= i < |emails| ==> exists j :: 0 <= j < |acts| && acts[j] == Send(emails[i]);
    } else {
      assert TallyOf(acts).emails == [];
    }
  }

  /**
   * Over the subscribers: at most one send or failure each, `sent` counts the
   * subscribers planned a send and `failed` those planned a failure, and
   * every email sent is the one planned for a subscriber.
   */
  lemma RunAllSpec(dm: DataMap, subs: seq<Subscriber>)
    ensures var t := RunAll(dm, subs);
      && t.sent + t.failed <= |subs|
      && |t.emails| == t.sent
      && t.sent == CountWhere(Actions(dm, subs), (a: Action) => a.Send?)
      && t.failed == CountWhere(Actions(dm, subs), (a: Action) => a.Fail?)
      && (forall i :: 0 <= i < |t.emails| ==> exists j :: 0 <= j < |subs| && Plan(dm, subs[j]) == Send(t.emails[i]))
  {
    CountersBounded(Actions(dm, subs));
    OutboxIsPlanned(Actions(dm, subs));
  }
}
