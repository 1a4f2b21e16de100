/** The lifecycle of infrastructure flags and the rate of their notification emails. */
module InfraFlags {
  import opened Base

  datatype Status = Open | Acknowledged | Resolved
  datatype Severity = Warning | Critical

  datatype Candidate = Candidate(metric: string, value: real, threshold: real, severity: Severity)

  datatype Flag = Flag(resource: string, metric: string, value: real, threshold: real, severity: Severity,
                       status: Status, lastNotifiedAt: Option<int>)

  /** One notification, sent to every recipient, about the flag at this index. */
  datatype Email = Email(flag: nat, at: int)

  /** Renotify periods in hours; both are configured as positive. */
  datatype Config = Config(alertHours: nat, lowUsageHours: nat)

  function RenotifyMs(cfg: Config, metric: string): nat {
    (if metric == "memLowPct" then cfg.lowUsageHours else cfg.alertHours) * 60 * 60 * 1000
  }

  predicate Live(f: Flag) {
    f.status != Resolved
  }

  predicate LiveFor(f: Flag, resource: string, metric: string) {
    Live(f) && f.resource == resource && f.metric == metric
  }

  /** Rows are kept in creation order. */
  datatype Store = Store(flags: seq<Flag>, emails: seq<Email>)

  /** The most recent live flag of a resource and metric. */
  function FindLive(flags: seq<Flag>, resource: string, metric: string): (found: Option<nat>)
    ensures found.Some? ==> found.value < |flags| && LiveFor(flags[found.value], resource, metric)
    ensures found.None? ==> forall i :: 0 <= i < |flags| ==> !LiveFor(flags[i], resource, metric)
  {
    if flags == [] then None
    else if LiveFor(flags[|flags| - 1], resource, metric) then Some(|flags| - 1)
    else FindLive(flags[..|flags| - 1], resource, metric)
  }

  function Refreshed(f: Flag, c: Candidate): Flag {
    f.(value := c.value, threshold := c.threshold, severity := c.severity)
  }

  predicate Due(f: Flag, cfg: Config, now: int) {
    f.lastNotifiedAt.None? || now - f.lastNotifiedAt.value > RenotifyMs(cfg, f.metric)
  }

  function Upsert(s: Store, cfg: Config, resource: string, c: Candidate, now: int): Store {
    match FindLive(s.flags, resource, c.metric)
    case Some(i) =>
      var f := Refreshed(s.flags[i], c);
      if Due(s.flags[i], cfg, now) then
        Store(s.flags[i := f.(lastNotifiedAt := Some(now))], s.emails + [Email(i, now)])
      else
        s.(flags := s.flags[i := f])
    case None =>
      var f := Flag(resource, c.metric, c.value, c.threshold, c.severity, Open, Some(now));
      Store(s.flags + [f], s.emails + [Email(|s.flags|, now)])
  }

  function Cleared(f: Flag, resource: string, metrics: set<string>): Flag {
    if f.resource == resource && Live(f) && f.metric !in metrics then f.(status := Resolved) else f
  }

  function AutoResolve(s: Store, resource: string, metrics: set<string>): Store {
    s.(flags := seq(|s.flags|, i requires 0 <= i < |s.flags| => Cleared(s.flags[i], resource, metrics)))
  }

  function SetStatus(s: Store, i: nat, status: Status): Store
    requires i < |s.flags|
  {
    s.(flags := s.flags[i := s.flags[i].(status := status)])
  }

  /** Steps of ticks and of administrators. A tick may fail after any of its steps. */
  datatype Event =
    | Detect(resource: string, candidate: Candidate, now: int)
    | Clear(resource: string, metrics: set<string>)
    | AdminResolves(flag: nat)
    | AdminAcknowledges(flag: nat)

  function Apply(s: Store, cfg: Config, e: Event): Store {
    match e
    case Detect(r, c, now) => Upsert(s, cfg, r, c, now)
    case Clear(r, metrics) => AutoResolve(s, r, metrics)
    case AdminResolves(i) => if i < |s.flags| then SetStatus(s, i, Resolved) else s
    case AdminAcknowledges(i) => if i < |s.flags| && Live(s.flags[i]) then SetStatus(s, i, Acknowledged) else s
  }

  function Exec(s: Store, cfg: Config, es: seq<Event>): Store {
    if es == [] then s else Apply(Exec(s, cfg, es[..|es| - 1]), cfg, es[|es| - 1])
  }

  // ---------------------------------------------------------------- every run

  predicate OneLive(flags: seq<Flag>) {
    forall i, j :: 0 <= i < j < |flags| && Live(flags[i]) && Live(flags[j]) ==>
      flags[i].resource != flags[j].resource || flags[i].metric != flags[j].metric
  }

  /** Emails name existing flags, are never after their flag's stamp, and two about the same
      flag are more than its renotify period apart. */
  predicate Spaced(s: Store, cfg: Config) {
    && (forall a :: 0 <= a < |s.emails| ==>
          && s.emails[a].flag < |s.flags|
          && s.flags[s.emails[a].flag].lastNotifiedAt.Some?
          && s.emails[a].at <= s.flags[s.emails[a].flag].lastNotifiedAt.value)
    && (forall a, b :: 0 <= a < b < |s.emails| && s.emails[a].flag == s.emails[b].flag ==>
          s.emails[b].at - s.emails[a].at > RenotifyMs(cfg, s.flags[s.emails[a].flag].metric))
  }

  lemma DetectKeepsOneLive(s: Store, cfg: Config, r: string, c: Candidate, now: int)
    requires OneLive(s.flags)
    ensures OneLive(Upsert(s, cfg, r, c, now).flags)
  {
  }

  lemma DetectKeepsSpaced(s: Store, cfg: Config, r: string, c: Candidate, now: int)
    requires Spaced(s, cfg)
    ensures Spaced(Upsert(s, cfg, r, c, now), cfg)
  {
  }

  lemma StepOneLive(s: Store, cfg: Config, e: Event)
    requires OneLive(s.flags)
    ensures OneLive(Apply(s, cfg, e).flags)
  {
    if e.Detect? {
      DetectKeepsOneLive(s, cfg, e.resource, e.candidate, e.now);
    }
  }

  lemma StepOk(s: Store, cfg: Config, e: Event)
    requires OneLive(s.flags) && Spaced(s, cfg)
    ensures OneLive(Apply(s, cfg, e).flags) && Spaced(Apply(s, cfg, e), cfg)
  {
    StepOneLive(s, cfg, e);
    if e.Detect? {
      DetectKeepsSpaced(s, cfg, e.resource, e.candidate, e.now);
    }
  }

  /** Over any run of ticks, failed ticks and administrator actions there is at most one live
      flag per resource and metric, and two emails about one flag are always more than its
      renotify period apart. */
  lemma {:induction false} RunsOk(s: Store, cfg: Config, es: seq<Event>)
    requires OneLive(s.flags) && s.emails == []
    ensures OneLive(Exec(s, cfg, es).flags) && Spaced(Exec(s, cfg, es), cfg)
  {
    if es != [] {
      RunsOk(s, cfg, es[..|es| - 1]);
      StepOk(Exec(s, cfg, es[..|es| - 1]), cfg, es[|es| - 1]);
    }
  }

  // ---------------------------------------------------------------- spacing per metric

  predicate About(s: Store, a: nat, resource: string, metric: string)
    requires a < |s.emails|
  {
    var i := s.emails[a].flag;
    i < |s.flags| && s.flags[i].resource == resource && s.flags[i].metric == metric
  }

  /** Some email about the resource and metric, under whatever flag, is at most a renotify
      period old. */
  predicate RecentlyNotified(s: Store, cfg: Config, resource: string, metric: string, now: int) {
    exists a :: 0 <= a < |s.emails| && About(s, a, resource, metric) && now - s.emails[a].at <= RenotifyMs(cfg, metric)
  }

  /** The code opens a new flag although the metric was notified a moment ago: both can be
      checked before the call. */
  predicate Reopens(s: Store, cfg: Config, e: Event) {
    && e.Detect? && FindLive(s.flags, e.resource, e.candidate.metric).None?
    && RecentlyNotified(s, cfg, e.resource, e.candidate.metric, e.now)
  }

  /** Two emails about the same resource and metric are more than the renotify period apart. */
  ghost predicate SpacedPerMetric(s: Store, cfg: Config) {
    forall a, b, r, m :: 0 <= a < b < |s.emails| && About(s, a, r, m) && About(s, b, r, m) ==>
      s.emails[b].at - s.emails[a].at > RenotifyMs(cfg, m)
  }

  predicate Chronological(es: seq<Event>) {
    forall i, j :: 0 <= i < j < |es| && es[i].Detect? && es[j].Detect? ==> es[i].now <= es[j].now
  }

  /** The latest detection time of a run. */
  function Latest(es: seq<Event>): (t: int)
    requires Chronological(es)
    ensures NotBefore(es, t)
    ensures es != [] && es[|es| - 1].Detect? ==> t == es[|es| - 1].now
  {
    if es == [] then 0
    else if es[|es| - 1].Detect? then es[|es| - 1].now
    else Latest(es[..|es| - 1])
  }

  predicate NotBefore(es: seq<Event>, now: int) {
    forall i :: 0 <= i < |es| && es[i].Detect? ==> es[i].now <= now
  }

  predicate SameSubject(f: Flag, g: Flag) {
    f.resource == g.resource && f.metric == g.metric
  }

  /** No email is in the future, and a live flag's stamp is the latest email about its metric. */
  predicate StampIsLatest(s: Store, clock: int) {
    forall a :: 0 <= a < |s.emails| ==>
      && s.emails[a].flag < |s.flags| && s.emails[a].at <= clock
      && forall i :: 0 <= i < |s.flags| && Live(s.flags[i]) && SameSubject(s.flags[i], s.flags[s.emails[a].flag]) ==>
           s.flags[i].lastNotifiedAt.Some? && s.emails[a].at <= s.flags[i].lastNotifiedAt.value
  }

  /** Flags keep their place, resource and metric, emails stay; a resolved flag stays resolved. */
  predicate Extends(s: Store, s': Store) {
    && |s.flags| <= |s'.flags| && s.emails <= s'.emails
    && forall i :: 0 <= i < |s.flags| ==>
         && s'.flags[i].resource == s.flags[i].resource && s'.flags[i].metric == s.flags[i].metric
         && (Live(s'.flags[i]) ==> Live(s.flags[i]))
  }

  lemma StepExtends(s: Store, cfg: Config, e: Event)
    ensures Extends(s, Apply(s, cfg, e))
  {
  }

  lemma StepStamps(s: Store, cfg: Config, e: Event, clock: int)
    requires OneLive(s.flags) && StampIsLatest(s, clock) && (e.Detect? ==> clock <= e.now)
    ensures StampIsLatest(Apply(s, cfg, e), if e.Detect? then e.now else clock)
  {
    StepOneLive(s, cfg, e);
  }

  lemma {:induction false} RunStamps(s: Store, cfg: Config, es: seq<Event>, clock: int)
    requires OneLive(s.flags) && s.emails == [] && Chronological(es) && NotBefore(es, clock)
    ensures OneLive(Exec(s, cfg, es).flags) && StampIsLatest(Exec(s, cfg, es), clock)
  {
    if es != [] {
      var before, e := es[..|es| - 1], es[|es| - 1];
      var t := if e.Detect? then e.now else clock;
      RunStamps(s, cfg, before, t);
      StepOneLive(Exec(s, cfg, before), cfg, e);
      StepStamps(Exec(s, cfg, before), cfg, e, t);
    }
  }

  /** In every chronological run, a detection emails within the renotify period of an earlier
      email about its resource and metric if and only if no flag of it is live and there is
      such an earlier email. */
  lemma EmailsTooSoonIff(s: Store, cfg: Config, es: seq<Event>, r: string, c: Candidate, now: int)
    requires OneLive(s.flags) && s.emails == [] && Chronological(es) && NotBefore(es, now)
    ensures var v := Exec(s, cfg, es);
      |Upsert(v, cfg, r, c, now).emails| > |v.emails| && RecentlyNotified(v, cfg, r, c.metric, now)
      <==> Reopens(v, cfg, Detect(r, c, now))
  {
    RunStamps(s, cfg, es, now);
  }

  lemma SameEmailsSpacing(s: Store, s': Store, cfg: Config)
    requires Extends(s, s') && s'.emails == s.emails && forall a :: 0 <= a < |s.emails| ==> s.emails[a].flag < |s.flags|
    ensures SpacedPerMetric(s', cfg) <==> SpacedPerMetric(s, cfg)
  {
    forall a, r: string, m: string | 0 <= a < |s.emails| ensures About(s', a, r, m) <==> About(s, a, r, m) {
    }
  }

  /** One more email keeps the spacing exactly when nothing recent was sent about its metric. */
  lemma PushEmailSpacing(s: Store, s': Store, cfg: Config, r: string, m: string, now: int)
    requires Extends(s, s') && forall a :: 0 <= a < |s.emails| ==> s.emails[a].flag < |s.flags|
    requires |s'.emails| == |s.emails| + 1 && s'.emails[|s.emails|].at == now && About(s', |s.emails|, r, m)
    ensures SpacedPerMetric(s', cfg) <==> SpacedPerMetric(s, cfg) && !RecentlyNotified(s, cfg, r, m, now)
  {
    forall a, r: string, m: string | 0 <= a < |s.emails| ensures About(s', a, r, m) <==> About(s, a, r, m) {
    }
  }

  lemma StepSpacing(s: Store, cfg: Config, e: Event, clock: int)
    requires StampIsLatest(s, clock) && (e.Detect? ==> clock <= e.now)
    ensures SpacedPerMetric(Apply(s, cfg, e), cfg) <==> SpacedPerMetric(s, cfg) && !Reopens(s, cfg, e)
  {
    var s' := Apply(s, cfg, e);
    StepExtends(s, cfg, e);
    if s'.emails == s.emails {
      SameEmailsSpacing(s, s', cfg);
    } else {
      PushEmailSpacing(s, s', cfg, e.resource, e.candidate.metric, e.now);
    }
  }

  predicate NeverReopens(s: Store, cfg: Config, es: seq<Event>) {
    es == [] || (NeverReopens(s, cfg, es[..|es| - 1]) && !Reopens(Exec(s, cfg, es[..|es| - 1]), cfg, es[|es| - 1]))
  }

  /** So the spacing holds per metric over a run exactly when no detection of the run reopened
      a recently notified metric. */
  lemma {:induction false} SpacedPerMetricIff(s: Store, cfg: Config, es: seq<Event>)
    requires OneLive(s.flags) && s.emails == [] && Chronological(es)
    ensures SpacedPerMetric(Exec(s, cfg, es), cfg) <==> NeverReopens(s, cfg, es)
  {
    if es != [] {
      var before, e := es[..|es| - 1], es[|es| - 1];
      SpacedPerMetricIff(s, cfg, before);
      var clock := Latest(es);
      RunStamps(s, cfg, before, clock);
      StepSpacing(Exec(s, cfg, before), cfg, e, clock);
    }
  }

  lemma ExecPush(s: Store, cfg: Config, es: seq<Event>, e: Event)
    ensures Exec(s, cfg, es + [e]) == Apply(Exec(s, cfg, es), cfg, e)
  {
    assert (es + [e])[..|es|] == es;
  }

  /** Both ways to get there: the metric clears, or an administrator resolves its flag, and the
      next detection is emailed at once under a new flag. */
  lemma FlappingIsNotSpaced(cfg: Config, r: string, c: Candidate, now: int, between: Event)
    requires between in {Clear(r, {}), AdminResolves(0)}
    ensures var es := [Detect(r, c, now), between, Detect(r, c, now + 1)];
      Exec(Store([], []), cfg, es).emails == [Email(0, now), Email(1, now + 1)]
  {
    var es := [Detect(r, c, now), between, Detect(r, c, now + 1)];
    var f := Flag(r, c.metric, c.value, c.threshold, c.severity, Open, Some(now));
    var s0 := Store([], []);
    ExecPush(s0, cfg, [], es[0]);
    var s1 := Exec(s0, cfg, [es[0]]);
    assert [] + [es[0]] == [es[0]] && s1 == Store([f], [Email(0, now)]);
    ExecPush(s0, cfg, [es[0]], es[1]);
    var s2 := Exec(s0, cfg, [es[0], es[1]]);
    assert [es[0]] + [es[1]] == [es[0], es[1]] && s2 == Apply(s1, cfg, between);
    ExecPush(s0, cfg, [es[0], es[1]], es[2]);
    assert [es[0], es[1]] + [es[2]] == es;
    assert s2.flags == [f.(status := Resolved)] && s2.emails == s1.emails;
    assert FindLive(s2.flags, r, c.metric).None?;
  }

  // ---------------------------------------------------------------- when an email is sent

  /** Every flag has been emailed about, its stamp is the time of the latest of those emails, and
      emails name existing flags. */
  ghost predicate StampsAreEmails(s: Store, clock: int) {
    && (forall i :: 0 <= i < |s.flags| ==> HasStampEmail(s, i))
    && (forall a :: 0 <= a < |s.emails| ==>
          && s.emails[a].flag < |s.flags| && s.emails[a].at <= clock
          && s.flags[s.emails[a].flag].lastNotifiedAt.Some?
          && s.emails[a].at <= s.flags[s.emails[a].flag].lastNotifiedAt.value)
  }

  predicate HasStampEmail(s: Store, i: nat)
    requires i < |s.flags|
  {
    exists a :: 0 <= a < |s.emails| && s.emails[a].flag == i && s.flags[i].lastNotifiedAt == Some(s.emails[a].at)
  }

  lemma StampEmailStays(s: Store, s': Store, i: nat)
    requires i < |s.flags| <= |s'.flags| && s.emails <= s'.emails && HasStampEmail(s, i)
    requires s'.flags[i].lastNotifiedAt == s.flags[i].lastNotifiedAt
    ensures HasStampEmail(s', i)
  {
    var a :| 0 <= a < |s.emails| && s.emails[a].flag == i && s.flags[i].lastNotifiedAt == Some(s.emails[a].at);
    assert s'.emails[a] == s.emails[a];
  }

  lemma StepKeepsStamps(s: Store, cfg: Config, e: Event, clock: int)
    requires StampsAreEmails(s, clock) && (e.Detect? ==> clock <= e.now)
    ensures StampsAreEmails(Apply(s, cfg, e), if e.Detect? then e.now else clock)
  {
    var s' := Apply(s, cfg, e);
    forall i | 0 <= i < |s'.flags| ensures HasStampEmail(s', i) {
      if i < |s.flags| && s'.flags[i].lastNotifiedAt == s.flags[i].lastNotifiedAt {
        StampEmailStays(s, s', i);
      } else {
        assert s'.emails[|s.emails|] == Email(i, e.now);
      }
    }
  }

  lemma {:induction false} RunKeepsStamps(cfg: Config, es: seq<Event>, clock: int)
    requires Chronological(es) && NotBefore(es, clock)
    ensures StampsAreEmails(Exec(Store([], []), cfg, es), clock)
  {
    if es != [] {
      var before, e := es[..|es| - 1], es[|es| - 1];
      var t := if e.Detect? then e.now else clock;
      RunKeepsStamps(cfg, before, t);
      StepKeepsStamps(Exec(Store([], []), cfg, before), cfg, e, t);
    }
  }

  /** Some email about a flag of the resource and metric that is still open or acknowledged is no
      older than the period: 24 h, say, given as hours. */
  predicate StillQuiet(s: Store, resource: string, metric: string, now: int, hours: nat) {
    exists a :: 0 <= a < |s.emails| && s.emails[a].flag < |s.flags| && now - s.emails[a].at <= hours * 3_600_000
      && var f := s.flags[s.emails[a].flag];
         f.resource == resource && f.metric == metric && (f.status == Open || f.status == Acknowledged)
  }

  /** In every chronological run a detection sends exactly one email, about a live flag of its
      resource and metric, unless such a flag was emailed about within the renotify hours; then it
      sends none. So an open flag that stays detected is notified again. */
  lemma NotifiesIff(cfg: Config, es: seq<Event>, r: string, c: Candidate, now: int)
    requires Chronological(es) && NotBefore(es, now)
    ensures var v := Exec(Store([], []), cfg, es);
      var v', hours := Upsert(v, cfg, r, c, now), if c.metric == "memLowPct" then cfg.lowUsageHours else cfg.alertHours;
      if StillQuiet(v, r, c.metric, now, hours) then v'.emails == v.emails
      else
        && |v'.emails| == |v.emails| + 1 && v'.emails[..|v.emails|] == v.emails
        && v'.emails[|v.emails|].at == now && v'.emails[|v.emails|].flag < |v'.flags|
        && LiveFor(v'.flags[v'.emails[|v.emails|].flag], r, c.metric)
  {
    RunsOk(Store([], []), cfg, es);
    RunKeepsStamps(cfg, es, now);
    QuietIsNotDue(Exec(Store([], []), cfg, es), cfg, r, c.metric, now);
  }

  lemma QuietIsNotDue(s: Store, cfg: Config, r: string, m: string, now: int)
    requires OneLive(s.flags) && StampsAreEmails(s, now)
    ensures var live, hours := FindLive(s.flags, r, m), if m == "memLowPct" then cfg.lowUsageHours else cfg.alertHours;
      StillQuiet(s, r, m, now, hours) <==> live.Some? && !Due(s.flags[live.value], cfg, now)
  {
    var live := FindLive(s.flags, r, m);
    if live.Some? {
      assert HasStampEmail(s, live.value);
    }
  }

  // ---------------------------------------------------------------- what a step leaves alone

  /** A detection refreshes the live flag of its resource and metric, or opens one, with the
      candidate's reading; it leaves every other flag alone. */
  lemma DetectIsLocal(s: Store, cfg: Config, r: string, c: Candidate, now: int)
    requires OneLive(s.flags)
    ensures var s' := Upsert(s, cfg, r, c, now);
      && |s.flags| <= |s'.flags| <= |s.flags| + 1
      && (forall i :: 0 <= i < |s.flags| && !LiveFor(s.flags[i], r, c.metric) ==> s'.flags[i] == s.flags[i])
      && (forall i :: 0 <= i < |s'.flags| && LiveFor(s'.flags[i], r, c.metric) ==>
            && s'.flags[i].value == c.value && s'.flags[i].threshold == c.threshold
            && s'.flags[i].severity == c.severity
            && s'.flags[i].status == if i < |s.flags| then s.flags[i].status else Open)
  {
  }

  /** An administrator acknowledges a live flag, or resolves a flag, and changes nothing else. */
  lemma AdminIsLocal(s: Store, cfg: Config, i: nat)
    requires i < |s.flags|
    ensures Apply(s, cfg, AdminAcknowledges(i)).flags ==
      s.flags[i := s.flags[i].(status := if s.flags[i].status == Resolved then Resolved else Acknowledged)]
    ensures Apply(s, cfg, AdminResolves(i)).flags == s.flags[i := s.flags[i].(status := Resolved)]
    ensures Apply(s, cfg, AdminAcknowledges(i)).emails == Apply(s, cfg, AdminResolves(i)).emails == s.emails
  {
    assert s.flags[i := s.flags[i]] == s.flags;
  }

  /** A clear resolves exactly the live flags of its resource whose metric is not listed. */
  lemma ClearIsLocal(s: Store, r: string, metrics: set<string>)
    ensures var s' := AutoResolve(s, r, metrics);
      && s'.emails == s.emails && |s'.flags| == |s.flags|
      && (forall i :: 0 <= i < |s.flags| ==>
            if s.flags[i].resource == r && s.flags[i].metric !in metrics
            then s'.flags[i].status == Resolved && s'.flags[i] == s.flags[i].(status := Resolved)
            else s'.flags[i] == s.flags[i])
  {
  }

  // ---------------------------------------------------------------- one tick

  function LiveMetrics(flags: seq<Flag>, resource: string): set<string> {
    set i | 0 <= i < |flags| && Live(flags[i]) && flags[i].resource == resource :: flags[i].metric
  }

  lemma DetectMakesLive(s: Store, cfg: Config, r: string, c: Candidate, now: int)
    ensures LiveMetrics(Upsert(s, cfg, r, c, now).flags, r) == LiveMetrics(s.flags, r) + {c.metric}
  {
    var s' := Upsert(s, cfg, r, c, now);
    var k := if FindLive(s.flags, r, c.metric).Some? then FindLive(s.flags, r, c.metric).value else |s.flags|;
    assert LiveFor(s'.flags[k], r, c.metric);
    forall i | 0 <= i < |s.flags| ensures Live(s'.flags[i]) == Live(s.flags[i])
      && s'.flags[i].resource == s.flags[i].resource && s'.flags[i].metric == s.flags[i].metric
    {
    }
    forall m ensures m in LiveMetrics(s'.flags, r) <==> m in LiveMetrics(s.flags, r) + {c.metric} {
      if m in LiveMetrics(s.flags, r) {
        var i :| 0 <= i < |s.flags| && Live(s.flags[i]) && s.flags[i].resource == r && s.flags[i].metric == m;
        assert Live(s'.flags[i]) && s'.flags[i].metric == m;
      }
      if m in LiveMetrics(s'.flags, r) {
        var i :| 0 <= i < |s'.flags| && Live(s'.flags[i]) && s'.flags[i].resource == r && s'.flags[i].metric == m;
      }
    }
  }

  lemma ClearKeepsListed(s: Store, r: string, metrics: set<string>)
    ensures LiveMetrics(AutoResolve(s, r, metrics).flags, r) == LiveMetrics(s.flags, r) * metrics
  {
    var s' := AutoResolve(s, r, metrics);
    forall m ensures m in LiveMetrics(s'.flags, r) <==> m in LiveMetrics(s.flags, r) * metrics {
      if m in LiveMetrics(s.flags, r) * metrics {
        var i :| 0 <= i < |s.flags| && Live(s.flags[i]) && s.flags[i].resource == r && s.flags[i].metric == m;
        assert s'.flags[i] == s.flags[i];
      }
      if m in LiveMetrics(s'.flags, r) {
        var i :| 0 <= i < |s'.flags| && Live(s'.flags[i]) && s'.flags[i].resource == r && s'.flags[i].metric == m;
        assert s'.flags[i] == Cleared(s.flags[i], r, metrics);
      }
    }
  }

  /** Flags of other resources are kept, and none is added for them. */
  predicate OthersKept(before: seq<Flag>, after: seq<Flag>, resource: string) {
    && |before| <= |after|
    && (forall i :: 0 <= i < |before| ==>
          after[i].resource == before[i].resource && (before[i].resource != resource ==> after[i] == before[i]))
    && (forall i :: |before| <= i < |after| ==> after[i].resource == resource)
  }

  class Monitor {
    const cfg: Config
    var flags: seq<Flag>
    var emails: seq<Email>

    function Rows(): Store
      reads this
    {
      Store(flags, emails)
    }

    constructor (cfg: Config)
      ensures this.cfg == cfg && Rows() == Store([], [])
    {
      this.cfg, flags, emails := cfg, [], [];
    }

    method UpsertFlagAndMaybeNotify(resource: string, c: Candidate, now: int)
      modifies this
      ensures Rows() == Upsert(old(Rows()), cfg, resource, c, now)
    {
      var existing := FindLive(flags, resource, c.metric);
      if existing.Some? {
        var i := existing.value;
        var due := Due(flags[i], cfg, now);
        flags := flags[i := Refreshed(flags[i], c)];
        if due {
          flags := flags[i := flags[i].(lastNotifiedAt := Some(now))];
          emails := emails + [Email(i, now)];
        }
      } else {
        flags := flags + [Flag(resource, c.metric, c.value, c.threshold, c.severity, Open, Some(now))];
        emails := emails + [Email(|flags| - 1, now)];
      }
    }

    /** One resource of an error-free tick: afterwards its live metrics are the candidates', and
        the flags of other resources are as before. */
    method RunResource(resource: string, candidates: seq<Candidate>, now: int)
      requires OneLive(flags) && Spaced(Rows(), cfg)
      modifies this
      ensures OneLive(flags) && Spaced(Rows(), cfg)
      ensures LiveMetrics(flags, resource) == set i | 0 <= i < |candidates| :: candidates[i].metric
      ensures OthersKept(old(flags), flags, resource)
    {
      var metrics: set<string> := {};
      for k := 0 to |candidates|
        invariant metrics == set i | 0 <= i < k :: candidates[i].metric
        invariant Ticking(old(flags), Rows(), cfg, resource, metrics)
      {
        TickDetects(old(flags), Rows(), cfg, resource, metrics, candidates[k], now);
        UpsertFlagAndMaybeNotify(resource, candidates[k], now);
        metrics := metrics + {candidates[k].metric};
      }
      TickClears(old(flags), Rows(), cfg, resource, metrics);
      var cleared := AutoResolve(Store(flags, emails), resource, metrics);
      flags := cleared.flags;
    }
  }

  /** A tick under way: these metrics of the resource have been detected. */
  ghost predicate Ticking(before: seq<Flag>, s: Store, cfg: Config, resource: string, metrics: set<string>) {
    && OneLive(s.flags) && Spaced(s, cfg) && OthersKept(before, s.flags, resource)
    && metrics <= LiveMetrics(s.flags, resource)
  }

  lemma TickDetects(before: seq<Flag>, s: Store, cfg: Config, r: string, metrics: set<string>, c: Candidate, now: int)
    requires Ticking(before, s, cfg, r, metrics)
    ensures Ticking(before, Upsert(s, cfg, r, c, now), cfg, r, metrics + {c.metric})
  {
    StepOk(s, cfg, Detect(r, c, now));
    DetectMakesLive(s, cfg, r, c, now);
    DetectKeepsOthers(before, s, cfg, r, c, now);
  }

  lemma DetectKeepsOthers(before: seq<Flag>, s: Store, cfg: Config, r: string, c: Candidate, now: int)
    requires OthersKept(before, s.flags, r)
    ensures OthersKept(before, Upsert(s, cfg, r, c, now).flags, r)
  {
  }

  lemma TickClears(before: seq<Flag>, s: Store, cfg: Config, r: string, metrics: set<string>)
    requires Ticking(before, s, cfg, r, metrics)
    ensures var s' := AutoResolve(s, r, metrics);
      && OneLive(s'.flags) && Spaced(s', cfg) && OthersKept(before, s'.flags, r)
      && LiveMetrics(s'.flags, r) == metrics
  {
    ClearKeepsListed(s, r, metrics);
    StepOk(s, cfg, Clear(r, metrics));
    assert LiveMetrics(s.flags, r) * metrics == metrics;
  }
}
