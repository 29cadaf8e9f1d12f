/** Exporting and importing an organization's configuration (server/internal/organizations/config.go, facade.go,
    types.go; app/endpoint_porter.go for what an endpoint write may refuse). */
module ConfigImport {
  import opened Common

  const DEFAULT_FEATURED_CAP := 8
  const MIN_RETENTION_DAYS := 1

  /** An absent allow-list admits every integration. */
  datatype Governance = Governance(
    allowList: Option<seq<string>>, hidden: seq<string>, featured: seq<string>, featuredCap: int,
    logDays: Option<int>, eventDays: Option<int>)

  const DEFAULT_GOVERNANCE := Governance(None, [], [], DEFAULT_FEATURED_CAP, None, None)

  /** An absent filter admits every event type. */
  datatype Endpoint = Endpoint(id: nat, url: string, kinds: Option<seq<string>>)

  datatype GovernanceSection = GovernanceSection(
    allowList: Option<seq<string>>, hidden: seq<string>, featured: seq<string>, featuredCap: int)

  datatype RetentionSection = RetentionSection(logDays: Option<int>, eventDays: Option<int>)

  datatype EndpointSection = EndpointSection(url: string, kinds: Option<seq<string>>)

  datatype Document = Document(
    governance: GovernanceSection, endpoints: seq<EndpointSection>, retention: RetentionSection)

  datatype Mode = Merge | Replace

  /** row is the stored settings record, absent until first set; endpoints are oldest first. */
  datatype Org = Org(row: Option<Governance>, endpoints: seq<Endpoint>, nextId: nat)

  function GetGovernance(o: Org): Governance {
    if o.row.Some? then o.row.value else DEFAULT_GOVERNANCE
  }

  // ---- Settings ----

  function EffectiveCap(cap: int): int { if cap <= 0 then DEFAULT_FEATURED_CAP else cap }

  predicate ValidWindow(days: Option<int>) {
    days.Some? && days.value != 0 ==> days.value >= MIN_RETENTION_DAYS
  }

  function SetGovernance(o: Org, update: GovernanceSection): Option<Org> {
    var existing, cap := GetGovernance(o), EffectiveCap(update.featuredCap);
    if |update.featured| > cap || !ValidWindow(existing.logDays) || !ValidWindow(existing.eventDays) then None
    else Some(o.(row := Some(Governance(update.allowList, update.hidden, update.featured, cap,
                                        existing.logDays, existing.eventDays))))
  }

  function SetRetention(o: Org, update: RetentionSection): Option<Org> {
    if !ValidWindow(update.logDays) || !ValidWindow(update.eventDays) then None
    else Some(o.(row := Some(GetGovernance(o).(logDays := update.logDays, eventDays := update.eventDays))))
  }

  function ResolveGovernance(existing: Governance, doc: GovernanceSection, mode: Mode): GovernanceSection {
    if mode == Replace then doc
    else
      GovernanceSection(
        if doc.allowList.Some? then doc.allowList else existing.allowList,
        if |doc.hidden| > 0 then doc.hidden else existing.hidden,
        if |doc.featured| > 0 then doc.featured else existing.featured,
        if doc.featuredCap > 0 then doc.featuredCap else existing.featuredCap)
  }

  function ResolveRetention(existing: Governance, doc: RetentionSection, mode: Mode): RetentionSection {
    if mode == Replace then doc
    else
      RetentionSection(if doc.logDays.Some? then doc.logDays else existing.logDays,
                       if doc.eventDays.Some? then doc.eventDays else existing.eventDays)
  }

  // ---- Endpoints ----

  function Types(kinds: Option<seq<string>>): seq<string> {
    if kinds.Some? then kinds.value else []
  }

  /** The import's own comparison: an absent filter and an empty one are alike. */
  predicate SameFilter(a: Option<seq<string>>, b: Option<seq<string>>) { Types(a) == Types(b) }

  datatype Action =
    | Create(url: string, kinds: Option<seq<string>>)
    | Update(id: nat, url: string, kinds: Option<seq<string>>)
    | Delete(id: nat, url: string)

  /** The endpoint a URL stands for: the last one listed with it. */
  function ByURL(existing: seq<Endpoint>, url: string): Option<Endpoint> {
    if existing == [] then None
    else if existing[|existing| - 1].url == url then Some(existing[|existing| - 1])
    else ByURL(existing[..|existing| - 1], url)
  }

  function ActionFor(existing: seq<Endpoint>, d: EndpointSection): seq<Action> {
    var current := ByURL(existing, d.url);
    if current.None? then [Create(d.url, d.kinds)]
    else if SameFilter(current.value.kinds, d.kinds) then []
    else [Update(current.value.id, d.url, d.kinds)]
  }

  function Upserts(existing: seq<Endpoint>, doc: seq<EndpointSection>, n: nat): seq<Action>
    requires n <= |doc|
  {
    if n == 0 then [] else Upserts(existing, doc, n - 1) + ActionFor(existing, doc[n - 1])
  }

  function UrlsOf(doc: seq<EndpointSection>): set<string> { set d | d in doc :: d.url }

  predicate Mentioned(doc: seq<EndpointSection>, url: string) {
    exists i :: 0 <= i < |doc| && doc[i].url == url
  }

  function Deletes(existing: seq<Endpoint>, doc: seq<EndpointSection>, n: nat): seq<Action>
    requires n <= |existing|
  {
    if n == 0 then []
    else
      var e := existing[n - 1];
      Deletes(existing, doc, n - 1) + (if Mentioned(doc, e.url) then [] else [Delete(e.id, e.url)])
  }

  function PlanEndpoints(existing: seq<Endpoint>, doc: seq<EndpointSection>, mode: Mode): seq<Action> {
    Upserts(existing, doc, |doc|) + (if mode == Replace then Deletes(existing, doc, |existing|) else [])
  }

  /** What the delivery side accepts of an endpoint. */
  datatype Rules = Rules(cap: nat, urlOk: string -> bool, kindOk: string -> bool)

  predicate Accepted(rules: Rules, url: string, kinds: Option<seq<string>>) {
    rules.urlOk(url) && (kinds.Some? ==>
                          |kinds.value| > 0 && forall i :: 0 <= i < |kinds.value| ==> rules.kindOk(kinds.value[i]))
  }

  predicate Has(endpoints: seq<Endpoint>, id: nat) {
    exists i :: 0 <= i < |endpoints| && endpoints[i].id == id
  }

  function Amended(e: Endpoint, id: nat, url: string, kinds: Option<seq<string>>): Endpoint {
    if e.id == id then Endpoint(id, url, kinds) else e
  }

  function Apply(rules: Rules, o: Org, action: Action): Option<Org> {
    match action
    case Create(url, kinds) =>
      if !Accepted(rules, url, kinds) || |o.endpoints| >= rules.cap then None
      else Some(o.(endpoints := o.endpoints + [Endpoint(o.nextId, url, kinds)], nextId := o.nextId + 1))
    case Update(id, url, kinds) =>
      if !Accepted(rules, url, kinds) || !Has(o.endpoints, id) then None
      else Some(o.(endpoints := seq(|o.endpoints|, i requires 0 <= i < |o.endpoints| =>
                                    Amended(o.endpoints[i], id, url, kinds))))
    case Delete(id, url) =>
      if !Has(o.endpoints, id) then None
      else Some(o.(endpoints := Filter(o.endpoints, (e: Endpoint) => e.id != id)))
  }

  /** How far an import got: a failed step keeps what came before it. writes is how many writes the store takes. */
  datatype Progress = Progress(org: Org, ok: bool)

  function Then(p: Progress, next: Option<Org>, index: nat, writes: nat): Progress {
    if p.ok && index < writes && next.Some? then Progress(next.value, true) else Progress(p.org, false)
  }

  function ApplyAll(rules: Rules, p: Progress, actions: seq<Action>, writes: nat): Progress {
    if actions == [] then p
    else
      var n := |actions| - 1;
      var before := ApplyAll(rules, p, actions[..n], writes);
      Then(before, Apply(rules, before.org, actions[n]), 2 + n, writes)
  }

  function ApplyImport(rules: Rules, o: Org, doc: Document, mode: Mode, writes: nat): Progress {
    var existing := GetGovernance(o);
    var governed := Then(Progress(o, true), SetGovernance(o, ResolveGovernance(existing, doc.governance, mode)),
                         0, writes);
    var retained := Then(governed, SetRetention(governed.org, ResolveRetention(existing, doc.retention, mode)),
                         1, writes);
    if !retained.ok then retained
    else ApplyAll(rules, retained, PlanEndpoints(o.endpoints, doc.endpoints, mode), writes)
  }

  // ---- Plan and export ----

  datatype Change =
    | AllowListChange
    | HiddenChange
    | OnboardingChange
    | LogDaysChange
    | EventDaysChange
    | EndpointChange(action: Action)

  function When(condition: bool, c: Change): seq<Change> { if condition then [c] else [] }

  function SettingChanges(existing: Governance, governance: GovernanceSection,
                          retention: RetentionSection): seq<Change> {
    When(existing.allowList != governance.allowList, AllowListChange)
    + When(existing.hidden != governance.hidden, HiddenChange)
    + When(existing.featured != governance.featured || existing.featuredCap != EffectiveCap(governance.featuredCap),
           OnboardingChange)
    + When(existing.logDays != retention.logDays, LogDaysChange)
    + When(existing.eventDays != retention.eventDays, EventDaysChange)
  }

  function EndpointChanges(actions: seq<Action>): seq<Change> {
    seq(|actions|, i requires 0 <= i < |actions| => EndpointChange(actions[i]))
  }

  /** What a dry run reports. */
  function Plan(o: Org, doc: Document, mode: Mode): seq<Change> {
    var existing := GetGovernance(o);
    SettingChanges(existing, ResolveGovernance(existing, doc.governance, mode),
                   ResolveRetention(existing, doc.retention, mode))
    + EndpointChanges(PlanEndpoints(o.endpoints, doc.endpoints, mode))
  }

  function Export(o: Org): Document {
    var g := GetGovernance(o);
    Document(GovernanceSection(g.allowList, g.hidden, g.featured, g.featuredCap),
             seq(|o.endpoints|, i requires 0 <= i < |o.endpoints| =>
                 EndpointSection(o.endpoints[i].url, o.endpoints[i].kinds)),
             RetentionSection(g.logDays, g.eventDays))
  }

  // ---- The facade ----

  class OrganizationsFacade {
    const rules: Rules
    var org: Org

    constructor (rules: Rules)
      ensures this.rules == rules && org == Org(None, [], 0)
    {
      this.rules, org := rules, Org(None, [], 0);
    }

    method IndexByURL() returns (byURL: map<string, Endpoint>)
      ensures forall url :: ByURL(org.endpoints, url) == if url in byURL then Some(byURL[url]) else None
    {
      byURL := map[];
      var existing := org.endpoints;
      for i := 0 to |existing|
        invariant forall url :: ByURL(existing[..i], url) == if url in byURL then Some(byURL[url]) else None
      {
        assert existing[..i + 1][..i] == existing[..i];
        byURL := byURL[existing[i].url := existing[i]];
      }
      assert existing[..|existing|] == existing;
    }

    /** The diff against the existing endpoints, matched by URL. */
    method PlanEndpointActions(doc: seq<EndpointSection>, mode: Mode) returns (actions: seq<Action>)
      ensures actions == PlanEndpoints(org.endpoints, doc, mode)
    {
      var existing := org.endpoints;
      var byURL := IndexByURL();
      var mentioned: set<string> := {};
      actions := [];
      hide ByURL, UrlsOf, Mentioned, SameFilter;
      assert UrlsOf(doc[..0]) == {} by {
        NoUrls();
      }
      for i := 0 to |doc|
        invariant mentioned == UrlsOf(doc[..i])
        invariant actions == Upserts(existing, doc, i)
      {
        UrlsGrow(doc, i);
        mentioned := mentioned + {doc[i].url};
        if doc[i].url !in byURL {
          actions := actions + [Create(doc[i].url, doc[i].kinds)];
        } else {
          var current := byURL[doc[i].url];
          if !SameFilter(current.kinds, doc[i].kinds) {
            actions := actions + [Update(current.id, doc[i].url, doc[i].kinds)];
          }
        }
      }
      assert doc[..|doc|] == doc;
      if mode == Replace {
        ghost var upserts := actions;
        for i := 0 to |existing|
          invariant actions == upserts + Deletes(existing, doc, i)
        {
          MentionedIsListed(doc, existing[i].url);
          if existing[i].url !in mentioned {
            actions := actions + [Delete(existing[i].id, existing[i].url)];
          }
        }
      }
    }

    method ApplyActions(actions: seq<Action>, writes: nat) returns (ok: bool)
      modifies this`org
      ensures Progress(org, ok) == ApplyAll(rules, Progress(old(org), true), actions, writes)
    {
      for i := 0 to |actions|
        invariant Progress(org, true) == ApplyAll(rules, Progress(old(org), true), actions[..i], writes)
      {
        assert actions[..i + 1][..i] == actions[..i];
        var next := Apply(rules, org, actions[i]);
        if 2 + i >= writes || next.None? {
          FailureStays(rules, Progress(old(org), true), actions, i + 1, writes);
          return false;
        }
        org := next.value;
      }
      assert actions[..|actions|] == actions;
      ok := true;
    }

    method ImportConfig(doc: Document, mode: Mode, dryRun: bool, writes: nat) returns (plan: seq<Change>, ok: bool)
      modifies this`org
      ensures plan == Plan(old(org), doc, mode)
      ensures dryRun ==> ok && org == old(org)
      ensures !dryRun ==> Progress(org, ok) == ApplyImport(rules, old(org), doc, mode, writes)
    {
      var existing := GetGovernance(org);
      var governance := ResolveGovernance(existing, doc.governance, mode);
      var retention := ResolveRetention(existing, doc.retention, mode);
      var actions := PlanEndpointActions(doc.endpoints, mode);
      plan := SettingChanges(existing, governance, retention) + EndpointChanges(actions);
      if dryRun {
        return plan, true;
      }
      var governed := SetGovernance(org, governance);
      if governed.None? || writes == 0 {
        return plan, false;
      }
      org := governed.value;
      var retained := SetRetention(org, retention);
      if retained.None? || writes == 1 {
        return plan, false;
      }
      org := retained.value;
      ok := ApplyActions(actions, writes);
    }
  }

  lemma NoUrls()
    ensures UrlsOf([]) == {}
  {
  }

  lemma UrlsGrow(doc: seq<EndpointSection>, i: nat)
    requires i < |doc|
    ensures UrlsOf(doc[..i + 1]) == UrlsOf(doc[..i]) + {doc[i].url}
  {
    assert doc[..i + 1] == doc[..i] + [doc[i]];
  }

  lemma MentionedIsListed(doc: seq<EndpointSection>, url: string)
    ensures Mentioned(doc, url) <==> url in UrlsOf(doc)
  {
  }

  lemma {:induction false} FailureStays(rules: Rules, p: Progress, actions: seq<Action>, n: nat, writes: nat)
    requires n <= |actions| && !ApplyAll(rules, p, actions[..n], writes).ok
    ensures ApplyAll(rules, p, actions, writes) == ApplyAll(rules, p, actions[..n], writes)
    decreases |actions|
  {
    if n == |actions| {
      assert actions[..n] == actions;
    } else {
      var front := actions[..|actions| - 1];
      assert front[..n] == actions[..n];
      FailureStays(rules, p, front, n, writes);
    }
  }

  // ---- Applying a plan ----

  predicate UniqueUrls(endpoints: seq<Endpoint>) {
    forall i, j :: 0 <= i < j < |endpoints| ==> endpoints[i].url != endpoints[j].url
  }

  predicate DistinctUrls(doc: seq<EndpointSection>) {
    forall i, j :: 0 <= i < j < |doc| ==> doc[i].url != doc[j].url
  }

  /** Ids are unique and already given out. */
  ghost predicate WellKept(o: Org) {
    && (forall i, j :: 0 <= i < j < |o.endpoints| ==> o.endpoints[i].id != o.endpoints[j].id)
    && (forall i :: 0 <= i < |o.endpoints| ==> o.endpoints[i].id < o.nextId)
  }

  lemma {:induction false} ByURLIs(endpoints: seq<Endpoint>, url: string)
    ensures var e := ByURL(endpoints, url);
            && (e.Some? ==> e.value in endpoints && e.value.url == url)
            && (e.None? ==> forall i :: 0 <= i < |endpoints| ==> endpoints[i].url != url)
  {
    if endpoints != [] {
      ByURLIs(endpoints[..|endpoints| - 1], url);
    }
  }

  lemma ByURLUnique(endpoints: seq<Endpoint>, e: Endpoint)
    requires UniqueUrls(endpoints) && e in endpoints
    ensures ByURL(endpoints, e.url) == Some(e)
  {
    ByURLIs(endpoints, e.url);
    var i :| 0 <= i < |endpoints| && endpoints[i] == e;
    var found := ByURL(endpoints, e.url).value;
    var j :| 0 <= j < |endpoints| && endpoints[j] == found;
    assert i == j;
  }

  /** One applied action, told by membership. */
  lemma ApplyMembers(rules: Rules, o: Org, action: Action, e: Endpoint)
    requires WellKept(o) && Apply(rules, o, action).Some?
    ensures var after := Apply(rules, o, action).value;
            && after.row == o.row
            && (e in after.endpoints <==>
                  match action
                  case Create(url, kinds) => e in o.endpoints || e == Endpoint(o.nextId, url, kinds)
                  case Update(id, url, kinds) => (e in o.endpoints && e.id != id) || e == Endpoint(id, url, kinds)
                  case Delete(id, _) => e in o.endpoints && e.id != id)
  {
    match action {
      case Create(url, kinds) =>
      case Update(id, url, kinds) =>
        var after := Apply(rules, o, action).value;
        if e in o.endpoints && e.id != id {
          var i :| 0 <= i < |o.endpoints| && o.endpoints[i] == e;
          assert after.endpoints[i] == e;
        }
        if e == Endpoint(id, url, kinds) {
          var i :| 0 <= i < |o.endpoints| && o.endpoints[i].id == id;
          assert after.endpoints[i] == e;
        }
        if e in after.endpoints {
          var i :| 0 <= i < |o.endpoints| && after.endpoints[i] == e;
          assert o.endpoints[i] in o.endpoints;
        }
      case Delete(id, url) => FilterMember(o.endpoints, (x: Endpoint) => x.id != id, e);
    }
  }

  lemma ApplyKeepsIds(rules: Rules, o: Org, action: Action)
    requires WellKept(o) && Apply(rules, o, action).Some?
    ensures WellKept(Apply(rules, o, action).value)
  {
    match action {
      case Create(url, kinds) =>
      case Update(id, url, kinds) =>
        var after := Apply(rules, o, action).value;
        assert forall i :: 0 <= i < |o.endpoints| ==> after.endpoints[i].id == o.endpoints[i].id;
      case Delete(id, url) =>
        var keep, apart := (x: Endpoint) => x.id != id, (x: Endpoint, y: Endpoint) => x.id != y.id;
        var after := Apply(rules, o, action).value.endpoints;
        FilterKeepsOrder(o.endpoints, keep, apart);
        assert after == Filter(o.endpoints, keep);
        forall i, j | 0 <= i < j < |after| ensures after[i].id != after[j].id {
          assert apart(after[i], after[j]);
        }
        forall i | 0 <= i < |after| ensures after[i].id < o.nextId {
          FilterMember(o.endpoints, keep, after[i]);
        }
    }
  }

  lemma SameIdIsSame(o: Org, a: Endpoint, b: Endpoint)
    requires WellKept(o) && a in o.endpoints && b in o.endpoints && a.id == b.id
    ensures a == b
  {
    var i :| 0 <= i < |o.endpoints| && o.endpoints[i] == a;
    var j :| 0 <= j < |o.endpoints| && o.endpoints[j] == b;
    assert i == j;
  }

  lemma ApplyOneMore(rules: Rules, p: Progress, actions: seq<Action>, a: Action, writes: nat)
    ensures var before := ApplyAll(rules, p, actions, writes);
            ApplyAll(rules, p, actions + [a], writes)
              == Then(before, Apply(rules, before.org, a), 2 + |actions|, writes)
  {
    assert (actions + [a])[..|actions|] == actions;
  }

  // ---- Upserts ----

  predicate MentionedBy(doc: seq<EndpointSection>, n: nat, url: string)
    requires n <= |doc|
  {
    exists i :: 0 <= i < n && doc[i].url == url
  }

  /** The organization has the endpoint a document entry asks for. */
  ghost predicate Reached(o: Org, d: EndpointSection) {
    exists e :: e in o.endpoints && e.url == d.url && SameFilter(e.kinds, d.kinds)
  }

  ghost predicate OnePerUrl(o: Org) {
    forall a, b :: a in o.endpoints && b in o.endpoints && a.url == b.url ==> a == b
  }

  /** After the first n entries of the document: they are reached, everything else is as it was. */
  ghost predicate UpsertedTo(existing: seq<Endpoint>, doc: seq<EndpointSection>, n: nat, o: Org)
    requires n <= |doc|
  {
    && WellKept(o) && OnePerUrl(o)
    && (forall i :: 0 <= i < n ==> Reached(o, doc[i]))
    && (forall e :: e in existing && !MentionedBy(doc, n, e.url) ==> e in o.endpoints)
    && (forall e :: e in o.endpoints && !MentionedBy(doc, n, e.url) ==> e in existing)
  }

  lemma MentionedOneMore(doc: seq<EndpointSection>, n: nat, url: string)
    requires n < |doc|
    ensures MentionedBy(doc, n + 1, url) <==> MentionedBy(doc, n, url) || doc[n].url == url
  {
    if doc[n].url == url {
      assert MentionedBy(doc, n + 1, url);
    }
  }

  /** An entry that needs no action is already reached. */
  lemma UpsertIdle(existing: seq<Endpoint>, doc: seq<EndpointSection>, n: nat, o: Org)
    requires n < |doc| && UniqueUrls(existing) && DistinctUrls(doc) && UpsertedTo(existing, doc, n, o)
    requires |ActionFor(existing, doc[n])| == 0
    ensures UpsertedTo(existing, doc, n + 1, o)
  {
    ByURLIs(existing, doc[n].url);
    var current := ByURL(existing, doc[n].url).value;
    assert !MentionedBy(doc, n, doc[n].url);
    assert current in o.endpoints;
    assert Reached(o, doc[n]);
    forall url ensures MentionedBy(doc, n + 1, url) <==> MentionedBy(doc, n, url) || doc[n].url == url {
      MentionedOneMore(doc, n, url);
    }
    forall e | e in o.endpoints && !MentionedBy(doc, n + 1, e.url) ensures e in existing {
      assert !MentionedBy(doc, n, e.url);
    }
  }

  /** What one applied upsert does to the members, whichever action it is. */
  lemma UpsertMembers(rules: Rules, existing: seq<Endpoint>, doc: seq<EndpointSection>, n: nat, o: Org, a: Action,
                      e: Endpoint)
    requires n < |doc| && UniqueUrls(existing) && DistinctUrls(doc) && UpsertedTo(existing, doc, n, o)
    requires ActionFor(existing, doc[n]) == [a] && Apply(rules, o, a).Some?
    ensures !a.Delete?
    ensures var id := if a.Create? then o.nextId else a.id;
            e in Apply(rules, o, a).value.endpoints <==>
              (e in o.endpoints && e.url != doc[n].url) || e == Endpoint(id, doc[n].url, doc[n].kinds)
  {
    ApplyMembers(rules, o, a, e);
    ByURLIs(existing, doc[n].url);
    assert !MentionedBy(doc, n, doc[n].url);
    if a.Update? {
      var current := ByURL(existing, doc[n].url).value;
      assert current in o.endpoints && current.id == a.id;
      if e in o.endpoints && e.id == a.id {
        SameIdIsSame(o, e, current);
      }
    } else {
      assert forall x :: x in o.endpoints && x.url == doc[n].url ==> x in existing;
    }
  }

  /** put has taken the place of whatever had its URL; the rest is as it was. */
  ghost predicate PutIn(o: Org, after: Org, put: Endpoint) {
    forall e :: e in after.endpoints <==> (e in o.endpoints && e.url != put.url) || e == put
  }

  lemma UpsertApplied(rules: Rules, existing: seq<Endpoint>, doc: seq<EndpointSection>, n: nat, o: Org, a: Action)
    requires n < |doc| && UniqueUrls(existing) && DistinctUrls(doc) && UpsertedTo(existing, doc, n, o)
    requires ActionFor(existing, doc[n]) == [a] && Apply(rules, o, a).Some?
    ensures UpsertedTo(existing, doc, n + 1, Apply(rules, o, a).value)
  {
    var after := Apply(rules, o, a).value;
    var put := Endpoint(if a.Create? then o.nextId else a.id, doc[n].url, doc[n].kinds);
    assert PutIn(o, after, put) by {
      forall e ensures e in after.endpoints <==> (e in o.endpoints && e.url != doc[n].url) || e == put {
        UpsertMembers(rules, existing, doc, n, o, a, e);
      }
    }
    ApplyKeepsIds(rules, o, a);
    hide Apply, ActionFor, UniqueUrls, PutIn;
    PutReaches(existing, doc, n, o, after, put);
  }

  lemma PutReaches(existing: seq<Endpoint>, doc: seq<EndpointSection>, n: nat, o: Org, after: Org, put: Endpoint)
    requires n < |doc| && DistinctUrls(doc) && UpsertedTo(existing, doc, n, o) && WellKept(after)
    requires put.url == doc[n].url && put.kinds == doc[n].kinds && PutIn(o, after, put)
    ensures UpsertedTo(existing, doc, n + 1, after)
  {
    hide WellKept;
    forall i | 0 <= i < n + 1 ensures Reached(after, doc[i]) {
      ReachedStill(o, after, doc[n], put, doc[i]);
    }
    forall url ensures MentionedBy(doc, n + 1, url) <==> MentionedBy(doc, n, url) || doc[n].url == url {
      MentionedOneMore(doc, n, url);
    }
    hide MentionedBy, Reached, DistinctUrls;
  }

  lemma ReachedStill(o: Org, after: Org, d: EndpointSection, put: Endpoint, other: EndpointSection)
    requires PutIn(o, after, put) && put.url == d.url && put.kinds == d.kinds
    requires other == d || (other.url != d.url && Reached(o, other))
    ensures Reached(after, other)
  {
    if other == d {
      assert put in after.endpoints;
    } else {
      var e :| e in o.endpoints && e.url == other.url && SameFilter(e.kinds, other.kinds);
      assert e in after.endpoints;
    }
  }

  lemma UpsertsOneMore(existing: seq<Endpoint>, doc: seq<EndpointSection>, n: nat)
    requires 0 < n <= |doc|
    ensures var actions := ActionFor(existing, doc[n - 1]);
            && |Upserts(existing, doc, n)| == |Upserts(existing, doc, n - 1)| + |actions|
            && (|actions| == 0 ==> Upserts(existing, doc, n) == Upserts(existing, doc, n - 1))
            && (|actions| != 0 ==>
                  |actions| == 1 && Upserts(existing, doc, n) == Upserts(existing, doc, n - 1) + [actions[0]])
  {
  }

  lemma NothingUpserted(existing: seq<Endpoint>, doc: seq<EndpointSection>, o: Org)
    requires UniqueUrls(existing) && WellKept(o) && o.endpoints == existing
    ensures UpsertedTo(existing, doc, 0, o)
  {
    forall a, b | a in existing && b in existing && a.url == b.url ensures a == b {
      ByURLUnique(existing, a);
      ByURLUnique(existing, b);
    }
  }

  lemma UpsertStep(rules: Rules, existing: seq<Endpoint>, doc: seq<EndpointSection>, n: nat, before: Progress,
                   a: Action, index: nat, writes: nat)
    requires n < |doc| && UniqueUrls(existing) && DistinctUrls(doc) && ActionFor(existing, doc[n]) == [a]
    requires before.ok ==> UpsertedTo(existing, doc, n, before.org)
    ensures var after := Then(before, Apply(rules, before.org, a), index, writes);
            && after.org.row == before.org.row
            && (after.ok ==> UpsertedTo(existing, doc, n + 1, after.org))
  {
    hide Apply, UpsertedTo, UniqueUrls, DistinctUrls, ActionFor;
    if before.ok && Apply(rules, before.org, a).Some? {
      UpsertApplied(rules, existing, doc, n, before.org, a);
      RowStays(rules, before.org, a);
    }
  }

  lemma {:induction false} UpsertsReach(rules: Rules, p: Progress, doc: seq<EndpointSection>, n: nat, writes: nat)
    requires n <= |doc| && UniqueUrls(p.org.endpoints) && DistinctUrls(doc) && WellKept(p.org) && p.ok
    ensures var after := ApplyAll(rules, p, Upserts(p.org.endpoints, doc, n), writes);
            && after.org.row == p.org.row
            && (after.ok ==> UpsertedTo(p.org.endpoints, doc, n, after.org))
  {
    hide Apply, UpsertedTo, ApplyAll, UniqueUrls, DistinctUrls, WellKept, Upserts, ActionFor;
    var existing := p.org.endpoints;
    if n == 0 {
      NothingApplied(rules, p, doc, writes);
      NothingUpserted(existing, doc, p.org);
    } else {
      UpsertsReach(rules, p, doc, n - 1, writes);
      UpsertsOneMore(existing, doc, n);
      var done, actions := Upserts(existing, doc, n - 1), ActionFor(existing, doc[n - 1]);
      var before := ApplyAll(rules, p, done, writes);
      if |actions| == 0 {
        if before.ok {
          UpsertIdle(existing, doc, n - 1, before.org);
        }
      } else {
        ApplyOneMore(rules, p, done, actions[0], writes);
        assert actions == [actions[0]];
        UpsertStep(rules, existing, doc, n - 1, before, actions[0], 2 + |done|, writes);
      }
    }
  }

  lemma NothingApplied(rules: Rules, p: Progress, doc: seq<EndpointSection>, writes: nat)
    ensures Upserts(p.org.endpoints, doc, 0) == [] && Deletes(p.org.endpoints, doc, 0) == []
    ensures ApplyAll(rules, p, [], writes) == p
  {
  }

  lemma RowStays(rules: Rules, o: Org, a: Action)
    requires Apply(rules, o, a).Some?
    ensures Apply(rules, o, a).value.row == o.row
  {
  }

  // ---- Deletes ----

  /** After the first n old endpoints have been looked at: those the document omits are gone, the entries stay
      reached. */
  ghost predicate DeletedTo(existing: seq<Endpoint>, doc: seq<EndpointSection>, n: nat, o: Org)
    requires n <= |existing|
  {
    && WellKept(o) && OnePerUrl(o)
    && (forall i :: 0 <= i < |doc| ==> Reached(o, doc[i]))
    && (forall i :: n <= i < |existing| && !Mentioned(doc, existing[i].url) ==> existing[i] in o.endpoints)
    && (forall e :: e in o.endpoints && !Mentioned(doc, e.url) ==> e in existing[n..])
  }

  lemma DeleteApplied(rules: Rules, existing: seq<Endpoint>, doc: seq<EndpointSection>, n: nat, o: Org)
    requires n < |existing| && DeletedTo(existing, doc, n, o) && !Mentioned(doc, existing[n].url)
               && UniqueUrls(existing)
    requires Apply(rules, o, Delete(existing[n].id, existing[n].url)).Some?
    ensures DeletedTo(existing, doc, n + 1, Apply(rules, o, Delete(existing[n].id, existing[n].url)).value)
  {
    var gone, a := existing[n], Delete(existing[n].id, existing[n].url);
    var after := Apply(rules, o, a).value;
    forall e ensures e in after.endpoints <==> e in o.endpoints && e != gone {
      ApplyMembers(rules, o, a, e);
      if e in o.endpoints && e.id == gone.id {
        SameIdIsSame(o, e, gone);
      }
    }
    ApplyKeepsIds(rules, o, a);
    hide Apply, WellKept, Mentioned;
    forall i | 0 <= i < |doc| ensures Reached(after, doc[i]) {
      assert doc[i].url != gone.url by {
        MentionedAt(doc, i);
      }
      ReachedWithout(o, after, gone, doc[i]);
    }
    assert existing[n..] == [gone] + existing[n + 1..];
  }

  lemma MentionedAt(doc: seq<EndpointSection>, i: nat)
    requires i < |doc|
    ensures Mentioned(doc, doc[i].url)
  {
  }

  lemma ReachedWithout(o: Org, after: Org, gone: Endpoint, d: EndpointSection)
    requires forall e :: e in after.endpoints <==> e in o.endpoints && e != gone
    requires Reached(o, d) && d.url != gone.url
    ensures Reached(after, d)
  {
    var e :| e in o.endpoints && e.url == d.url && SameFilter(e.kinds, d.kinds);
    assert e in after.endpoints;
  }

  lemma DeleteIdle(existing: seq<Endpoint>, doc: seq<EndpointSection>, n: nat, o: Org)
    requires n < |existing| && DeletedTo(existing, doc, n, o) && Mentioned(doc, existing[n].url)
    ensures DeletedTo(existing, doc, n + 1, o)
  {
    assert existing[n..] == [existing[n]] + existing[n + 1..];
  }

  lemma NothingDeleted(existing: seq<Endpoint>, doc: seq<EndpointSection>, o: Org)
    requires UpsertedTo(existing, doc, |doc|, o)
    ensures DeletedTo(existing, doc, 0, o)
  {
    assert existing[0..] == existing;
    assert forall url :: MentionedBy(doc, |doc|, url) <==> Mentioned(doc, url);
  }

  lemma DeletesOneMore(existing: seq<Endpoint>, doc: seq<EndpointSection>, done: seq<Action>, n: nat)
    requires 0 < n <= |existing|
    ensures var e := existing[n - 1];
            done + Deletes(existing, doc, n) ==
            if Mentioned(doc, e.url) then done + Deletes(existing, doc, n - 1)
            else (done + Deletes(existing, doc, n - 1)) + [Delete(e.id, e.url)]
  {
  }

  lemma DeleteStep(rules: Rules, existing: seq<Endpoint>, doc: seq<EndpointSection>, n: nat, before: Progress,
                   index: nat, writes: nat)
    requires n < |existing| && UniqueUrls(existing) && !Mentioned(doc, existing[n].url)
    requires before.ok ==> DeletedTo(existing, doc, n, before.org)
    ensures var after := Then(before, Apply(rules, before.org, Delete(existing[n].id, existing[n].url)), index, writes);
            && after.org.row == before.org.row
            && (after.ok ==> DeletedTo(existing, doc, n + 1, after.org))
  {
    hide Apply, DeletedTo, UniqueUrls, Mentioned;
    var a := Delete(existing[n].id, existing[n].url);
    if before.ok && Apply(rules, before.org, a).Some? {
      DeleteApplied(rules, existing, doc, n, before.org);
      RowStays(rules, before.org, a);
    }
  }

  lemma {:induction false} DeletesReach(rules: Rules, p: Progress, doc: seq<EndpointSection>, n: nat, writes: nat)
    requires n <= |p.org.endpoints| && UniqueUrls(p.org.endpoints) && DistinctUrls(doc) && WellKept(p.org) && p.ok
    ensures var actions := Upserts(p.org.endpoints, doc, |doc|) + Deletes(p.org.endpoints, doc, n);
            var after := ApplyAll(rules, p, actions, writes);
            && after.org.row == p.org.row
            && (after.ok ==> DeletedTo(p.org.endpoints, doc, n, after.org))
  {
    hide Apply, DeletedTo, ApplyAll, UniqueUrls, DistinctUrls, WellKept, Mentioned, Upserts, Deletes, UpsertedTo;
    var existing, upserts := p.org.endpoints, Upserts(p.org.endpoints, doc, |doc|);
    if n == 0 {
      UpsertsReach(rules, p, doc, |doc|, writes);
      NothingApplied(rules, p, doc, writes);
      assert upserts + Deletes(existing, doc, 0) == upserts;
      var after := ApplyAll(rules, p, upserts, writes);
      if after.ok {
        NothingDeleted(existing, doc, after.org);
      }
    } else {
      DeletesReach(rules, p, doc, n - 1, writes);
      DeletesOneMore(existing, doc, upserts, n);
      var done, e := upserts + Deletes(existing, doc, n - 1), existing[n - 1];
      var before := ApplyAll(rules, p, done, writes);
      if Mentioned(doc, e.url) {
        if before.ok {
          DeleteIdle(existing, doc, n - 1, before.org);
        }
      } else {
        ApplyOneMore(rules, p, done, Delete(e.id, e.url), writes);
        DeleteStep(rules, existing, doc, n - 1, before, 2 + |done|, writes);
      }
    }
  }

  // ---- Main results ----

  /** The settings a document asks for, given what is there. */
  predicate SettingsReached(g: Governance, governance: GovernanceSection, retention: RetentionSection) {
    && g.allowList == governance.allowList && g.hidden == governance.hidden && g.featured == governance.featured
    && g.featuredCap == (if governance.featuredCap > 0 then governance.featuredCap else 8)
    && g.logDays == retention.logDays && g.eventDays == retention.eventDays
  }

  /** An import that succeeds: every entry of the document is an endpoint, one per URL, the settings are the resolved
      ones, and a replace leaves no endpoint the document omits. */
  lemma ImportReaches(rules: Rules, o: Org, doc: Document, mode: Mode, writes: nat)
    requires UniqueUrls(o.endpoints) && DistinctUrls(doc.endpoints) && WellKept(o)
    requires ApplyImport(rules, o, doc, mode, writes).ok
    ensures var after, existing := ApplyImport(rules, o, doc, mode, writes).org, GetGovernance(o);
            && SettingsReached(GetGovernance(after), ResolveGovernance(existing, doc.governance, mode),
                               ResolveRetention(existing, doc.retention, mode))
            && (forall i :: 0 <= i < |doc.endpoints| ==> Reached(after, doc.endpoints[i]))
            && OnePerUrl(after) && WellKept(after)
            && (mode == Replace ==> forall e :: e in after.endpoints ==> Mentioned(doc.endpoints, e.url))
  {
    var existing := GetGovernance(o);
    var governance := ResolveGovernance(existing, doc.governance, mode);
    var retention := ResolveRetention(existing, doc.retention, mode);
    var governed := Then(Progress(o, true), SetGovernance(o, governance), 0, writes);
    var retained := Then(governed, SetRetention(governed.org, retention), 1, writes);
    SettingsApplied(o, governance, retention, writes);
    hide ApplyAll, WellKept, UniqueUrls, DistinctUrls, Upserts, Deletes, SettingsReached,
      ResolveGovernance, ResolveRetention, Reached, OnePerUrl, SetGovernance, SetRetention, Mentioned;
    assert retained.ok && retained.org.endpoints == o.endpoints;
    SameEndpointsWellKept(o, retained.org);
    if mode == Replace {
      DeletesReach(rules, retained, doc.endpoints, |o.endpoints|, writes);
      assert o.endpoints[|o.endpoints|..] == [];
    } else {
      UpsertsReach(rules, retained, doc.endpoints, |doc.endpoints|, writes);
      assert PlanEndpoints(o.endpoints, doc.endpoints, mode) == Upserts(o.endpoints, doc.endpoints, |doc.endpoints|);
    }
  }

  lemma SettingsApplied(o: Org, governance: GovernanceSection, retention: RetentionSection, writes: nat)
    ensures var governed := Then(Progress(o, true), SetGovernance(o, governance), 0, writes);
            var retained := Then(governed, SetRetention(governed.org, retention), 1, writes);
            && retained.org.endpoints == o.endpoints && retained.org.nextId == o.nextId
            && (retained.ok ==>
                  retained.org.row.Some? && SettingsReached(retained.org.row.value, governance, retention))
  {
  }

  lemma SameEndpointsWellKept(o: Org, after: Org)
    requires WellKept(o) && after.endpoints == o.endpoints && after.nextId == o.nextId
    ensures WellKept(after)
  {
  }

  /** A successful replace makes the organization match the document: settings with the cap normalised, and the
      URL-to-filter map up to absent versus empty filters. */
  lemma ReplaceReachesDocument(rules: Rules, o: Org, doc: Document, writes: nat, url: string)
    requires UniqueUrls(o.endpoints) && DistinctUrls(doc.endpoints) && WellKept(o)
    requires ApplyImport(rules, o, doc, Replace, writes).ok
    ensures var after := ApplyImport(rules, o, doc, Replace, writes).org;
            && SettingsReached(GetGovernance(after), doc.governance, doc.retention)
            && (ByURL(after.endpoints, url).Some? <==> Mentioned(doc.endpoints, url))
            && (forall i ::
                  0 <= i < |doc.endpoints| && doc.endpoints[i].url == url && ByURL(after.endpoints, url).Some? ==>
                  SameFilter(ByURL(after.endpoints, url).value.kinds, doc.endpoints[i].kinds))
  {
    ImportReaches(rules, o, doc, Replace, writes);
    hide ApplyImport, WellKept, UniqueUrls, DistinctUrls, SettingsReached;
    var after := ApplyImport(rules, o, doc, Replace, writes).org;
    ByURLIs(after.endpoints, url);
    forall i | 0 <= i < |doc.endpoints| && doc.endpoints[i].url == url
      ensures ByURL(after.endpoints, url).Some?
      ensures SameFilter(ByURL(after.endpoints, url).value.kinds, doc.endpoints[i].kinds)
    {
      var e :| e in after.endpoints && e.url == url && SameFilter(e.kinds, doc.endpoints[i].kinds);
    }
  }

  lemma {:induction false} UpsertsIdleIff(existing: seq<Endpoint>, doc: seq<EndpointSection>, n: nat)
    requires n <= |doc|
    ensures |Upserts(existing, doc, n)| == 0 <==> forall i :: 0 <= i < n ==> |ActionFor(existing, doc[i])| == 0
  {
    hide ActionFor;
    if n > 0 {
      UpsertsIdleIff(existing, doc, n - 1);
    }
  }

  lemma {:induction false} DeletesIdleIff(existing: seq<Endpoint>, doc: seq<EndpointSection>, n: nat)
    requires n <= |existing|
    ensures |Deletes(existing, doc, n)| == 0 <==> forall i :: 0 <= i < n ==> Mentioned(doc, existing[i].url)
  {
    hide Mentioned;
    if n > 0 {
      DeletesIdleIff(existing, doc, n - 1);
    }
  }

  lemma SettingsSettle(existing: Governance, now: Governance, doc: Document, mode: Mode)
    requires SettingsReached(now, ResolveGovernance(existing, doc.governance, mode),
                             ResolveRetention(existing, doc.retention, mode))
    ensures SettingChanges(now, ResolveGovernance(now, doc.governance, mode),
                           ResolveRetention(now, doc.retention, mode)) == []
  {
  }

  lemma EndpointsSettle(o: Org, doc: seq<EndpointSection>, mode: Mode)
    requires OnePerUrl(o) && forall i :: 0 <= i < |doc| ==> Reached(o, doc[i])
    requires mode == Replace ==> forall e :: e in o.endpoints ==> Mentioned(doc, e.url)
    ensures PlanEndpoints(o.endpoints, doc, mode) == []
  {
    UpsertsIdleIff(o.endpoints, doc, |doc|);
    DeletesIdleIff(o.endpoints, doc, |o.endpoints|);
    hide Upserts, Deletes, Mentioned;
    forall i | 0 <= i < |doc| ensures |ActionFor(o.endpoints, doc[i])| == 0 {
      ByURLIs(o.endpoints, doc[i].url);
      var e :| e in o.endpoints && e.url == doc[i].url && SameFilter(e.kinds, doc[i].kinds);
    }
  }

  /** After a successful import in either mode, a dry run of the same import plans nothing. */
  lemma SecondDryRunPlansNothing(rules: Rules, o: Org, doc: Document, mode: Mode, writes: nat)
    requires UniqueUrls(o.endpoints) && DistinctUrls(doc.endpoints) && WellKept(o)
    requires ApplyImport(rules, o, doc, mode, writes).ok
    ensures Plan(ApplyImport(rules, o, doc, mode, writes).org, doc, mode) == []
  {
    ImportReaches(rules, o, doc, mode, writes);
    var after := ApplyImport(rules, o, doc, mode, writes).org;
    hide ApplyImport, WellKept, UniqueUrls, DistinctUrls, SettingsReached, OnePerUrl, Reached, Mentioned,
      ResolveGovernance, ResolveRetention, PlanEndpoints, SettingChanges;
    SettingsSettle(GetGovernance(o), GetGovernance(after), doc, mode);
    EndpointsSettle(after, doc.endpoints, mode);
  }

  /** A merge, however far it gets, keeps every endpoint, and leaves those the document does not mention untouched. */
  lemma MergeKeepsEndpoints(rules: Rules, o: Org, doc: Document, writes: nat, e: Endpoint)
    requires WellKept(o) && e in o.endpoints
    ensures var after := ApplyImport(rules, o, doc, Merge, writes).org;
            && (!Mentioned(doc.endpoints, e.url) ==> e in after.endpoints)
            && exists kept :: kept in after.endpoints && kept.id == e.id && kept.url == e.url
  {
    var existing := GetGovernance(o);
    var governed := Then(Progress(o, true), SetGovernance(o, ResolveGovernance(existing, doc.governance, Merge)),
                         0, writes);
    var retained := Then(governed, SetRetention(governed.org, ResolveRetention(existing, doc.retention, Merge)),
                         1, writes);
    assert retained.org.endpoints == o.endpoints && retained.org.nextId == o.nextId;
    UpsertsKeep(rules, retained, doc.endpoints, |doc.endpoints|, writes, e);
    assert PlanEndpoints(o.endpoints, doc.endpoints, Merge) == Upserts(o.endpoints, doc.endpoints, |doc.endpoints|);
    assert MentionedBy(doc.endpoints, |doc.endpoints|, e.url) <==> Mentioned(doc.endpoints, e.url);
  }

  /** An endpoint is still there, and untouched if its URL is not among the first n entries. */
  ghost predicate Keeps(doc: seq<EndpointSection>, n: nat, o: Org, e: Endpoint)
    requires n <= |doc|
  {
    && WellKept(o)
    && (!MentionedBy(doc, n, e.url) ==> e in o.endpoints)
    && exists kept :: kept in o.endpoints && kept.id == e.id && kept.url == e.url
  }

  lemma {:induction false} UpsertsKeep(rules: Rules, p: Progress, doc: seq<EndpointSection>, n: nat, writes: nat,
                                       e: Endpoint)
    requires n <= |doc| && WellKept(p.org) && e in p.org.endpoints
    ensures Keeps(doc, n, ApplyAll(rules, p, Upserts(p.org.endpoints, doc, n), writes).org, e)
  {
    hide Apply, ApplyAll, Upserts, ActionFor, WellKept, Keeps, MentionedBy;
    var existing := p.org.endpoints;
    if n > 0 {
      UpsertsKeep(rules, p, doc, n - 1, writes, e);
      UpsertsOneMore(existing, doc, n);
      var done, actions := Upserts(existing, doc, n - 1), ActionFor(existing, doc[n - 1]);
      var before := ApplyAll(rules, p, done, writes);
      KeepsIdle(doc, n - 1, before.org, e);
      if |actions| != 0 {
        ApplyOneMore(rules, p, done, actions[0], writes);
        assert actions == [actions[0]];
        if before.ok && Apply(rules, before.org, actions[0]).Some? {
          KeepsStep(rules, p.org, before.org, doc, n - 1, actions[0], e);
        }
      }
    } else {
      NothingApplied(rules, p, doc, writes);
      KeepsAtStart(doc, p.org, e);
    }
  }

  lemma KeepsAtStart(doc: seq<EndpointSection>, o: Org, e: Endpoint)
    requires WellKept(o) && e in o.endpoints
    ensures Keeps(doc, 0, o, e)
  {
  }

  lemma KeepsIdle(doc: seq<EndpointSection>, n: nat, o: Org, e: Endpoint)
    requires n < |doc| && Keeps(doc, n, o, e)
    ensures Keeps(doc, n + 1, o, e)
  {
    hide WellKept;
    MentionedOneMore(doc, n, e.url);
  }

  lemma KeepsStep(rules: Rules, start: Org, o: Org, doc: seq<EndpointSection>, n: nat, a: Action, e: Endpoint)
    requires n < |doc| && WellKept(start) && e in start.endpoints && ActionFor(start.endpoints, doc[n]) == [a]
    requires Keeps(doc, n, o, e) && Apply(rules, o, a).Some?
    ensures Keeps(doc, n + 1, Apply(rules, o, a).value, e)
  {
    MentionedOneMore(doc, n, e.url);
    hide WellKept, Apply, ActionFor, MentionedBy;
    var kept :| kept in o.endpoints && kept.id == e.id && kept.url == e.url;
    UpsertKeeps(rules, start, o, doc[n], a, e, kept);
    if e in o.endpoints {
      UpsertKeeps(rules, start, o, doc[n], a, e, e);
    }
  }

  lemma UpsertKeeps(rules: Rules, start: Org, o: Org, d: EndpointSection, a: Action, e: Endpoint, kept: Endpoint)
    requires WellKept(start) && WellKept(o) && e in start.endpoints && ActionFor(start.endpoints, d) == [a]
    requires kept in o.endpoints && kept.id == e.id && kept.url == e.url && Apply(rules, o, a).Some?
    ensures var after := Apply(rules, o, a).value;
            && WellKept(after)
            && (d.url != e.url ==> kept in after.endpoints)
            && exists k :: k in after.endpoints && k.id == e.id && k.url == e.url
  {
    var after := Apply(rules, o, a).value;
    ApplyKeepsIds(rules, o, a);
    ByURLIs(start.endpoints, d.url);
    ApplyMembers(rules, o, a, kept);
    if a.Update? && a.id == e.id {
      SameIdIsSame(start, e, ByURL(start.endpoints, d.url).value);
      ApplyMembers(rules, o, a, Endpoint(a.id, a.url, a.kinds));
      assert Endpoint(a.id, a.url, a.kinds) in after.endpoints;
    } else {
      assert kept in after.endpoints;
    }
  }

  /** Endpoint actions never touch the settings. */
  lemma {:induction false} ApplyAllKeepsRow(rules: Rules, p: Progress, actions: seq<Action>, writes: nat)
    ensures ApplyAll(rules, p, actions, writes).org.row == p.org.row
  {
    if actions != [] {
      ApplyAllKeepsRow(rules, p, actions[..|actions| - 1], writes);
    }
  }

  /** A merge keeps every setting the document does not mention, whatever becomes of the endpoints. */
  lemma MergeKeepsSettings(rules: Rules, o: Org, doc: Document, writes: nat)
    requires ApplyImport(rules, o, doc, Merge, writes).ok
    ensures var was, now := GetGovernance(o), GetGovernance(ApplyImport(rules, o, doc, Merge, writes).org);
            && now.allowList == (if doc.governance.allowList.Some? then doc.governance.allowList else was.allowList)
            && now.hidden == (if doc.governance.hidden != [] then doc.governance.hidden else was.hidden)
            && now.featured == (if doc.governance.featured != [] then doc.governance.featured else was.featured)
            && now.featuredCap == (if doc.governance.featuredCap > 0 then doc.governance.featuredCap
                                   else if was.featuredCap > 0 then was.featuredCap else 8)
            && now.logDays == (if doc.retention.logDays.Some? then doc.retention.logDays else was.logDays)
            && now.eventDays == (if doc.retention.eventDays.Some? then doc.retention.eventDays else was.eventDays)
  {
    var existing := GetGovernance(o);
    var governance := ResolveGovernance(existing, doc.governance, Merge);
    var retention := ResolveRetention(existing, doc.retention, Merge);
    var governed := Then(Progress(o, true), SetGovernance(o, governance), 0, writes);
    var retained := Then(governed, SetRetention(governed.org, retention), 1, writes);
    SettingsApplied(o, governance, retention, writes);
    hide PlanEndpoints, SetGovernance, SetRetention;
    ApplyAllKeepsRow(rules, retained, PlanEndpoints(o.endpoints, doc.endpoints, Merge), writes);
  }

  /** Replacing with an organization's own export plans nothing exactly when endpoints that share a URL share a filter,
      as URLs are not otherwise kept unique, and the stored cap is positive. */
  lemma OwnExportPlansNothingIff(o: Org)
    ensures Plan(o, Export(o), Replace) == [] <==>
            && GetGovernance(o).featuredCap > 0
            && forall a, b :: a in o.endpoints && b in o.endpoints && a.url == b.url ==> SameFilter(a.kinds, b.kinds)
  {
    OwnEndpointsIdleIff(o);
    hide PlanEndpoints, SameFilter;
    var actions := PlanEndpoints(o.endpoints, Export(o).endpoints, Replace);
    assert |EndpointChanges(actions)| == |actions|;
  }

  lemma OwnActionIdleIff(o: Org, i: nat)
    requires i < |o.endpoints|
    ensures var mine := ByURL(o.endpoints, o.endpoints[i].url);
            && mine.Some? && mine.value in o.endpoints && mine.value.url == o.endpoints[i].url
            && (|ActionFor(o.endpoints, Export(o).endpoints[i])| == 0 <==>
                SameFilter(mine.value.kinds, o.endpoints[i].kinds))
  {
    ByURLIs(o.endpoints, o.endpoints[i].url);
  }

  lemma OwnEndpointsIdleIff(o: Org)
    ensures |PlanEndpoints(o.endpoints, Export(o).endpoints, Replace)| == 0 <==>
            forall a, b :: a in o.endpoints && b in o.endpoints && a.url == b.url ==> SameFilter(a.kinds, b.kinds)
  {
    var doc, es := Export(o).endpoints, o.endpoints;
    OwnDeletesNothing(o);
    UpsertsIdleIff(es, doc, |doc|);
    hide ActionFor, Upserts, Deletes, ByURL, Export, SameFilter;
    assert |PlanEndpoints(es, doc, Replace)| == |Upserts(es, doc, |doc|)|;
    forall i | 0 <= i < |es|
      ensures ByURL(es, es[i].url).Some?
      ensures |ActionFor(es, doc[i])| == 0 <==> SameFilter(ByURL(es, es[i].url).value.kinds, es[i].kinds)
    {
      OwnActionIdleIff(o, i);
    }
    OwnFiltersAgreeIff(o);
  }

  lemma OwnDeletesNothing(o: Org)
    ensures |Export(o).endpoints| == |o.endpoints|
    ensures |Deletes(o.endpoints, Export(o).endpoints, |o.endpoints|)| == 0
  {
    var doc, es := Export(o).endpoints, o.endpoints;
    DeletesIdleIff(es, doc, |es|);
    forall i | 0 <= i < |es| ensures Mentioned(doc, es[i].url) {
      assert doc[i].url == es[i].url;
    }
  }

  /** Each endpoint has the filter its URL stands for exactly when all with that URL have one filter. */
  lemma OwnFiltersAgreeIff(o: Org)
    ensures (forall i :: 0 <= i < |o.endpoints| ==>
               var mine := ByURL(o.endpoints, o.endpoints[i].url);
               mine.Some? && SameFilter(mine.value.kinds, o.endpoints[i].kinds))
            <==> forall a, b :: a in o.endpoints && b in o.endpoints && a.url == b.url ==> SameFilter(a.kinds, b.kinds)
  {
    var es := o.endpoints;
    hide ActionFor, Export;
    forall i | 0 <= i < |es|
      ensures ByURL(es, es[i].url).Some? && ByURL(es, es[i].url).value in es
                && ByURL(es, es[i].url).value.url == es[i].url
    {
      ByURLIs(es, es[i].url);
    }
    hide ByURL;
    if forall i :: 0 <= i < |es| ==> SameFilter(ByURL(es, es[i].url).value.kinds, es[i].kinds) {
      forall a, b | a in es && b in es && a.url == b.url ensures SameFilter(a.kinds, b.kinds) {
        var i :| 0 <= i < |es| && es[i] == a;
        var j :| 0 <= j < |es| && es[j] == b;
      }
    }
  }

  /** A document that names one URL twice with different filters plans something against every organization: it can
      never become a no-op. */
  lemma ConflictingDocumentNeverSettles(o: Org, doc: Document, mode: Mode, i: nat, j: nat)
    requires i < j < |doc.endpoints| && doc.endpoints[i].url == doc.endpoints[j].url
    requires !SameFilter(doc.endpoints[i].kinds, doc.endpoints[j].kinds)
    ensures Plan(o, doc, mode) != []
  {
    UpsertsIdleIff(o.endpoints, doc.endpoints, |doc.endpoints|);
    assert ActionFor(o.endpoints, doc.endpoints[i]) != [] || ActionFor(o.endpoints, doc.endpoints[j]) != [];
    var actions := PlanEndpoints(o.endpoints, doc.endpoints, mode);
    assert actions != [];
    assert EndpointChanges(actions)[0] in Plan(o, doc, mode);
  }

  // ---- What a dry run tells ----

  /** If a dry run plans nothing, the import, however far it gets, changes no setting and no endpoint. */
  lemma NothingPlannedNothingChanged(rules: Rules, o: Org, doc: Document, mode: Mode, writes: nat)
    requires Plan(o, doc, mode) == []
    ensures var after := ApplyImport(rules, o, doc, mode, writes).org;
            GetGovernance(after) == GetGovernance(o) && after.endpoints == o.endpoints && after.nextId == o.nextId
  {
    var existing := GetGovernance(o);
    var governance := ResolveGovernance(existing, doc.governance, mode);
    var retention := ResolveRetention(existing, doc.retention, mode);
    var actions := PlanEndpoints(o.endpoints, doc.endpoints, mode);
    PlanParts(existing, governance, retention, actions);
    hide PlanEndpoints, ResolveGovernance, ResolveRetention, SettingChanges;
    assert actions == [];
  }

  lemma PlanParts(existing: Governance, governance: GovernanceSection, retention: RetentionSection,
                  actions: seq<Action>)
    requires SettingChanges(existing, governance, retention) + EndpointChanges(actions) == []
    ensures actions == []
    ensures existing.allowList == governance.allowList && existing.hidden == governance.hidden
    ensures existing.featured == governance.featured && existing.featuredCap == EffectiveCap(governance.featuredCap)
    ensures existing.logDays == retention.logDays && existing.eventDays == retention.eventDays
  {
    assert |EndpointChanges(actions)| == |actions|;
  }

  /** A successful import leaves the settings as they were exactly when the dry run planned no change to them. */
  lemma SettingsUnchangedIff(rules: Rules, o: Org, doc: Document, mode: Mode, writes: nat)
    requires ApplyImport(rules, o, doc, mode, writes).ok
    ensures GetGovernance(ApplyImport(rules, o, doc, mode, writes).org) == GetGovernance(o) <==>
            forall c :: c in Plan(o, doc, mode) ==> c.EndpointChange?
  {
    var existing := GetGovernance(o);
    var governance := ResolveGovernance(existing, doc.governance, mode);
    var retention := ResolveRetention(existing, doc.retention, mode);
    var actions := PlanEndpoints(o.endpoints, doc.endpoints, mode);
    var governed := Then(Progress(o, true), SetGovernance(o, governance), 0, writes);
    var retained := Then(governed, SetRetention(governed.org, retention), 1, writes);
    SettingsApplied(o, governance, retention, writes);
    SettingChangesIff(existing, governance, retention);
    hide PlanEndpoints, SetGovernance, SetRetention, ResolveGovernance, ResolveRetention, SettingChanges;
    ApplyAllKeepsRow(rules, retained, actions, writes);
    var settings := SettingChanges(existing, governance, retention);
    assert forall c :: c in EndpointChanges(actions) ==> c.EndpointChange?;
    assert forall c :: c in Plan(o, doc, mode) <==> c in settings || c in EndpointChanges(actions);
    assert settings == [] || settings[0] in settings;
  }

  lemma SettingChangesIff(existing: Governance, governance: GovernanceSection, retention: RetentionSection)
    ensures SettingChanges(existing, governance, retention) == [] <==>
            SettingsReached(existing, governance, retention)
    ensures forall c :: c in SettingChanges(existing, governance, retention) ==> !c.EndpointChange?
  {
  }

  /** Settings are refused exactly for more featured integrations than the cap, which is 8 unless a positive one is
      given, or for a negative retention window, stored or asked for. */
  lemma SettingsRefusedIff(o: Org, governance: GovernanceSection, retention: RetentionSection)
    ensures o.row == None ==> GetGovernance(o) == Governance(None, [], [], 8, None, None)
    ensures var g := GetGovernance(o);
            SetGovernance(o, governance) == None <==>
            || |governance.featured| > (if governance.featuredCap > 0 then governance.featuredCap else 8)
            || (g.logDays.Some? && g.logDays.value < 0) || (g.eventDays.Some? && g.eventDays.value < 0)
    ensures SetRetention(o, retention) == None <==>
            || (retention.logDays.Some? && retention.logDays.value < 0)
            || (retention.eventDays.Some? && retention.eventDays.value < 0)
  {
  }

  // ---- When an import succeeds ----

  /** Every endpoint of the old list is still there under its id, and there is room for the rest. */
  ghost predicate Roomy(rules: Rules, existing: seq<Endpoint>, o: Org, creates: nat) {
    && (forall i :: 0 <= i < |existing| ==> Has(o.endpoints, existing[i].id))
    && |o.endpoints| + creates <= rules.cap
  }

  lemma UpsertSucceeds(rules: Rules, existing: seq<Endpoint>, o: Org, d: EndpointSection, left: nat)
    requires Roomy(rules, existing, o, left + 1) && Accepted(rules, d.url, d.kinds) && |ActionFor(existing, d)| != 0
    ensures ActionFor(existing, d) == [ActionFor(existing, d)[0]]
    ensures Apply(rules, o, ActionFor(existing, d)[0]).Some?
    ensures Roomy(rules, existing, Apply(rules, o, ActionFor(existing, d)[0]).value, left)
  {
    ByURLIs(existing, d.url);
    var a := ActionFor(existing, d)[0];
    if a.Update? {
      var i :| 0 <= i < |existing| && existing[i].id == a.id;
    }
    hide Accepted, SameFilter, ByURL;
    var after := Apply(rules, o, a).value;
    forall i | 0 <= i < |existing| ensures Has(after.endpoints, existing[i].id) {
      var k :| 0 <= k < |o.endpoints| && o.endpoints[k].id == existing[i].id;
      assert after.endpoints[k].id == existing[i].id;
    }
  }

  lemma {:induction false} UpsertsSucceed(rules: Rules, p: Progress, doc: seq<EndpointSection>, n: nat, writes: nat)
    requires n <= |doc| && p.ok && |p.org.endpoints| + |doc| <= rules.cap
    requires forall i :: 0 <= i < |doc| ==> Accepted(rules, doc[i].url, doc[i].kinds)
    requires writes >= 2 + |Upserts(p.org.endpoints, doc, n)|
    ensures var after := ApplyAll(rules, p, Upserts(p.org.endpoints, doc, n), writes);
            after.ok && Roomy(rules, p.org.endpoints, after.org, |doc| - n)
  {
    hide Apply, ActionFor, Accepted, Upserts, Roomy, ApplyAll;
    var existing := p.org.endpoints;
    if n == 0 {
      NoUpserts(rules, p, doc, writes);
    } else {
      UpsertsOneMore(existing, doc, n);
      var done, actions := Upserts(existing, doc, n - 1), ActionFor(existing, doc[n - 1]);
      UpsertsSucceed(rules, p, doc, n - 1, writes);
      var before := ApplyAll(rules, p, done, writes);
      if |actions| != 0 {
        UpsertSucceeds(rules, existing, before.org, doc[n - 1], |doc| - n);
        ApplyOneMore(rules, p, done, actions[0], writes);
      } else {
        RoomyRelaxed(rules, existing, before.org, |doc| - n);
      }
    }
  }

  lemma NoUpserts(rules: Rules, p: Progress, doc: seq<EndpointSection>, writes: nat)
    requires |p.org.endpoints| + |doc| <= rules.cap
    ensures ApplyAll(rules, p, Upserts(p.org.endpoints, doc, 0), writes) == p
    ensures Roomy(rules, p.org.endpoints, p.org, |doc|)
  {
  }

  lemma RoomyRelaxed(rules: Rules, existing: seq<Endpoint>, o: Org, left: nat)
    requires Roomy(rules, existing, o, left + 1)
    ensures Roomy(rules, existing, o, left)
  {
  }

  lemma DeleteLeavesOthers(rules: Rules, existing: seq<Endpoint>, o: Org, n: nat)
    requires n < |existing| && forall i, j :: 0 <= i < j < |existing| ==> existing[i].id != existing[j].id
    requires forall i :: n <= i < |existing| ==> Has(o.endpoints, existing[i].id)
    ensures Apply(rules, o, Delete(existing[n].id, existing[n].url)).Some?
    ensures var after := Apply(rules, o, Delete(existing[n].id, existing[n].url)).value;
            forall i :: n < i < |existing| ==> Has(after.endpoints, existing[i].id)
  {
    var id := existing[n].id;
    var left := Filter(o.endpoints, (e: Endpoint) => e.id != id);
    forall i | n < i < |existing| ensures Has(left, existing[i].id) {
      var k :| 0 <= k < |o.endpoints| && o.endpoints[k].id == existing[i].id;
      FilterMember(o.endpoints, (e: Endpoint) => e.id != id, o.endpoints[k]);
      var j :| 0 <= j < |left| && left[j] == o.endpoints[k];
    }
  }

  lemma {:induction false} DeletesSucceed(rules: Rules, p: Progress, doc: seq<EndpointSection>, n: nat, writes: nat)
    requires n <= |p.org.endpoints| && p.ok && WellKept(p.org) && |p.org.endpoints| + |doc| <= rules.cap
    requires forall i :: 0 <= i < |doc| ==> Accepted(rules, doc[i].url, doc[i].kinds)
    requires writes >= 2 + |Upserts(p.org.endpoints, doc, |doc|) + Deletes(p.org.endpoints, doc, n)|
    ensures var existing := p.org.endpoints;
            var after := ApplyAll(rules, p, Upserts(existing, doc, |doc|) + Deletes(existing, doc, n), writes);
            after.ok && forall i :: n <= i < |existing| ==> Has(after.org.endpoints, existing[i].id)
  {
    hide Apply, Accepted, Upserts, ApplyAll, Mentioned, Has;
    var existing := p.org.endpoints;
    var upserts := Upserts(existing, doc, |doc|);
    if n == 0 {
      UpsertsSucceed(rules, p, doc, |doc|, writes);
      assert upserts + Deletes(existing, doc, 0) == upserts;
    } else {
      var done := upserts + Deletes(existing, doc, n - 1);
      DeletesSucceed(rules, p, doc, n - 1, writes);
      var before, e := ApplyAll(rules, p, done, writes), existing[n - 1];
      if Mentioned(doc, e.url) {
        assert upserts + Deletes(existing, doc, n) == done;
      } else {
        assert upserts + Deletes(existing, doc, n) == done + [Delete(e.id, e.url)];
        DeleteLeavesOthers(rules, existing, before.org, n - 1);
        ApplyOneMore(rules, p, done, Delete(e.id, e.url), writes);
      }
    }
  }

  /** An import succeeds in either mode if its settings are acceptable, every entry is, there is room for all of them,
      and the store takes two writes and one for each action. */
  lemma ImportSucceeds(rules: Rules, o: Org, doc: Document, mode: Mode, writes: nat)
    requires var g := GetGovernance(o);
             && SetGovernance(o, ResolveGovernance(g, doc.governance, mode)).Some?
             && SetRetention(o, ResolveRetention(g, doc.retention, mode)).Some?
    requires forall i :: 0 <= i < |doc.endpoints| ==> Accepted(rules, doc.endpoints[i].url, doc.endpoints[i].kinds)
    requires WellKept(o) && |o.endpoints| + |doc.endpoints| <= rules.cap
    requires writes >= 2 + |PlanEndpoints(o.endpoints, doc.endpoints, mode)|
    ensures ApplyImport(rules, o, doc, mode, writes).ok
  {
    var existing := GetGovernance(o);
    var governed := Then(Progress(o, true), SetGovernance(o, ResolveGovernance(existing, doc.governance, mode)),
                         0, writes);
    var retained := Then(governed, SetRetention(governed.org, ResolveRetention(existing, doc.retention, mode)),
                         1, writes);
    assert retained.ok && retained.org.endpoints == o.endpoints && retained.org.nextId == o.nextId;
    if mode == Replace {
      DeletesSucceed(rules, retained, doc.endpoints, |o.endpoints|, writes);
    } else {
      UpsertsSucceed(rules, retained, doc.endpoints, |doc.endpoints|, writes);
      assert PlanEndpoints(o.endpoints, doc.endpoints, Merge) == Upserts(o.endpoints, doc.endpoints, |doc.endpoints|);
    }
  }

  /** An endpoint entry is refused exactly for a URL or an event type the delivery side refuses, or an empty filter. */
  lemma AcceptedIff(rules: Rules, url: string, kinds: Option<seq<string>>)
    ensures Accepted(rules, url, kinds) <==>
            && rules.urlOk(url)
            && (kinds == None || (kinds.value != [] && forall k :: k in kinds.value ==> rules.kindOk(k)))
  {
    if kinds.Some? {
      assert (forall k :: k in kinds.value ==> rules.kindOk(k)) <==>
             forall i :: 0 <= i < |kinds.value| ==> rules.kindOk(kinds.value[i]);
    }
  }

  // ---- What is reported ----

  /** A plan names each setting exactly when it would change, and each endpoint action that would be applied. */
  lemma PlanReports(o: Org, doc: Document, mode: Mode, a: Action)
    ensures var g, plan := GetGovernance(o), Plan(o, doc, mode);
            var governance := ResolveGovernance(g, doc.governance, mode);
            var retention := ResolveRetention(g, doc.retention, mode);
            && (AllowListChange in plan <==> g.allowList != governance.allowList)
            && (HiddenChange in plan <==> g.hidden != governance.hidden)
            && (OnboardingChange in plan <==>
                  || g.featured != governance.featured
                  || g.featuredCap != (if governance.featuredCap > 0 then governance.featuredCap else 8))
            && (LogDaysChange in plan <==> g.logDays != retention.logDays)
            && (EventDaysChange in plan <==> g.eventDays != retention.eventDays)
            && (EndpointChange(a) in plan <==> a in PlanEndpoints(o.endpoints, doc.endpoints, mode))
  {
    hide ResolveGovernance, ResolveRetention, PlanEndpoints;
    var actions := PlanEndpoints(o.endpoints, doc.endpoints, mode);
    EndpointChangesAre(actions, a);
    hide EndpointChanges;
  }

  lemma EndpointChangesAre(actions: seq<Action>, a: Action)
    ensures EndpointChange(a) in EndpointChanges(actions) <==> a in actions
    ensures forall c :: c in EndpointChanges(actions) ==> c.EndpointChange?
  {
    var changes := EndpointChanges(actions);
    if i :| 0 <= i < |actions| && actions[i] == a {
      assert changes[i] == EndpointChange(a);
    }
  }

  /** What an entry plans: a creation if no endpoint has its URL; nothing if the last one listed with it has the same
      event types, where no filter and an empty one are alike; an update of that one otherwise. */
  lemma EntryPlans(existing: seq<Endpoint>, d: EndpointSection, i: nat)
    ensures (forall k :: 0 <= k < |existing| ==> existing[k].url != d.url) ==>
              ActionFor(existing, d) == [Create(d.url, d.kinds)]
    ensures i < |existing| && existing[i].url == d.url
            && (forall k :: i < k < |existing| ==> existing[k].url != d.url) ==>
              var alike := || existing[i].kinds == d.kinds
                           || (existing[i].kinds == None && d.kinds == Some([]))
                           || (existing[i].kinds == Some([]) && d.kinds == None);
              ActionFor(existing, d) == if alike then [] else [Update(existing[i].id, d.url, d.kinds)]
  {
    ByURLIs(existing, d.url);
    if i < |existing| && existing[i].url == d.url && (forall k :: i < k < |existing| ==> existing[k].url != d.url) {
      LastListed(existing, d.url, i);
    }
    hide ByURL;
  }

  lemma {:induction false} LastListed(existing: seq<Endpoint>, url: string, i: nat)
    requires i < |existing| && existing[i].url == url && forall k :: i < k < |existing| ==> existing[k].url != url
    ensures ByURL(existing, url) == Some(existing[i])
  {
    if i < |existing| - 1 {
      LastListed(existing[..|existing| - 1], url, i);
    }
  }

  /** An action is refused exactly for what the delivery side refuses, for a creation at the cap, or for an endpoint
      that is gone. */
  lemma ActionRefusedIff(rules: Rules, o: Org, action: Action)
    ensures var stored := action.Create? || exists i :: 0 <= i < |o.endpoints| && o.endpoints[i].id == action.id;
            Apply(rules, o, action) == None <==>
              || (action.Create? && |o.endpoints| >= rules.cap) || !stored
              || (!action.Delete? && !Accepted(rules, action.url, action.kinds))
  {
    if !action.Create? && Has(o.endpoints, action.id) {
      var i :| 0 <= i < |o.endpoints| && o.endpoints[i].id == action.id;
    }
    hide Accepted;
  }

  lemma {:induction false} ActionsNeed(rules: Rules, p: Progress, actions: seq<Action>, writes: nat)
    requires ApplyAll(rules, p, actions, writes).ok
    ensures p.ok && (actions != [] ==> writes >= 2 + |actions|)
    ensures forall k :: 0 <= k < |actions| && !actions[k].Delete? ==> Accepted(rules, actions[k].url, actions[k].kinds)
  {
    hide Accepted;
    if actions != [] {
      ActionsNeed(rules, p, actions[..|actions| - 1], writes);
    }
  }

  /** And it succeeds only if its settings are acceptable, the entries it acts on are, and each write is taken. */
  lemma ImportNeeds(rules: Rules, o: Org, doc: Document, mode: Mode, writes: nat)
    requires ApplyImport(rules, o, doc, mode, writes).ok
    ensures var g, plan := GetGovernance(o), PlanEndpoints(o.endpoints, doc.endpoints, mode);
            && SetGovernance(o, ResolveGovernance(g, doc.governance, mode)).Some?
            && SetRetention(o, ResolveRetention(g, doc.retention, mode)).Some?
            && writes >= 2 + |plan|
            && forall k :: 0 <= k < |plan| && !plan[k].Delete? ==> Accepted(rules, plan[k].url, plan[k].kinds)
  {
    var g := GetGovernance(o);
    var governed := Then(Progress(o, true), SetGovernance(o, ResolveGovernance(g, doc.governance, mode)), 0, writes);
    var retained := Then(governed, SetRetention(governed.org, ResolveRetention(g, doc.retention, mode)), 1, writes);
    hide ResolveGovernance, ResolveRetention, PlanEndpoints, Accepted;
    ActionsNeed(rules, retained, PlanEndpoints(o.endpoints, doc.endpoints, mode), writes);
  }

  /** An import whose store fails on the first write changes nothing; one that fails on the second has stored the
      governance settings and left retention and endpoints as they were. */
  lemma EarlyFailureKeeps(rules: Rules, o: Org, doc: Document, mode: Mode)
    ensures ApplyImport(rules, o, doc, mode, 0) == Progress(o, false)
    ensures var g, after := GetGovernance(o), ApplyImport(rules, o, doc, mode, 1);
            var update := ResolveGovernance(g, doc.governance, mode);
            && !after.ok && after.org.endpoints == o.endpoints && after.org.nextId == o.nextId
            && (SetGovernance(o, update).Some? ==>
                  var g' := GetGovernance(after.org);
                  && g'.allowList == update.allowList && g'.hidden == update.hidden && g'.featured == update.featured
                  && g'.logDays == g.logDays && g'.eventDays == g.eventDays)
  {
    hide ResolveGovernance, ResolveRetention, PlanEndpoints;
  }
}
