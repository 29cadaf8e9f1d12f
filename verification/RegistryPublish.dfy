/** Publishing a provider's bundles: version assignment and gates, and tool identities that outlive versions
    (server/internal/registryservice/facade.go, bundlediff.go). */
module RegistryPublish {
  import opened Common
  import opened SemVer

  datatype Tool = Tool(id: string, slug: string, content: string)

  datatype Bundle = Bundle(version: string, tools: seq<Tool>, triggers: seq<string>)

  /** samplesValid is the answer of the output-schema gate. */
  datatype Request = Request(formatVersion: int, samplesValid: bool, version: string, tools: seq<Tool>,
                             triggers: seq<string>)

  /** One provider's part of the store: every version saved, and the one saved last. */
  datatype Shelf = Shelf(byVersion: map<string, Bundle>, latest: Option<string>)

  datatype Error =
    | InvalidProvider
    | InvalidFormat
    | InvalidSample
    | InvalidVersion
    | VersionConflict
    | IllegalBump
    | StoreFailed

  datatype Resolution = Assigned(version: string) | Refused(error: Error)

  datatype Answer = Published(bundle: Bundle) | Rejected(error: Error)

  // ---- Diffs ----

  function Slugs(tools: seq<Tool>): set<string> { set t | t in tools :: t.slug }

  function SlugSet(triggers: seq<string>): set<string> { set t | t in triggers }

  /** What the request adds to, or removes from, the provider's latest bundle. */
  predicate HasAdditions(prior: Bundle, req: Request) {
    Slugs(req.tools) - Slugs(prior.tools) != {} || SlugSet(req.triggers) - SlugSet(prior.triggers) != {}
  }

  predicate HasRemovals(prior: Bundle, req: Request) {
    Slugs(prior.tools) - Slugs(req.tools) != {} || SlugSet(prior.triggers) - SlugSet(req.triggers) != {}
  }

  method ToSlugSet(slugs: seq<string>) returns (all: set<string>)
    ensures all == SlugSet(slugs)
  {
    all := {};
    for i := 0 to |slugs|
      invariant all == SlugSet(slugs[..i])
    {
      assert slugs[..i + 1] == slugs[..i] + [slugs[i]];
      all := all + {slugs[i]};
    }
    assert slugs[..|slugs|] == slugs;
  }

  /** The members of one set missing from another, each once, in whatever order the set gives them. */
  method Missing(these: set<string>, from: set<string>) returns (slugs: seq<string>)
    ensures SlugSet(slugs) == these - from && |slugs| == |these - from|
  {
    slugs := [];
    assert SlugSet(slugs) == {};
    hide SlugSet;
    var left := these;
    ghost var done, found := {}, {};
    while left != {}
      invariant done + left == these && done !! left && found == done - from
      invariant SlugSet(slugs) == found && |slugs| == |found|
      decreases |left|
    {
      var slug :| slug in left;
      MissingStep(done, from, slug, slugs);
      left, done := left - {slug}, done + {slug};
      if slug !in from {
        slugs := slugs + [slug];
      }
      found := done - from;
    }
  }

  lemma MissingStep(done: set<string>, from: set<string>, slug: string, slugs: seq<string>)
    requires slug !in done && SlugSet(slugs) == done - from
    ensures (done + {slug}) - from == if slug in from then done - from else (done - from) + {slug}
    ensures slug !in from ==> |(done - from) + {slug}| == |done - from| + 1
    ensures slug !in from ==> SlugSet(slugs + [slug]) == (done - from) + {slug}
  {
  }

  method DiffSlugs(prior: seq<string>, next: seq<string>) returns (added: seq<string>, removed: seq<string>)
    ensures SlugSet(added) == SlugSet(next) - SlugSet(prior) && |added| == |SlugSet(added)|
    ensures SlugSet(removed) == SlugSet(prior) - SlugSet(next) && |removed| == |SlugSet(removed)|
  {
    var priorSet := ToSlugSet(prior);
    var nextSet := ToSlugSet(next);
    added := Missing(nextSet, priorSet);
    removed := Missing(priorSet, nextSet);
  }

  // ---- Versions ----

  function AutoNextVersion(prior: Version, removals: bool, additions: bool): Version {
    if removals then Version(Wrap(prior.major + 1), 0, 0)
    else if additions then Version(prior.major, Wrap(prior.minor + 1), 0)
    else Version(prior.major, prior.minor, Wrap(prior.patch + 1))
  }

  function Prior(shelf: Shelf): Option<Bundle> {
    if shelf.latest.Some? && shelf.latest.value in shelf.byVersion
    then Some(shelf.byVersion[shelf.latest.value]) else None
  }

  function ResolveRequested(shelf: Shelf, requested: string, prior: Version, removals: bool, additions: bool)
    : Resolution
  {
    if requested in shelf.byVersion then Refused(VersionConflict)
    else
      var parsed := ParseSemver(requested);
      if parsed.None? then Refused(InvalidVersion)
      else
        var v := parsed.value;
        if Compare(v, prior) <= 0 then Refused(IllegalBump)
        else if removals && v.major <= prior.major then Refused(IllegalBump)
        else if additions && v.major == prior.major && v.minor <= prior.minor then Refused(IllegalBump)
        else Assigned(requested)
  }

  function ResolveVersion(shelf: Shelf, req: Request): Resolution {
    var prior := Prior(shelf);
    if prior.None? then
      if req.version == "" then Assigned("1.0.0")
      else if ParseSemver(req.version).None? then Refused(InvalidVersion)
      else Assigned(req.version)
    else
      var last := ParseSemver(prior.value.version);
      var removals, additions := HasRemovals(prior.value, req), HasAdditions(prior.value, req);
      if last.None? then Refused(InvalidVersion)
      else if req.version == "" then Assigned(ToString(AutoNextVersion(last.value, removals, additions)))
      else ResolveRequested(shelf, req.version, last.value, removals, additions)
  }

  // ---- Tool identities ----

  function IdsBySlug(tools: seq<Tool>): map<string, string> {
    if tools == [] then map[]
    else IdsBySlug(tools[..|tools| - 1])[tools[|tools| - 1].slug := tools[|tools| - 1].id]
  }

  function PriorIds(shelf: Shelf): map<string, string> {
    if Prior(shelf).None? then map[] else IdsBySlug(Prior(shelf).value.tools)
  }

  /** drawn[i] is what the id minter answers if asked for tool i. */
  function MintToolIDs(tools: seq<Tool>, prior: map<string, string>, drawn: seq<string>): seq<Tool>
    requires |drawn| == |tools|
  {
    seq(|tools|, i requires 0 <= i < |tools| =>
        tools[i].(id := if tools[i].slug in prior then prior[tools[i].slug] else drawn[i]))
  }

  function Finalized(shelf: Shelf, req: Request, drawn: seq<string>, version: string): Bundle
    requires |drawn| == |req.tools|
  {
    Bundle(version, MintToolIDs(req.tools, PriorIds(shelf), drawn), req.triggers)
  }

  function Publish(shelf: Shelf, req: Request, drawn: seq<string>, saves: bool): (Shelf, Answer)
    requires |drawn| == |req.tools|
  {
    if req.formatVersion != 1 then (shelf, Rejected(InvalidFormat))
    else if !req.samplesValid then (shelf, Rejected(InvalidSample))
    else
      var resolved := ResolveVersion(shelf, req);
      if resolved.Refused? then (shelf, Rejected(resolved.error))
      else if !saves then (shelf, Rejected(StoreFailed))
      else
        var bundle := Finalized(shelf, req, drawn, resolved.version);
        (Shelf(shelf.byVersion[bundle.version := bundle], Some(bundle.version)), Published(bundle))
  }

  /** The registry service over the shelves of all providers. */
  class Registry {
    var shelves: map<string, Shelf>

    constructor ()
      ensures shelves == map[]
    {
      shelves := map[];
    }

    function ShelfOf(provider: string): Shelf
      reads this
    {
      if provider in shelves then shelves[provider] else Shelf(map[], None)
    }

    method PriorToolIDs(tools: seq<Tool>) returns (ids: map<string, string>)
      ensures ids == IdsBySlug(tools)
    {
      ids := map[];
      for i := 0 to |tools|
        invariant ids == IdsBySlug(tools[..i])
      {
        assert tools[..i + 1][..i] == tools[..i];
        ids := ids[tools[i].slug := tools[i].id];
      }
      assert tools[..|tools|] == tools;
    }

    method Mint(tools: seq<Tool>, prior: map<string, string>, drawn: seq<string>) returns (minted: seq<Tool>)
      requires |drawn| == |tools|
      ensures minted == MintToolIDs(tools, prior, drawn)
    {
      minted := [];
      for i := 0 to |tools|
        invariant |minted| == i
        invariant forall j :: 0 <= j < i ==> minted[j] == MintToolIDs(tools, prior, drawn)[j]
      {
        var tool := tools[i];
        if tool.slug in prior {
          tool := tool.(id := prior[tool.slug]);
        } else {
          tool := tool.(id := drawn[i]);
        }
        minted := minted + [tool];
      }
    }

    method PublishBundle(provider: string, req: Request, drawn: seq<string>, saves: bool) returns (answer: Answer)
      requires |drawn| == |req.tools|
      modifies this
      ensures provider == "" ==> answer == Rejected(InvalidProvider) && shelves == old(shelves)
      ensures provider != "" ==> (ShelfOf(provider), answer) == Publish(old(ShelfOf(provider)), req, drawn, saves)
      ensures forall other :: other != provider ==> ShelfOf(other) == old(ShelfOf(other))
    {
      if provider == "" {
        return Rejected(InvalidProvider);
      }
      if req.formatVersion != 1 {
        return Rejected(InvalidFormat);
      }
      if !req.samplesValid {
        return Rejected(InvalidSample);
      }
      var shelf := ShelfOf(provider);
      var resolved := ResolveVersion(shelf, req);
      if resolved.Refused? {
        return Rejected(resolved.error);
      }
      var prior := map[];
      if Prior(shelf).Some? {
        prior := PriorToolIDs(Prior(shelf).value.tools);
      }
      var tools := Mint(req.tools, prior, drawn);
      if !saves {
        return Rejected(StoreFailed);
      }
      var bundle := Bundle(resolved.version, tools, req.triggers);
      shelves := shelves[provider := Shelf(shelf.byVersion[bundle.version := bundle], Some(bundle.version))];
      return Published(bundle);
    }
  }

  // ---- Histories ----

  datatype Submission = Submission(req: Request, drawn: seq<string>, saves: bool)

  /** One provider's shelf, every bundle ever published in order, and every id ever drawn. */
  datatype Ledger = Ledger(shelf: Shelf, published: seq<Bundle>, drawn: set<string>)

  function Next(l: Ledger, s: Submission): Ledger {
    if |s.drawn| != |s.req.tools| then l
    else
      var (shelf, answer) := Publish(l.shelf, s.req, s.drawn, s.saves);
      Ledger(shelf, if answer.Published? then l.published + [answer.bundle] else l.published,
             l.drawn + (set d | d in s.drawn))
  }

  function After(run: seq<Submission>, n: nat): Ledger
    requires n <= |run|
  {
    if n == 0 then Ledger(Shelf(map[], None), [], {}) else Next(After(run, n - 1), run[n - 1])
  }

  predicate DistinctSlugs(tools: seq<Tool>) {
    forall i, j :: 0 <= i < j < |tools| ==> tools[i].slug != tools[j].slug
  }

  predicate BumpFits(prior: Version, removals: bool, additions: bool) {
    if removals then prior.major < MAX_INT else if additions then prior.minor < MAX_INT else prior.patch < MAX_INT
  }

  // ---- Each version compares higher than the one before it ----

  predicate ComparesHigher(before: Bundle, after: Bundle) {
    var v, w := ParseSemver(before.version), ParseSemver(after.version);
    v.Some? && w.Some? && Compare(w.value, v.value) == 1
  }

  /** The newest bundle is the one published last, and each compares higher than the one before. */
  ghost predicate Climbing(l: Ledger) {
    var p := l.published;
    && Prior(l.shelf) == (if p == [] then None else Some(p[|p| - 1]))
    && (p == [] ==> l.shelf.byVersion == map[])
    && (forall i :: 0 <= i < |p| ==> ParseSemver(p[i].version).Some?)
    && (forall i, j :: 0 <= i && j == i + 1 && j < |p| ==> ComparesHigher(p[i], p[j]))
  }

  lemma FirstVersion()
    ensures ParseSemver("1.0.0") == Some(Version(1, 0, 0)) && Plain(Version(1, 0, 0))
  {
    ParseUndoesToString(Version(1, 0, 0));
    assert ToString(Version(1, 0, 0)) == "1.0.0";
  }

  lemma ParsedFits(version: string)
    requires ParseSemver(version).Some?
    ensures FitsVersion(ParseSemver(version).value)
  {
    hide Cut, AllDigits, DigitsValue;
  }

  /** Even a bump that overflows compares as higher: the comparison wraps around the other way. */
  lemma AutoNextComparesHigher(prior: Version, removals: bool, additions: bool)
    requires FitsVersion(prior)
    ensures FitsVersion(AutoNextVersion(prior, removals, additions))
    ensures Compare(AutoNextVersion(prior, removals, additions), prior) == 1
  {
    WrapOneUp(if removals then prior.major else if additions then prior.minor else prior.patch);
    hide Wrap;
  }

  lemma WrapOneUp(n: int)
    requires Fits(n)
    ensures Fits(Wrap(n + 1)) && Wrap(n + 1) != n && Wrap(Wrap(n + 1) - n) == 1
  {
    if n == MAX_INT {
      assert Wrap(n + 1) == MIN_INT;
      assert Wrap(MIN_INT - MAX_INT) == 1;
    } else {
      assert Wrap(n + 1) == n + 1;
    }
  }

  lemma AssignedComparesHigher(l: Ledger, req: Request)
    requires Climbing(l) && ResolveVersion(l.shelf, req).Assigned?
    ensures var v, p := ParseSemver(ResolveVersion(l.shelf, req).version), l.published;
            && v.Some?
            && (p != [] ==> Compare(v.value, ParseSemver(p[|p| - 1].version).value) == 1)
  {
    FirstVersion();
    hide HasRemovals, HasAdditions, ParseSemver, ToString, AutoNextVersion;
    if l.published != [] {
      var prior := l.published[|l.published| - 1];
      var last := ParseSemver(prior.version).value;
      ParsedFits(prior.version);
      if req.version == "" {
        var next := AutoNextVersion(last, HasRemovals(prior, req), HasAdditions(prior, req));
        AutoNextComparesHigher(last, HasRemovals(prior, req), HasAdditions(prior, req));
        ParseUndoesToString(next);
      }
    }
  }

  lemma StepKeepsClimbing(l: Ledger, s: Submission)
    requires Climbing(l)
    ensures Climbing(Next(l, s))
  {
    hide ResolveVersion, ParseSemver, Compare, MintToolIDs, PriorIds;
    if Next(l, s).published != l.published {
      AssignedComparesHigher(l, s.req);
    }
  }

  /** Whatever is submitted, strange versions and overflowing bumps included, each published version compares higher
      than the one published just before it. */
  lemma {:induction false} EachVersionComparesHigher(run: seq<Submission>, n: nat)
    requires n <= |run|
    ensures Climbing(After(run, n))
  {
    hide Next, Compare, ParseSemver;
    if n > 0 {
      EachVersionComparesHigher(run, n - 1);
      StepKeepsClimbing(After(run, n - 1), run[n - 1]);
    }
  }

  // ---- Which publish overwrites an earlier version ----

  /** No version is requested, and the one the registry would assign is on file already. */
  predicate Reassigns(shelf: Shelf, req: Request) {
    && req.version == "" && Prior(shelf).Some?
    && var prior := Prior(shelf).value;
       && ParseSemver(prior.version).Some?
       && ToString(AutoNextVersion(ParseSemver(prior.version).value, HasRemovals(prior, req), HasAdditions(prior, req)))
          in shelf.byVersion
  }

  /** Comparing higher step by step does not keep versions apart. A successful publish takes the place of a stored
      bundle exactly when it requests no version and the automatic one is on file: only requested versions are looked
      up. No other stored bundle is touched. */
  lemma OverwritesIff(run: seq<Submission>, n: nat, s: Submission)
    requires n <= |run| && |s.drawn| == |s.req.tools|
    requires Publish(After(run, n).shelf, s.req, s.drawn, s.saves).1.Published?
    ensures var shelf := After(run, n).shelf;
            var (shelf', answer) := Publish(shelf, s.req, s.drawn, s.saves);
            && (answer.bundle.version in shelf.byVersion <==> Reassigns(shelf, s.req))
            && shelf'.byVersion.Keys == shelf.byVersion.Keys + {answer.bundle.version}
            && shelf'.byVersion[answer.bundle.version] == answer.bundle
            && (forall v :: v in shelf.byVersion && v != answer.bundle.version ==>
                shelf'.byVersion[v] == shelf.byVersion[v])
  {
    hide Next, ParseSemver, ToString, HasRemovals, HasAdditions,
      MintToolIDs, PriorIds, Compare, AutoNextVersion, ComparesHigher;
    EachVersionComparesHigher(run, n);
  }

  /** The versions on file are exactly those of the published bundles. */
  ghost predicate OnFile(l: Ledger) {
    var p := l.published;
    && (forall i :: 0 <= i < |p| ==> p[i].version in l.shelf.byVersion)
    && (forall v :: v in l.shelf.byVersion ==> exists i :: 0 <= i < |p| && p[i].version == v)
  }

  ghost predicate DistinctVersions(p: seq<Bundle>) {
    forall i, j :: 0 <= i < j < |p| ==> p[i].version != p[j].version
  }

  ghost predicate AllStored(l: Ledger) {
    forall i :: 0 <= i < |l.published| ==>
      l.published[i].version in l.shelf.byVersion && l.shelf.byVersion[l.published[i].version] == l.published[i]
  }

  /** The n-th submission is published under a version already on file. */
  ghost predicate Reassigned(run: seq<Submission>, n: nat)
    requires n < |run|
  {
    After(run, n + 1).published != After(run, n).published && Reassigns(After(run, n).shelf, run[n].req)
  }

  ghost predicate NoneReassigned(run: seq<Submission>, n: nat)
    requires n <= |run|
  {
    forall i: nat :: i < n ==> !Reassigned(run, i)
  }

  /** What a step appends. */
  lemma StepAppends(run: seq<Submission>, n: nat)
    requires n < |run|
    ensures var l, l', s := After(run, n), After(run, n + 1), run[n];
            if l'.published == l.published then l'.shelf == l.shelf
            else && |s.drawn| == |s.req.tools| && |l'.published| == |l.published| + 1
                 && var b := l'.published[|l.published|];
                    && l'.published == l.published + [b]
                    && l'.shelf == Shelf(l.shelf.byVersion[b.version := b], Some(b.version))
                    && (b.version in l.shelf.byVersion <==> Reassigned(run, n))
  {
    hide ResolveVersion, Prior, MintToolIDs, PriorIds, Reassigns;
    if |run[n].drawn| == |run[n].req.tools|
       && Publish(After(run, n).shelf, run[n].req, run[n].drawn, run[n].saves).1.Published?
    {
      OverwritesIff(run, n, run[n]);
    }
  }

  lemma {:induction false} RunKeepsFile(run: seq<Submission>, n: nat)
    requires n <= |run|
    ensures OnFile(After(run, n))
  {
    hide Next, Reassigned;
    if n > 0 {
      RunKeepsFile(run, n - 1);
      StepAppends(run, n - 1);
      var p, q, file := After(run, n - 1).published, After(run, n).published, After(run, n).shelf.byVersion;
      forall v | v in file ensures exists i :: 0 <= i < |q| && q[i].version == v {
        if v in After(run, n - 1).shelf.byVersion {
          var i :| 0 <= i < |p| && p[i].version == v;
          assert q[i].version == v;
        } else {
          assert q[|p|].version == v;
        }
      }
    }
  }

  /** Over every run, no two bundles were published under one version exactly when no automatic version was on file. */
  lemma {:induction false} VersionsDistinctIff(run: seq<Submission>, n: nat)
    requires n <= |run|
    ensures DistinctVersions(After(run, n).published) <==> NoneReassigned(run, n)
  {
    hide Next, Reassigned;
    if n > 0 {
      VersionsDistinctIff(run, n - 1);
      RunKeepsFile(run, n - 1);
      StepAppends(run, n - 1);
      assert NoneReassigned(run, n) <==> NoneReassigned(run, n - 1) && !Reassigned(run, n - 1);
      var l, q := After(run, n - 1), After(run, n).published;
      if q != l.published {
        var b := q[|l.published|];
        if b.version in l.shelf.byVersion {
          var i :| 0 <= i < |l.published| && l.published[i].version == b.version;
          assert q[i].version == q[|l.published|].version;
        }
        assert DistinctVersions(q) ==> DistinctVersions(l.published) by {
          assert forall i :: 0 <= i < |l.published| ==> q[i] == l.published[i];
        }
      } else {
        UnpublishedReassignsNothing(run, n - 1);
      }
    }
  }

  lemma UnpublishedReassignsNothing(run: seq<Submission>, n: nat)
    requires n < |run| && After(run, n + 1).published == After(run, n).published
    ensures !Reassigned(run, n)
  {
  }

  /** And then the store still holds every bundle ever published, under its own version. */
  lemma {:induction false} DistinctAreStored(run: seq<Submission>, n: nat)
    requires n <= |run| && DistinctVersions(After(run, n).published)
    ensures AllStored(After(run, n))
  {
    hide Next, Reassigned;
    if n > 0 {
      StepAppends(run, n - 1);
      var p, q := After(run, n - 1).published, After(run, n).published;
      assert forall i :: 0 <= i < |p| ==> q[i] == p[i];
      DistinctAreStored(run, n - 1);
    }
  }

  // ---- A run that overwrites its first version ----

  /** One tool, the same in every version but for its content. */
  function Submit(version: string, content: string): Submission {
    Submission(Request(1, true, version, [Tool("", "t", content)], []), ["id"], true)
  }

  function Holding(version: string, content: string): Bundle { Bundle(version, [Tool("id", "t", content)], []) }

  function Patch(patch: int): string { ToString(Version(0, 0, patch)) }

  function OverwritingRun(): seq<Submission> {
    [Submit(Patch(1), "first"), Submit(Patch(MAX_INT), ""), Submit(Patch(MIN_INT), ""), Submit(Patch(-1), ""),
     Submit(Patch(0), ""), Submit("", "last")]
  }

  lemma SubmitMints(l: Ledger, version: string, content: string, prior: Option<Bundle>)
    requires Prior(l.shelf) == prior && (prior.Some? ==> exists v, c :: prior.value == Holding(v, c))
    ensures var s := Submit("", content);
            && Finalized(l.shelf, s.req, s.drawn, version) == Holding(version, content)
            && (prior.Some? ==> !HasRemovals(prior.value, s.req) && !HasAdditions(prior.value, s.req))
  {
    if prior.Some? {
      var v, c :| prior.value == Holding(v, c);
      var tools := prior.value.tools;
      assert tools[..0] == [];
      assert IdsBySlug(tools) == map["t" := "id"];
      assert Slugs(tools) == {"t"};
      assert Slugs([Tool("", "t", content)]) == {"t"};
    }
    assert MintToolIDs([Tool("", "t", content)], PriorIds(l.shelf), ["id"]) == [Tool("id", "t", content)];
  }

  lemma PatchesDiffer(j: int, k: int)
    requires Fits(j) && Fits(k) && j != k
    ensures Patch(j) != Patch(k)
  {
    hide ParseSemver, ToString;
    ParseUndoesToString(Version(0, 0, j));
    ParseUndoesToString(Version(0, 0, k));
  }

  lemma ToStringNotEmpty(v: Version)
    ensures ToString(v) != ""
  {
    assert ToString(v)[|Decimal(v.major)|] == '.';
  }

  /** A publish that asks for patch k over a latest patch j, or over nothing. */
  lemma RequestedPatch(l: Ledger, prior: Option<Bundle>, j: int, k: int, content: string)
    requires Prior(l.shelf) == prior && Fits(j) && Fits(k)
    requires prior.Some? ==> Patch(k) !in l.shelf.byVersion && Compare(Version(0, 0, k), Version(0, 0, j)) == 1
                             && exists c :: prior.value == Holding(Patch(j), c)
    ensures var l' := Next(l, Submit(Patch(k), content));
            && l'.shelf == Shelf(l.shelf.byVersion[Patch(k) := Holding(Patch(k), content)], Some(Patch(k)))
            && l'.published == l.published + [Holding(Patch(k), content)]
  {
    SubmitMints(l, Patch(k), content, prior);
    ParseUndoesToString(Version(0, 0, k));
    ParseUndoesToString(Version(0, 0, j));
    ToStringNotEmpty(Version(0, 0, k));
    hide ParseSemver, ToString, Compare, HasRemovals, HasAdditions, Finalized;
  }

  lemma AutomaticPatch(l: Ledger, c: string, j: int, content: string)
    requires Prior(l.shelf) == Some(Holding(Patch(j), c)) && Fits(j)
    ensures var k := Wrap(j + 1);
            var l' := Next(l, Submit("", content));
            && l'.shelf == Shelf(l.shelf.byVersion[Patch(k) := Holding(Patch(k), content)], Some(Patch(k)))
            && l'.published == l.published + [Holding(Patch(k), content)]
  {
    SubmitMints(l, Patch(Wrap(j + 1)), content, Prior(l.shelf));
    ParseUndoesToString(Version(0, 0, j));
    hide ParseSemver, ToString, Wrap, HasRemovals, HasAdditions, Finalized;
  }

  lemma PatchesCompare()
    ensures Compare(Version(0, 0, MAX_INT), Version(0, 0, 1)) == 1
              && Compare(Version(0, 0, MIN_INT), Version(0, 0, MAX_INT)) == 1
    ensures Compare(Version(0, 0, -1), Version(0, 0, MIN_INT)) == 1 && Compare(Version(0, 0, 0), Version(0, 0, -1)) == 1
    ensures Wrap(0 + 1) == 1
  {
  }

  lemma AfterStep(run: seq<Submission>, n: nat, s: Submission)
    requires n < |run| && run[n] == s
    ensures After(run, n + 1) == Next(After(run, n), s)
  {
  }

  lemma FirstPatch()
    ensures Patch(1) == "0.0.1"
  {
  }

  lemma FiveRequested()
    ensures var l := After(OverwritingRun(), 5);
            && l.shelf == Shelf(map[Patch(1) := Holding(Patch(1), "first"),
                                    Patch(MAX_INT) := Holding(Patch(MAX_INT), ""),
                                    Patch(MIN_INT) := Holding(Patch(MIN_INT), ""), Patch(-1) := Holding(Patch(-1), ""),
                                    Patch(0) := Holding(Patch(0), "")], Some(Patch(0)))
            && |l.published| == 5 && l.published[0] == Holding(Patch(1), "first")
  {
    hide Next, Patch, Wrap, Compare, Submit, Holding;
    PatchesDiffer(1, MAX_INT); PatchesDiffer(1, MIN_INT); PatchesDiffer(1, -1); PatchesDiffer(1, 0);
    PatchesDiffer(MAX_INT, MIN_INT); PatchesDiffer(MAX_INT, -1); PatchesDiffer(MAX_INT, 0);
    PatchesDiffer(MIN_INT, -1); PatchesDiffer(MIN_INT, 0); PatchesDiffer(-1, 0);
    PatchesCompare();
    var run := OverwritingRun();
    assert After(run, 0) == Ledger(Shelf(map[], None), [], {});
    AfterStep(run, 0, Submit(Patch(1), "first"));
    AfterStep(run, 1, Submit(Patch(MAX_INT), ""));
    AfterStep(run, 2, Submit(Patch(MIN_INT), ""));
    AfterStep(run, 3, Submit(Patch(-1), ""));
    AfterStep(run, 4, Submit(Patch(0), ""));
    hide After, OverwritingRun;
    RequestedPatch(After(run, 0), None, 0, 1, "first");
    RequestedPatch(After(run, 1), Some(Holding(Patch(1), "first")), 1, MAX_INT, "");
    RequestedPatch(After(run, 2), Some(Holding(Patch(MAX_INT), "")), MAX_INT, MIN_INT, "");
    RequestedPatch(After(run, 3), Some(Holding(Patch(MIN_INT), "")), MIN_INT, -1, "");
    RequestedPatch(After(run, 4), Some(Holding(Patch(-1), "")), -1, 0, "");
  }

  /** From an empty shelf: 0.0.1, 0.0.MAX, 0.0.MIN, 0.0.-1 and 0.0.0 are each accepted, each comparing higher than the
      one before, and the automatic version is then 0.0.1 again. No bump overflowed, and the first bundle is gone. */
  lemma AutomaticVersionOverwrites()
    ensures var l, before := After(OverwritingRun(), 6), After(OverwritingRun(), 5);
            && |l.published| == 6
            && l.published[0] == Holding("0.0.1", "first") && l.published[5] == Holding("0.0.1", "last")
            && before.shelf.byVersion.Keys == {"0.0.1", Patch(MAX_INT), Patch(MIN_INT), Patch(-1), Patch(0)}
            && before.shelf.byVersion["0.0.1"] == l.published[0]
            && l.shelf.byVersion == before.shelf.byVersion["0.0.1" := l.published[5]]
  {
    FirstPatch();
    hide Next, Patch, Wrap, Compare, Submit, Holding;
    FiveRequested();
    PatchesCompare();
    PatchesDiffer(1, MAX_INT); PatchesDiffer(1, MIN_INT); PatchesDiffer(1, -1); PatchesDiffer(1, 0);
    AfterStep(OverwritingRun(), 5, Submit("", "last"));
    hide After, OverwritingRun;
    AutomaticPatch(After(OverwritingRun(), 5), "", 0, "last");
  }

  // ---- When versions increase by precedence ----

  function VersionOf(b: Bundle): Version
    requires ParseSemver(b.version).Some?
  {
    ParseSemver(b.version).value
  }

  ghost predicate AllParse(p: seq<Bundle>) { forall i :: 0 <= i < |p| ==> ParseSemver(p[i].version).Some? }

  ghost predicate Increasing(p: seq<Bundle>)
    requires AllParse(p)
  {
    forall i, j :: 0 <= i < j < |p| ==> Less(VersionOf(p[i]), VersionOf(p[j]))
  }

  /** No two consecutive versions are so far apart that the difference that decides between them overflows. */
  ghost predicate StepsFit(p: seq<Bundle>)
    requires AllParse(p)
  {
    forall i, j :: 0 <= i && j == i + 1 && j < |p| ==> Fits(Decider(VersionOf(p[j]), VersionOf(p[i])))
  }

  /** Over every run, the published versions increase by precedence exactly when no deciding difference between two
      consecutive ones overflows. */
  lemma VersionsIncreaseIff(run: seq<Submission>, n: nat)
    requires n <= |run|
    ensures var p := After(run, n).published; AllParse(p) && (Increasing(p) <==> StepsFit(p))
  {
    hide After, ParseSemver, ComparesHigher;
    EachVersionComparesHigher(run, n);
    var p := After(run, n).published;
    forall i, j | 0 <= i && j == i + 1 && j < |p|
      ensures Less(VersionOf(p[i]), VersionOf(p[j])) <==> Fits(Decider(VersionOf(p[j]), VersionOf(p[i])))
    {
      HigherIsLaterIff(p[i], p[j]);
    }
    if StepsFit(p) {
      StepsAddUp(p);
    }
  }

  lemma HigherIsLaterIff(before: Bundle, after: Bundle)
    requires ComparesHigher(before, after)
    ensures Less(VersionOf(before), VersionOf(after)) <==> Fits(Decider(VersionOf(after), VersionOf(before)))
  {
    ParsedFits(before.version);
    ParsedFits(after.version);
    CompareIsPrecedenceIff(VersionOf(after), VersionOf(before));
    hide ParseSemver, Compare, Decider;
    LessOneWay(VersionOf(before), VersionOf(after));
  }

  lemma LessOneWay(v: Version, w: Version)
    ensures !(Less(v, w) && Less(w, v))
  {
  }

  lemma LessTransitive(u: Version, v: Version, w: Version)
    requires Less(u, v) && Less(v, w)
    ensures Less(u, w)
  {
  }

  lemma {:induction false} StepsAddUp(p: seq<Bundle>)
    requires AllParse(p) && forall i, j :: 0 <= i && j == i + 1 && j < |p| ==> Less(VersionOf(p[i]), VersionOf(p[j]))
    ensures Increasing(p)
  {
    hide ParseSemver, Less;
    if |p| > 0 {
      var front, last := p[..|p| - 1], |p| - 1;
      assert forall i :: 0 <= i < last ==> front[i] == p[i];
      StepsAddUp(front);
      forall i | 0 <= i < last ensures Less(VersionOf(p[i]), VersionOf(p[last])) {
        if i < last - 1 {
          assert Less(VersionOf(front[i]), VersionOf(front[last - 1]));
          LessTransitive(VersionOf(p[i]), VersionOf(p[last - 1]), VersionOf(p[last]));
        }
      }
    }
  }

  // ---- Plain requests, and bumps that fit ----

  /** What a publisher can check of a submission: a requested version has plain components, and the component an
      automatic bump would raise is not already the largest integer. */
  predicate SoundVersion(l: Ledger, s: Submission) {
    && (s.req.version != "" && ParseSemver(s.req.version).Some? ==> Plain(ParseSemver(s.req.version).value))
    && (s.req.version == "" && Prior(l.shelf).Some? && ParseSemver(Prior(l.shelf).value.version).Some? ==>
          BumpFits(ParseSemver(Prior(l.shelf).value.version).value,
                   HasRemovals(Prior(l.shelf).value, s.req), HasAdditions(Prior(l.shelf).value, s.req)))
  }

  ghost predicate AllSoundVersions(run: seq<Submission>, n: nat)
    requires n <= |run|
  {
    n == 0 || (AllSoundVersions(run, n - 1) && SoundVersion(After(run, n - 1), run[n - 1]))
  }

  predicate IsPlain(version: string) { ParseSemver(version).Some? && Plain(ParseSemver(version).value) }

  ghost predicate AllPlain(p: seq<Bundle>) { forall i :: 0 <= i < |p| ==> IsPlain(p[i].version) }

  /** The automatic version really is higher exactly when its bump does not overflow. */
  lemma AutoNextIncreasesIff(prior: Version, removals: bool, additions: bool)
    requires FitsVersion(prior)
    ensures Less(prior, AutoNextVersion(prior, removals, additions)) <==> BumpFits(prior, removals, additions)
    ensures Plain(prior) && BumpFits(prior, removals, additions) ==> Plain(AutoNextVersion(prior, removals, additions))
  {
    var raised := if removals then prior.major else if additions then prior.minor else prior.patch;
    assert raised < MAX_INT ==> Wrap(raised + 1) == raised + 1;
    assert Wrap(MAX_INT + 1) == MIN_INT;
  }

  /** An accepted publish is plain, and strictly above the latest version. */
  lemma AssignedIsHigher(l: Ledger, s: Submission)
    requires Climbing(l) && AllPlain(l.published) && SoundVersion(l, s) && ResolveVersion(l.shelf, s.req).Assigned?
    ensures var version := ResolveVersion(l.shelf, s.req).version;
            && IsPlain(version)
            && (l.published != [] ==>
                  Less(VersionOf(l.published[|l.published| - 1]), ParseSemver(version).value))
  {
    AssignedComparesHigher(l, s.req);
    FirstVersion();
    hide HasRemovals, HasAdditions, Plain, Less, Compare, ParseSemver,
      ToString, AutoNextVersion, BumpFits, ComparesHigher;
    if l.published != [] {
      var prior := l.published[|l.published| - 1];
      if s.req.version == "" {
        var removals, additions := HasRemovals(prior, s.req), HasAdditions(prior, s.req);
        AutomaticIsPlain(VersionOf(prior), removals, additions);
      }
      ComparePlain(ParseSemver(ResolveVersion(l.shelf, s.req).version).value, VersionOf(prior));
    }
  }

  lemma AutomaticIsPlain(prior: Version, removals: bool, additions: bool)
    requires Plain(prior) && BumpFits(prior, removals, additions)
    ensures IsPlain(ToString(AutoNextVersion(prior, removals, additions)))
  {
    hide ParseSemver, ToString, BumpFits, AutoNextVersion;
    AutoNextIncreasesIff(prior, removals, additions);
    ParseUndoesToString(AutoNextVersion(prior, removals, additions));
  }

  lemma {:induction false} RunKeepsPlain(run: seq<Submission>, n: nat)
    requires n <= |run| && AllSoundVersions(run, n)
    ensures AllPlain(After(run, n).published)
  {
    hide ResolveVersion, Finalized, SoundVersion, Climbing, IsPlain;
    if n > 0 {
      RunKeepsPlain(run, n - 1);
      EachVersionComparesHigher(run, n - 1);
      var l, s := After(run, n - 1), run[n - 1];
      if After(run, n).published != l.published {
        AssignedIsHigher(l, s);
        FinalizedVersion(l.shelf, s.req, s.drawn, ResolveVersion(l.shelf, s.req).version);
      }
    }
  }

  lemma FinalizedVersion(shelf: Shelf, req: Request, drawn: seq<string>, version: string)
    requires |drawn| == |req.tools|
    ensures Finalized(shelf, req, drawn, version).version == version
  {
  }

  /** So with plain requests and bumps that fit, versions increase, compare agrees, and no Save ever overwrote one,
      although the automatic path does not look for a conflict. */
  lemma PublishedVersionsIncrease(run: seq<Submission>, n: nat, i: nat, j: nat)
    requires n <= |run| && AllSoundVersions(run, n) && i < j < |After(run, n).published|
    ensures var l := After(run, n);
            && AllPlain(l.published) && Increasing(l.published)
            && Compare(VersionOf(l.published[j]), VersionOf(l.published[i])) == 1
            && AllStored(l)
  {
    hide After, ParseSemver, Compare, Decider, SoundVersion, Plain;
    RunKeepsPlain(run, n);
    VersionsIncreaseIff(run, n);
    var p := After(run, n).published;
    forall k | 0 <= k < |p| - 1 ensures Fits(Decider(VersionOf(p[k + 1]), VersionOf(p[k]))) {
      PlainDeciderFits(VersionOf(p[k + 1]), VersionOf(p[k]));
    }
    assert Less(VersionOf(p[i]), VersionOf(p[j]));
    ComparePlain(VersionOf(p[j]), VersionOf(p[i]));
    CompareIsSign(VersionOf(p[j]), VersionOf(p[i]));
    IncreasingAreDistinct(p);
    DistinctAreStored(run, n);
  }

  lemma PlainDeciderFits(v: Version, w: Version)
    requires Plain(v) && Plain(w)
    ensures Fits(Decider(v, w))
  {
  }

  lemma CompareIsSign(v: Version, w: Version)
    ensures -1 <= Compare(v, w) <= 1
  {
  }

  lemma IncreasingAreDistinct(p: seq<Bundle>)
    requires AllParse(p) && Increasing(p)
    ensures DistinctVersions(p)
  {
    hide ParseSemver;
    forall i, j | 0 <= i < j < |p| ensures p[i].version != p[j].version {
      assert Less(VersionOf(p[i]), VersionOf(p[j]));
    }
  }

  // ---- The gates, asked for the automatic version ----

  function Automatic(prior: Bundle, req: Request): Version
    requires ParseSemver(prior.version).Some?
  {
    AutoNextVersion(VersionOf(prior), HasRemovals(prior, req), HasAdditions(prior, req))
  }

  /** The bump the gates look at does not overflow: the major one for removals, the minor one for additions alone. */
  predicate GatedBumpFits(prior: Bundle, req: Request)
    requires ParseSemver(prior.version).Some?
  {
    && (HasRemovals(prior, req) ==> VersionOf(prior).major < MAX_INT)
    && (HasAdditions(prior, req) && !HasRemovals(prior, req) ==> VersionOf(prior).minor < MAX_INT)
  }

  /** Over every run, asking explicitly for the version the registry would assign by itself is accepted exactly when
      that version is not on file and the bump the gates look at does not overflow; then the result is the same. An
      overflowing patch bump passes. */
  lemma AutomaticVersionPassesGateIff(run: seq<Submission>, n: nat, s: Submission)
    requires n <= |run| && |s.drawn| == |s.req.tools| && After(run, n).published != [] && s.req.version == ""
    ensures var l := After(run, n);
            var prior := l.published[|l.published| - 1];
            var auto := ResolveVersion(l.shelf, s.req);
            && ParseSemver(prior.version).Some?
            && auto == Assigned(ToString(Automatic(prior, s.req)))
            && var explicit := s.req.(version := auto.version);
               && (ResolveVersion(l.shelf, explicit) == auto <==>
                   !Reassigns(l.shelf, s.req) && GatedBumpFits(prior, s.req))
               && (ResolveVersion(l.shelf, explicit) == auto <==> ResolveVersion(l.shelf, explicit).Assigned?)
               && (ResolveVersion(l.shelf, explicit) == auto ==>
                     Publish(l.shelf, explicit, s.drawn, s.saves) == Publish(l.shelf, s.req, s.drawn, s.saves))
  {
    hide After, ParseSemver, ToString, MintToolIDs, Compare, ComparesHigher;
    EachVersionComparesHigher(run, n);
    var l := After(run, n);
    var prior := l.published[|l.published| - 1];
    var explicit := s.req.(version := ToString(Automatic(prior, s.req)));
    assert HasRemovals(prior, explicit) == HasRemovals(prior, s.req)
      && HasAdditions(prior, explicit) == HasAdditions(prior, s.req);
    hide HasRemovals, HasAdditions;
    ParsedFits(prior.version);
    AutomaticMeetsBumpRulesIff(prior, s.req);
    ToStringNotEmpty(Automatic(prior, s.req));
  }

  lemma AutomaticMeetsBumpRulesIff(prior: Bundle, req: Request)
    requires ParseSemver(prior.version).Some? && FitsVersion(VersionOf(prior))
    ensures var next, last := Automatic(prior, req), VersionOf(prior);
            && ParseSemver(ToString(next)) == Some(next) && Compare(next, last) == 1
            && (GatedBumpFits(prior, req) <==>
                  && !(HasRemovals(prior, req) && next.major <= last.major)
                  && !(HasAdditions(prior, req) && next.major == last.major && next.minor <= last.minor))
  {
    hide ParseSemver, ToString, HasRemovals, HasAdditions, Compare;
    var last := VersionOf(prior);
    AutoNextComparesHigher(last, HasRemovals(prior, req), HasAdditions(prior, req));
    ParseUndoesToString(Automatic(prior, req));
    WrapOneUpIs(last.major);
    WrapOneUpIs(last.minor);
    hide Wrap;
  }

  lemma WrapOneUpIs(n: int)
    requires Fits(n)
    ensures Wrap(n + 1) == if n < MAX_INT then n + 1 else MIN_INT
  {
  }

  /** From an empty shelf: MAX.0.0 with one tool, then nothing at all. The automatic version is MIN.0.0 and would be
      published; asking for it is refused as an illegal bump. */
  lemma AutomaticVersionRefused()
    ensures var l := After([Submit(ToString(Version(MAX_INT, 0, 0)), "")], 1);
            var auto := ToString(Version(MIN_INT, 0, 0));
            && |l.published| == 1
            && ResolveVersion(l.shelf, Request(1, true, "", [], [])) == Assigned(auto)
            && ResolveVersion(l.shelf, Request(1, true, auto, [], [])) == Refused(IllegalBump)
  {
    hide ToString, ParseSemver, Compare, Next, Submit;
    var latest := Version(MAX_INT, 0, 0);
    var l := After([Submit(ToString(latest), "")], 1);
    FirstPublish(latest);
    RemovalIsRefused(l.shelf, Holding(ToString(latest), ""), latest);
  }

  lemma FirstPublish(v: Version)
    requires FitsVersion(v)
    ensures var l := After([Submit(ToString(v), "")], 1);
            && l.published == [Holding(ToString(v), "")]
            && l.shelf == Shelf(map[ToString(v) := Holding(ToString(v), "")], Some(ToString(v)))
  {
    hide ToString, ParseSemver, MintToolIDs, PriorIds;
    var run := [Submit(ToString(v), "")];
    var start := After(run, 0);
    ToStringNotEmpty(v);
    ParseUndoesToString(v);
    SubmitMints(start, ToString(v), "", None);
    AfterStep(run, 0, Submit(ToString(v), ""));
  }

  lemma RemovalIsRefused(shelf: Shelf, prior: Bundle, latest: Version)
    requires latest.major == MAX_INT && FitsVersion(latest) && prior == Holding(ToString(latest), "")
    requires shelf == Shelf(map[ToString(latest) := prior], Some(ToString(latest)))
    ensures var auto := ToString(Version(MIN_INT, 0, 0));
            && ResolveVersion(shelf, Request(1, true, "", [], [])) == Assigned(auto)
            && ResolveVersion(shelf, Request(1, true, auto, [], [])) == Refused(IllegalBump)
  {
    hide ToString, ParseSemver, Compare;
    var next := Version(MIN_INT, 0, 0);
    ParseUndoesToString(latest);
    ParseUndoesToString(next);
    ToStringNotEmpty(next);
    AutoNextComparesHigher(latest, true, false);
    WrapOneUpIs(MAX_INT);
    assert AutoNextVersion(latest, true, false) == next;
    assert Tool("id", "t", "") in prior.tools && "t" in Slugs(prior.tools) - Slugs([]);
    assert HasRemovals(prior, Request(1, true, "", [], []))
      && HasRemovals(prior, Request(1, true, ToString(next), [], []));
  }

  // ---- Identities over histories ----

  /** Slugs are distinct and minted ids are new. */
  ghost predicate FreshDraws(s: Submission, drawn: set<string>) {
    && |s.drawn| == |s.req.tools|
    && DistinctSlugs(s.req.tools)
    && (forall i, j :: 0 <= i < j < |s.drawn| ==> s.drawn[i] != s.drawn[j])
    && (forall i :: 0 <= i < |s.drawn| ==> s.drawn[i] !in drawn)
  }

  ghost predicate AllFreshDraws(run: seq<Submission>, n: nat)
    requires n <= |run|
  {
    n == 0 || (AllFreshDraws(run, n - 1) && FreshDraws(run[n - 1], After(run, n - 1).drawn))
  }

  lemma {:induction false} IdsBySlugFinds(tools: seq<Tool>, slug: string)
    ensures slug in IdsBySlug(tools) <==> slug in Slugs(tools)
    ensures slug in IdsBySlug(tools) ==>
              exists i :: 0 <= i < |tools| && tools[i].slug == slug && tools[i].id == IdsBySlug(tools)[slug]
  {
    if tools != [] {
      var front, last := tools[..|tools| - 1], tools[|tools| - 1];
      IdsBySlugFinds(front, slug);
      assert tools == front + [last];
      assert Slugs(tools) == Slugs(front) + {last.slug};
      if slug == last.slug {
        assert tools[|tools| - 1].slug == slug;
      } else if slug in IdsBySlug(front) {
        var i :| 0 <= i < |front| && front[i].slug == slug && front[i].id == IdsBySlug(front)[slug];
        assert tools[i] == front[i];
      }
    }
  }

  function Newest(p: seq<Bundle>): seq<Tool> {
    if p == [] then [] else p[|p| - 1].tools
  }

  /** An id names one slug across a and b. */
  ghost predicate OneSlugAcross(a: seq<Tool>, b: seq<Tool>) {
    forall i, j :: 0 <= i < |a| && 0 <= j < |b| && a[i].id == b[j].id ==> a[i].slug == b[j].slug
  }

  /** A slug of both has the same id in both. */
  ghost predicate SameIds(a: seq<Tool>, b: seq<Tool>) {
    forall i, j :: 0 <= i < |a| && 0 <= j < |b| && a[i].slug == b[j].slug ==> a[i].id == b[j].id
  }

  /** A slug of b that the version before b lacked has an id that a does not use. */
  ghost predicate NewIdsSince(a: seq<Tool>, before: seq<Tool>, b: seq<Tool>) {
    forall i, j :: 0 <= i < |a| && 0 <= j < |b| && b[j].slug !in Slugs(before) ==> a[i].id != b[j].id
  }

  ghost predicate AllDrawn(a: seq<Tool>, drawn: set<string>) {
    forall i :: 0 <= i < |a| ==> a[i].id in drawn
  }

  ghost predicate IdsKept(p: seq<Bundle>, drawn: set<string>) {
    && (forall i :: 0 <= i < |p| ==> DistinctSlugs(p[i].tools) && AllDrawn(p[i].tools, drawn))
    && (forall i, j :: 0 <= i <= j < |p| ==> OneSlugAcross(p[i].tools, p[j].tools))
    && (forall j :: 0 < j < |p| ==> SameIds(p[j - 1].tools, p[j].tools))
    && (forall i, j :: 0 <= i < j < |p| ==> NewIdsSince(p[i].tools, p[j - 1].tools, p[j].tools))
  }

  /** What one publish mints, given the tools of the version before it. */
  function Minted(last: seq<Tool>, s: Submission): seq<Tool>
    requires |s.drawn| == |s.req.tools|
  {
    MintToolIDs(s.req.tools, IdsBySlug(last), s.drawn)
  }

  /** Where the id of a newly published tool comes from: the previous version if it had the slug, else the minter. */
  lemma MintedIdIs(last: seq<Tool>, s: Submission, k: nat) returns (m: nat)
    requires |s.drawn| == |s.req.tools| && k < |s.req.tools|
    ensures var u := Minted(last, s)[k];
            && u.slug == s.req.tools[k].slug
            && (if u.slug in Slugs(last) then m < |last| && last[m].slug == u.slug && last[m].id == u.id
                else u.id == s.drawn[k])
  {
    var slug := s.req.tools[k].slug;
    IdsBySlugFinds(last, slug);
    m := 0;
    if slug in Slugs(last) {
      m :| 0 <= m < |last| && last[m].slug == slug && last[m].id == IdsBySlug(last)[slug];
    }
  }

  lemma MintedAgainst(a: seq<Tool>, last: seq<Tool>, s: Submission, drawn: set<string>)
    requires FreshDraws(s, drawn) && AllDrawn(a, drawn) && OneSlugAcross(a, last)
    ensures OneSlugAcross(a, Minted(last, s)) && NewIdsSince(a, last, Minted(last, s))
  {
    hide Minted, IdsBySlug, MintToolIDs, DistinctSlugs;
    var b := Minted(last, s);
    MintedLength(last, s);
    forall i, j | 0 <= i < |a| && 0 <= j < |b|
      ensures (a[i].id == b[j].id ==> a[i].slug == b[j].slug) && (b[j].slug !in Slugs(last) ==> a[i].id != b[j].id)
    {
      var m := MintedIdIs(last, s, j);
    }
  }

  lemma MintedLength(last: seq<Tool>, s: Submission)
    requires |s.drawn| == |s.req.tools|
    ensures |Minted(last, s)| == |s.req.tools|
  {
  }

  lemma MintedKeepsLast(last: seq<Tool>, s: Submission)
    requires |s.drawn| == |s.req.tools| && DistinctSlugs(last)
    ensures SameIds(last, Minted(last, s))
  {
    hide Minted, IdsBySlug, MintToolIDs;
    var b := Minted(last, s);
    MintedLength(last, s);
    forall i, j | 0 <= i < |last| && 0 <= j < |b| && last[i].slug == b[j].slug ensures last[i].id == b[j].id {
      var m := MintedIdIs(last, s, j);
      assert last[i] in last && last[i].slug in Slugs(last);
      assert m == i;
    }
  }

  lemma MintedIsConsistent(last: seq<Tool>, s: Submission, drawn: set<string>)
    requires FreshDraws(s, drawn) && AllDrawn(last, drawn) && OneSlugAcross(last, last)
    ensures var b := Minted(last, s);
            DistinctSlugs(b) && OneSlugAcross(b, b) && AllDrawn(b, drawn + (set d | d in s.drawn))
  {
    hide Minted, IdsBySlug, MintToolIDs;
    var b := Minted(last, s);
    MintedLength(last, s);
    forall i, j | 0 <= i < |b| && 0 <= j < |b| && b[i].id == b[j].id ensures b[i].slug == b[j].slug {
      var m := MintedIdIs(last, s, i);
      var m' := MintedIdIs(last, s, j);
    }
    forall i | 0 <= i < |b| ensures b[i].id in drawn + (set d | d in s.drawn) && b[i].slug == s.req.tools[i].slug {
      var m := MintedIdIs(last, s, i);
    }
  }

  lemma AppendKeepsIds(p: seq<Bundle>, drawn: set<string>, s: Submission, bundle: Bundle)
    requires IdsKept(p, drawn) && FreshDraws(s, drawn) && bundle.tools == Minted(Newest(p), s)
    ensures IdsKept(p + [bundle], drawn + (set d | d in s.drawn))
  {
    hide Minted, OneSlugAcross, SameIds, NewIdsSince, DistinctSlugs, FreshDraws;
    var q, n, last := p + [bundle], |p|, Newest(p);
    if n == 0 {
      NothingToContradict(last, drawn);
    }
    forall i | 0 <= i < n
      ensures OneSlugAcross(p[i].tools, bundle.tools) && NewIdsSince(p[i].tools, last, bundle.tools)
    {
      MintedAgainst(p[i].tools, last, s, drawn);
    }
    if n > 0 {
      MintedLengths(s, drawn);
      MintedKeepsLast(last, s);
    }
    MintedIsConsistent(last, s, drawn);
    assert forall i :: 0 <= i < n ==> q[i] == p[i] && AllDrawn(q[i].tools, drawn + (set d | d in s.drawn));
  }

  lemma MintedLengths(s: Submission, drawn: set<string>)
    requires FreshDraws(s, drawn)
    ensures |s.drawn| == |s.req.tools|
  {
  }

  lemma NothingToContradict(none: seq<Tool>, drawn: set<string>)
    requires none == []
    ensures AllDrawn(none, drawn) && OneSlugAcross(none, none)
  {
  }

  /** What a step mints. */
  lemma StepMints(l: Ledger, s: Submission)
    requires Climbing(l) && |s.drawn| == |s.req.tools|
    ensures var l' := Next(l, s);
            && l'.drawn == l.drawn + (set d | d in s.drawn)
            && (l'.published == l.published
                || (|l'.published| == |l.published| + 1 && l'.published == l.published + [l'.published[|l.published|]]
                    && l'.published[|l.published|].tools == Minted(Newest(l.published), s)))
  {
    hide ResolveVersion, ParseSemver, Prior, MintToolIDs;
  }

  lemma StepKeepsIds(l: Ledger, s: Submission)
    requires Climbing(l) && IdsKept(l.published, l.drawn) && FreshDraws(s, l.drawn)
    ensures IdsKept(Next(l, s).published, Next(l, s).drawn)
  {
    StepMints(l, s);
    hide Next, FreshDraws, Climbing, IdsKept, Minted;
    var l' := Next(l, s);
    if l'.published != l.published {
      AppendKeepsIds(l.published, l.drawn, s, l'.published[|l.published|]);
    } else {
      MoreDrawsKeepIds(l.published, l.drawn, l'.drawn);
    }
  }

  lemma MoreDrawsKeepIds(p: seq<Bundle>, drawn: set<string>, more: set<string>)
    requires IdsKept(p, drawn) && drawn <= more
    ensures IdsKept(p, more)
  {
    hide OneSlugAcross, SameIds, NewIdsSince, DistinctSlugs;
  }

  lemma {:induction false} RunKeepsIds(run: seq<Submission>, n: nat)
    requires n <= |run| && AllFreshDraws(run, n)
    ensures IdsKept(After(run, n).published, After(run, n).drawn)
  {
    hide Next, FreshDraws;
    if n > 0 {
      hide IdsKept;
      RunKeepsIds(run, n - 1);
      EachVersionComparesHigher(run, n - 1);
      StepKeepsIds(After(run, n - 1), run[n - 1]);
    }
  }

  /** No id ever names two slugs, in one version or across versions. */
  lemma OneSlugPerId(run: seq<Submission>, n: nat, i: nat, j: nat, t: Tool, u: Tool)
    requires n <= |run| && AllFreshDraws(run, n) && i <= j < |After(run, n).published|
    requires t in After(run, n).published[i].tools && u in After(run, n).published[j].tools
    ensures t.id == u.id ==> t.slug == u.slug
  {
    hide Next, FreshDraws, SameIds, NewIdsSince;
    RunKeepsIds(run, n);
    assert OneSlugAcross(After(run, n).published[i].tools, After(run, n).published[j].tools);
  }

  /** A slug keeps one id over every unbroken stretch of versions that contain it. */
  lemma {:induction false} OneIdPerStretch(run: seq<Submission>, n: nat, i: nat, j: nat, t: Tool, u: Tool)
    requires n <= |run| && AllFreshDraws(run, n) && i <= j < |After(run, n).published|
    requires forall k :: i <= k <= j ==> t.slug in Slugs(After(run, n).published[k].tools)
    requires t in After(run, n).published[i].tools && u in After(run, n).published[j].tools && t.slug == u.slug
    ensures t.id == u.id
    decreases j
  {
    hide Next, FreshDraws, OneSlugAcross, NewIdsSince, AllFreshDraws;
    RunKeepsIds(run, n);
    var p := After(run, n).published;
    if i == j {
      assert DistinctSlugs(p[i].tools);
    } else {
      var v :| v in p[j - 1].tools && v.slug == t.slug;
      OneIdPerStretch(run, n, i, j - 1, t, v);
      assert SameIds(p[j - 1].tools, p[j].tools);
    }
  }

  /** A slug that was removed and is added again gets an id no earlier version ever used. */
  lemma ReaddedSlugGetsNewId(run: seq<Submission>, n: nat, i: nat, j: nat, t: Tool, u: Tool)
    requires n <= |run| && AllFreshDraws(run, n) && i < j < |After(run, n).published|
    requires t in After(run, n).published[i].tools && u in After(run, n).published[j].tools
    requires u.slug !in Slugs(After(run, n).published[j - 1].tools)
    ensures t.id != u.id
  {
    hide Next, FreshDraws, OneSlugAcross, SameIds;
    RunKeepsIds(run, n);
    assert NewIdsSince(After(run, n).published[i].tools, After(run, n).published[j - 1].tools,
                       After(run, n).published[j].tools);
  }

  // ---- Which bump a change of tools or triggers asks for ----

  /** Something of the first list is not in the second. */
  predicate LosesTool(from: seq<Tool>, to: seq<Tool>) {
    exists i :: 0 <= i < |from| && forall j :: 0 <= j < |to| ==> to[j].slug != from[i].slug
  }

  predicate LosesTrigger(from: seq<string>, to: seq<string>) {
    exists i :: 0 <= i < |from| && from[i] !in to
  }

  lemma SlugAt(tools: seq<Tool>, slug: string)
    ensures slug in Slugs(tools) <==> exists j :: 0 <= j < |tools| && tools[j].slug == slug
  {
    if j :| 0 <= j < |tools| && tools[j].slug == slug {
      assert tools[j] in tools;
    }
  }

  lemma SlugMissing(from: seq<Tool>, to: seq<Tool>)
    ensures Slugs(from) - Slugs(to) != {} <==> LosesTool(from, to)
  {
    forall slug ensures slug in Slugs(from) <==> exists j :: 0 <= j < |from| && from[j].slug == slug {
      SlugAt(from, slug);
    }
    forall slug ensures slug in Slugs(to) <==> exists j :: 0 <= j < |to| && to[j].slug == slug {
      SlugAt(to, slug);
    }
    hide Slugs;
    if i :| 0 <= i < |from| && forall j :: 0 <= j < |to| ==> to[j].slug != from[i].slug {
      assert from[i].slug in Slugs(from) - Slugs(to);
    }
  }

  lemma TriggerMissing(from: seq<string>, to: seq<string>)
    ensures SlugSet(from) - SlugSet(to) != {} <==> LosesTrigger(from, to)
  {
    if slug :| slug in SlugSet(from) - SlugSet(to) {
      var i :| 0 <= i < |from| && from[i] == slug;
    }
    if i :| 0 <= i < |from| && from[i] !in to {
      assert from[i] in SlugSet(from) - SlugSet(to);
    }
  }

  /** Removing a tool or a trigger of the latest bundle asks for a major bump, adding one for a minor bump, anything
      else for a patch. Unrequested, the version is bumped so; a requested one is accepted exactly when it is not on
      file, parses, compares higher and bumps at least so. */
  lemma BumpIsAsked(shelf: Shelf, req: Request, prior: Bundle, last: Version)
    requires Prior(shelf) == Some(prior) && ParseSemver(prior.version) == Some(last)
    ensures var removes := LosesTool(prior.tools, req.tools) || LosesTrigger(prior.triggers, req.triggers);
            var adds := LosesTool(req.tools, prior.tools) || LosesTrigger(req.triggers, prior.triggers);
            && (req.version == "" ==>
                  ResolveVersion(shelf, req) == Assigned(ToString(
                    if removes then Version(Wrap(last.major + 1), 0, 0)
                    else if adds then Version(last.major, Wrap(last.minor + 1), 0)
                    else Version(last.major, last.minor, Wrap(last.patch + 1)))))
            && (req.version != "" ==>
                  (ResolveVersion(shelf, req) == Assigned(req.version) <==>
                     && req.version !in shelf.byVersion && ParseSemver(req.version).Some?
                     && var v := ParseSemver(req.version).value;
                        && Compare(v, last) > 0 && (removes ==> v.major > last.major)
                        && (adds ==> v.major != last.major || v.minor > last.minor)))
            && (req.version != "" && ResolveVersion(shelf, req).Assigned? ==>
                  ResolveVersion(shelf, req).version == req.version)
  {
    SlugMissing(prior.tools, req.tools);
    SlugMissing(req.tools, prior.tools);
    TriggerMissing(prior.triggers, req.triggers);
    TriggerMissing(req.triggers, prior.triggers);
    hide LosesTool, LosesTrigger, ParseSemver, ToString, Compare, Wrap, Slugs, SlugSet;
  }

  /** A first publish gets 1.0.0, or any requested version that parses. */
  lemma FirstVersionIs(shelf: Shelf, req: Request)
    requires Prior(shelf) == None
    ensures req.version == "" ==> ResolveVersion(shelf, req) == Assigned("1.0.0")
    ensures req.version != "" ==>
      ResolveVersion(shelf, req) ==
        if ParseSemver(req.version).Some? then Assigned(req.version) else Refused(InvalidVersion)
  {
    hide ParseSemver;
  }

  /** A publish succeeds exactly for format 1, valid samples, a version it can assign and a save that lands. */
  lemma PublishSucceedsIff(shelf: Shelf, req: Request, drawn: seq<string>, saves: bool)
    requires |drawn| == |req.tools|
    ensures var (after, answer) := Publish(shelf, req, drawn, saves);
            && (answer.Published? <==>
                  req.formatVersion == 1 && req.samplesValid && saves && ResolveVersion(shelf, req).Assigned?)
            && (answer.Published? ==>
                  && answer.bundle.version == ResolveVersion(shelf, req).version
                  && answer.bundle.triggers == req.triggers
                  && |answer.bundle.tools| == |req.tools| && after.latest == Some(answer.bundle.version)
                  && forall i :: 0 <= i < |req.tools| ==>
                       && answer.bundle.tools[i].slug == req.tools[i].slug
                       && answer.bundle.tools[i].content == req.tools[i].content)
            && (!answer.Published? ==> after == shelf)
  {
    hide ResolveVersion, PriorIds;
  }

  /** Why a publish is refused. */
  lemma PublishRefusals(shelf: Shelf, req: Request, drawn: seq<string>, saves: bool)
    requires |drawn| == |req.tools|
    ensures var answer := Publish(shelf, req, drawn, saves).1;
            && (req.formatVersion != 1 ==> answer == Rejected(InvalidFormat))
            && (req.formatVersion == 1 && !req.samplesValid ==> answer == Rejected(InvalidSample))
            && (req.formatVersion == 1 && req.samplesValid && req.version != "" && Prior(shelf) != None
                && ParseSemver(Prior(shelf).value.version) != None ==>
                  && (req.version in shelf.byVersion ==> answer == Rejected(VersionConflict))
                  && (req.version !in shelf.byVersion && ParseSemver(req.version) == None ==>
                        answer == Rejected(InvalidVersion))
                  && (req.version !in shelf.byVersion && ParseSemver(req.version) != None ==>
                        ResolveVersion(shelf, req).Assigned? || answer == Rejected(IllegalBump)))
            && (req.formatVersion == 1 && req.samplesValid && ResolveVersion(shelf, req).Assigned? && !saves ==>
                  answer == Rejected(StoreFailed))
  {
    hide ParseSemver, HasRemovals, HasAdditions, Compare, MintToolIDs, PriorIds;
  }
}
