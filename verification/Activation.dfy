/** What an installation serves and what it stores: boot, backfill, activation and rollback
    (server/internal/catalog/registry_sync.go, embedded_seed_backfill.go, facade.go). */
module Activation {
  import opened Common

  const SUPPORTED_FORMAT := 1
  const SEED_VERSION := "1.0.0"

  datatype Pagination = Pagination(pageSizeParam: string, cursorParam: string, nextCursorPath: string)

  datatype Mapping = Mapping(
    query: map<string, string>, header: map<string, string>, body: map<string, string>,
    pagination: Option<Pagination>, fileInputs: seq<string>)

  /** A tool as the catalog serves it. Schemas are kept as text; the empty text is the empty schema. */
  datatype ProviderTool = ProviderTool(
    id: string, slug: string, name: string, description: string, httpMethod: string, path: string,
    inputSchema: string, outputSchema: string, deprecated: bool, mapping: Mapping)

  datatype ToolMapping = ToolMapping(httpMethod: string, path: string, fields: Mapping)

  /** A tool as a bundle carries it. */
  datatype BundleTool = BundleTool(
    id: string, slug: string, name: string, description: string, deprecated: bool,
    inputSchema: string, outputSchema: string, sample: string, mapping: ToolMapping)

  datatype Trigger = Trigger(slug: string, configSchema: string, payloadSchema: string, details: string)

  /** The provider-level fields, which both forms carry one for one. */
  datatype Settings = Settings(name: string, logo: string, authScheme: string, baseURL: string, oauth: string,
                               params: seq<string>)

  datatype Definition = Definition(slug: string, settings: Settings, tools: seq<ProviderTool>, triggers: seq<Trigger>)

  datatype Bundle = Bundle(
    formatVersion: int, providerSlug: string, version: string, contentHash: string,
    settings: Settings, tools: seq<BundleTool>, triggers: seq<Trigger>)

  // ---- Conversions ----

  function ToolFromBundle(t: BundleTool): ProviderTool {
    ProviderTool(t.id, t.slug, t.name, t.description, t.mapping.httpMethod, t.mapping.path,
                 t.inputSchema, t.outputSchema, t.deprecated, t.mapping.fields)
  }

  function BundleToolFrom(t: ProviderTool, deprecated: bool): BundleTool {
    BundleTool(t.id, t.slug, t.name, t.description, deprecated, t.inputSchema, t.outputSchema, "",
               ToolMapping(t.httpMethod, t.path, t.mapping))
  }

  function DefinitionFromBundle(b: Bundle): Definition {
    Definition(b.providerSlug, b.settings,
               seq(|b.tools|, i requires 0 <= i < |b.tools| => ToolFromBundle(b.tools[i])), b.triggers)
  }

  function BundleFromDefinition(d: Definition, version: string, hash: string): Bundle {
    Bundle(SUPPORTED_FORMAT, d.slug, version, hash, d.settings,
           seq(|d.tools|, i requires 0 <= i < |d.tools| => BundleToolFrom(d.tools[i], d.tools[i].deprecated)),
           d.triggers)
  }

  /** Storing a definition as a bundle and serving it back changes nothing. */
  lemma StoredDefinitionServesBack(d: Definition, version: string, hash: string)
    ensures DefinitionFromBundle(BundleFromDefinition(d, version, hash)) == d
  {
    var back := DefinitionFromBundle(BundleFromDefinition(d, version, hash));
    forall i | 0 <= i < |d.tools| ensures back.tools[i] == d.tools[i] {
    }
    assert back.tools == d.tools;
  }

  // ---- Carry-over and diffs ----

  function BundleSlugs(tools: seq<BundleTool>): set<string> { set t | t in tools :: t.slug }

  function ToolSlugs(d: Definition): set<string> { set t | t in d.tools :: t.slug }

  function TriggerSlugs(triggers: seq<Trigger>): set<string> { set t | t in triggers :: t.slug }

  /** The served tools a bundle no longer declares, deprecated, in their served order. */
  function CarriedOver(previous: seq<ProviderTool>, declared: set<string>): seq<BundleTool> {
    if previous == [] then []
    else
      var last := previous[|previous| - 1];
      CarriedOver(previous[..|previous| - 1], declared)
      + (if last.slug in declared then [] else [BundleToolFrom(last, true)])
  }

  function WithCarriedOver(b: Bundle, previous: Option<Definition>): Bundle {
    if previous.None? then b else b.(tools := b.tools + CarriedOver(previous.value.tools, BundleSlugs(b.tools)))
  }

  function RemovedTriggers(previous: seq<Trigger>, declared: set<string>): seq<string> {
    if previous == [] then []
    else
      var last := previous[|previous| - 1].slug;
      RemovedTriggers(previous[..|previous| - 1], declared) + (if last in declared then [] else [last])
  }

  function RemovedBy(b: Bundle, previous: Option<Definition>): seq<string> {
    if previous.None? then [] else RemovedTriggers(previous.value.triggers, TriggerSlugs(b.triggers))
  }

  predicate ShapeValid(b: Bundle) {
    && (forall i :: 0 <= i < |b.tools| ==>
          b.tools[i].slug != "" && b.tools[i].inputSchema != "" && b.tools[i].outputSchema != "")
    && (forall i :: 0 <= i < |b.triggers| ==>
          b.triggers[i].slug != "" && b.triggers[i].configSchema != "" && b.triggers[i].payloadSchema != "")
  }

  // ---- The catalog ----

  /** seed: the embedded definitions, fixed by the build. rows: the activated-definition store. served: what the
      facade answers from. paused: trigger slugs whose instances were paused because an activation removed them. */
  datatype Catalog = Catalog(
    seed: map<string, Definition>, rows: map<string, Bundle>, served: map<string, Definition>, paused: set<string>)

  function Lookup<V>(m: map<string, V>, k: string): Option<V> {
    if k in m then Some(m[k]) else None
  }

  /** One Activate call: what the registry answers, whether the hash matches, whether the store writes, how many
      trigger pauses succeed, and whether the rollback's own write succeeds. */
  datatype Activation = Activation(
    provider: string, pulled: Option<Bundle>, hashMatches: bool, saves: bool, pauses: nat, restores: bool)

  predicate Acceptable(a: Activation) {
    a.pulled.Some? && a.pulled.value.formatVersion == SUPPORTED_FORMAT && a.hashMatches && ShapeValid(a.pulled.value)
  }

  function NewBundle(c: Catalog, a: Activation): Bundle
    requires a.pulled.Some?
  {
    WithCarriedOver(a.pulled.value, Lookup(c.served, a.provider))
  }

  function Removed(c: Catalog, a: Activation): seq<string>
    requires a.pulled.Some?
  {
    RemovedBy(a.pulled.value, Lookup(c.served, a.provider))
  }

  function Restore<V>(m: map<string, V>, k: string, previous: Option<V>): map<string, V> {
    if previous.Some? then m[k := previous.value] else m - {k}
  }

  function Activate(c: Catalog, a: Activation): (Catalog, bool) {
    if !Acceptable(a) || !a.saves then (c, false)
    else
      var bundle, removed := NewBundle(c, a), Removed(c, a);
      var rows := c.rows[a.provider := bundle];
      var served := c.served[bundle.providerSlug := DefinitionFromBundle(bundle)];
      if |removed| <= a.pauses then
        (c.(rows := rows, served := served, paused := c.paused + (set t | t in removed)), true)
      else
        (c.(rows := if a.restores then Restore(rows, a.provider, Lookup(c.rows, a.provider)) else rows,
            served := Restore(served, a.provider, Lookup(c.served, a.provider)),
            paused := c.paused + (set t | t in removed[..a.pauses])), false)
  }

  // ---- Boot ----

  /** The embedded seed overlaid with every stored row: what a restart serves. */
  function Rebuild(seed: map<string, Definition>, rows: map<string, Bundle>): map<string, Definition> {
    map k | k in seed.Keys + rows.Keys :: if k in rows then DefinitionFromBundle(rows[k]) else seed[k]
  }

  /** draw(i) is what the id minter answers if asked for tool i. */
  function StampMissingToolIDs(d: Definition, draw: nat -> string): Definition {
    d.(tools := seq(|d.tools|, i requires 0 <= i < |d.tools| =>
                      if d.tools[i].id == "" then d.tools[i].(id := draw(i)) else d.tools[i]))
  }

  function MissingIDs(tools: seq<ProviderTool>): nat {
    if tools == [] then 0 else MissingIDs(tools[..|tools| - 1]) + (if tools[|tools| - 1].id == "" then 1 else 0)
  }

  function BackfillOne(c: Catalog, slug: string, draw: (string, nat) -> string, hash: string): Catalog {
    if slug in c.rows || slug !in c.served then c
    else
      var stamped := StampMissingToolIDs(c.served[slug], (i: nat) => draw(slug, i));
      c.(rows := c.rows[slug := BundleFromDefinition(stamped, SEED_VERSION, hash)], served := c.served[slug := stamped])
  }

  /** Backfills the first n providers of order; a provider with a row is left alone. */
  function Backfill(c: Catalog, order: seq<string>, n: nat, draw: (string, nat) -> string, hash: string): Catalog
    requires n <= |order|
  {
    if n == 0 then c else BackfillOne(Backfill(c, order, n - 1, draw, hash), order[n - 1], draw, hash)
  }

  /** A restart: serve the seed, load the rows, then backfill as far as the store lets it. */
  function Boot(c: Catalog, order: seq<string>, n: nat, draw: (string, nat) -> string, hash: string): Catalog
    requires n <= |order|
  {
    Backfill(c.(served := Rebuild(c.seed, c.rows)), order, n, draw, hash)
  }

  // ---- Addressing ----

  const TOOL_ID_PREFIX := "tool_"

  predicate Matches(t: ProviderTool, identifier: string) {
    if TOOL_ID_PREFIX <= identifier then t.id == identifier else t.slug == identifier
  }

  predicate Resolvable(served: map<string, Definition>, identifier: string) {
    exists p :: p in served && exists k :: 0 <= k < |served[p].tools| && Matches(served[p].tools[k], identifier)
  }

  /** The facade, with its loops over tools, triggers, rows and providers. */
  class CatalogFacade {
    const seed: map<string, Definition>
    var rows: map<string, Bundle>
    var served: map<string, Definition>
    var paused: set<string>

    constructor (seed: map<string, Definition>, rows: map<string, Bundle>)
      ensures Stored() == Catalog(seed, rows, seed, {})
    {
      this.seed, this.rows, this.served, this.paused := seed, rows, seed, {};
    }

    function Stored(): Catalog
      reads this
    {
      Catalog(seed, rows, served, paused)
    }

    method ValidateBundleShape(b: Bundle) returns (ok: bool)
      ensures ok <==> ShapeValid(b)
    {
      for i := 0 to |b.tools|
        invariant forall j :: 0 <= j < i ==>
                    b.tools[j].slug != "" && b.tools[j].inputSchema != "" && b.tools[j].outputSchema != ""
      {
        if b.tools[i].slug == "" || b.tools[i].inputSchema == "" || b.tools[i].outputSchema == "" {
          return false;
        }
      }
      for i := 0 to |b.triggers|
        invariant forall j :: 0 <= j < i ==>
          b.triggers[j].slug != "" && b.triggers[j].configSchema != "" && b.triggers[j].payloadSchema != ""
      {
        if b.triggers[i].slug == "" || b.triggers[i].configSchema == "" || b.triggers[i].payloadSchema == "" {
          return false;
        }
      }
      return true;
    }

    method CarryOver(b: Bundle, previous: Option<Definition>) returns (merged: Bundle)
      ensures merged == WithCarriedOver(b, previous)
    {
      if previous.None? {
        return b;
      }
      var declared, carried := BundleSlugs(b.tools), [];
      var tools := previous.value.tools;
      for i := 0 to |tools|
        invariant carried == CarriedOver(tools[..i], declared)
      {
        assert tools[..i + 1][..i] == tools[..i];
        if tools[i].slug !in declared {
          carried := carried + [BundleToolFrom(tools[i], true)];
        }
      }
      assert tools[..|tools|] == tools;
      merged := b.(tools := b.tools + carried);
    }

    method DiffTriggers(b: Bundle, previous: Option<Definition>) returns (removed: seq<string>)
      ensures removed == RemovedBy(b, previous)
    {
      removed := [];
      if previous.None? {
        return;
      }
      var declared, triggers := TriggerSlugs(b.triggers), previous.value.triggers;
      for i := 0 to |triggers|
        invariant removed == RemovedTriggers(triggers[..i], declared)
      {
        assert triggers[..i + 1][..i] == triggers[..i];
        if triggers[i].slug !in declared {
          removed := removed + [triggers[i].slug];
        }
      }
      assert triggers[..|triggers|] == triggers;
    }

    /** Pauses the instances of each removed trigger in turn and stops at the first failure. */
    method PauseInstances(removed: seq<string>, pauses: nat) returns (ok: bool)
      modifies this`paused
      ensures ok <==> |removed| <= pauses
      ensures paused == old(paused) + (if ok then set t | t in removed else set t | t in removed[..pauses])
    {
      for i := 0 to |removed|
        invariant i <= pauses
        invariant paused == old(paused) + set t | t in removed[..i]
      {
        if i == pauses {
          return false;
        }
        assert removed[..i + 1] == removed[..i] + [removed[i]];
        paused := paused + {removed[i]};
      }
      assert removed[..|removed|] == removed;
      return true;
    }

    method RollBack(provider: string, previous: Option<Definition>, row: Option<Bundle>, restores: bool)
      modifies this`rows, this`served
      ensures served == Restore(old(served), provider, previous)
      ensures rows == if restores then Restore(old(rows), provider, row) else old(rows)
    {
      if previous.Some? {
        served := served[provider := previous.value];
      } else {
        served := served - {provider};
      }
      if restores {
        if row.Some? {
          rows := rows[provider := row.value];
        } else {
          rows := rows - {provider};
        }
      }
    }

    method ActivateBundle(a: Activation) returns (ok: bool)
      modifies this
      ensures (Stored(), ok) == Activate(old(Stored()), a)
    {
      if a.pulled.None? || a.pulled.value.formatVersion != SUPPORTED_FORMAT || !a.hashMatches {
        return false;
      }
      var shaped := ValidateBundleShape(a.pulled.value);
      if !shaped {
        return false;
      }
      var previous, row := Lookup(served, a.provider), Lookup(rows, a.provider);
      var bundle := CarryOver(a.pulled.value, previous);
      var removed := DiffTriggers(a.pulled.value, previous);
      if !a.saves {
        return false;
      }
      rows := rows[a.provider := bundle];
      served := served[bundle.providerSlug := DefinitionFromBundle(bundle)];
      ok := PauseInstances(removed, a.pauses);
      if !ok {
        RollBack(a.provider, previous, row, a.restores);
      }
    }

    /** The stored rows in any order give the same overlay. */
    method LoadActivatedDefinitions(order: seq<string>)
      requires forall k :: k in order <==> k in rows
      requires forall k :: k in rows ==> rows[k].providerSlug == k
      requires served == seed
      modifies this`served
      ensures served == Rebuild(seed, rows)
    {
      for i := 0 to |order|
        invariant served.Keys == seed.Keys + set k | k in order[..i]
        invariant forall k :: k in served ==>
          served[k] == if k in order[..i] then DefinitionFromBundle(rows[k]) else seed[k]
      {
        assert order[..i + 1] == order[..i] + [order[i]];
        var definition := DefinitionFromBundle(rows[order[i]]);
        served := served[definition.slug := definition];
      }
      assert order[..|order|] == order;
    }

    method StampToolIDs(d: Definition, draw: nat -> string) returns (stamped: Definition, minted: nat)
      ensures stamped == StampMissingToolIDs(d, draw)
      ensures minted == MissingIDs(d.tools)
    {
      var tools := [];
      minted := 0;
      for i := 0 to |d.tools|
        invariant |tools| == i
        invariant forall j :: 0 <= j < i ==>
                    tools[j] == if d.tools[j].id == "" then d.tools[j].(id := draw(j)) else d.tools[j]
        invariant minted == MissingIDs(d.tools[..i])
      {
        assert d.tools[..i + 1][..i] == d.tools[..i];
        var tool := d.tools[i];
        if tool.id == "" {
          tool := tool.(id := draw(i));
          minted := minted + 1;
        }
        tools := tools + [tool];
      }
      assert d.tools[..|d.tools|] == d.tools;
      stamped := d.(tools := tools);
    }

    /** Resolves a tool by its slug or, when the identifier has the reserved prefix, by its id; definitions in any
        order. */
    method FindTool(identifier: string, order: seq<string>) returns (found: Option<(Definition, ProviderTool)>)
      requires forall k :: k in order <==> k in served
      ensures found.Some? <==> Resolvable(served, identifier)
      ensures found.Some? ==>
        && found.value.0 in served.Values && found.value.1 in found.value.0.tools && Matches(found.value.1, identifier)
    {
      for i := 0 to |order|
        invariant forall j, k :: 0 <= j < i && 0 <= k < |served[order[j]].tools| ==>
                    !Matches(served[order[j]].tools[k], identifier)
      {
        var definition := served[order[i]];
        for k := 0 to |definition.tools|
          invariant forall j :: 0 <= j < k ==> !Matches(definition.tools[j], identifier)
        {
          if Matches(definition.tools[k], identifier) {
            return Some((definition, definition.tools[k]));
          }
        }
      }
      assert forall p :: p in served ==> exists j :: 0 <= j < |order| && order[j] == p;
      return None;
    }

    method BackfillEmbeddedSeed(order: seq<string>, n: nat, draw: (string, nat) -> string, hash: string)
      requires n <= |order|
      modifies this`rows, this`served
      ensures Stored() == Backfill(old(Stored()), order, n, draw, hash)
    {
      for i := 0 to n
        invariant Stored() == Backfill(old(Stored()), order, i, draw, hash)
      {
        var slug := order[i];
        if slug !in rows && slug in served {
          var stamped, minted := StampToolIDs(served[slug], (k: nat) => draw(slug, k));
          rows := rows[slug := BundleFromDefinition(stamped, SEED_VERSION, hash)];
          served := served[slug := stamped];
        }
      }
    }
  }

  // ---- Agreement over runs ----

  /** Every definition and row sits under its own provider slug. */
  ghost predicate Keyed(c: Catalog) {
    && (forall k :: k in c.seed ==> c.seed[k].slug == k)
    && (forall k :: k in c.rows ==> c.rows[k].providerSlug == k)
    && (forall k :: k in c.served ==> c.served[k].slug == k)
  }

  ghost predicate Agrees(c: Catalog) { c.served == Rebuild(c.seed, c.rows) }

  /** The registry answers with a bundle of the provider asked for. */
  predicate RightProvider(a: Activation) {
    a.pulled.Some? ==> a.pulled.value.providerSlug == a.provider
  }

  /** The activation gets as far as a rollback, and the rollback's write fails. */
  predicate RollbackWriteFails(c: Catalog, a: Activation) {
    Acceptable(a) && a.saves && |Removed(c, a)| > a.pauses && !a.restores
  }

  /** A failed activation leaves the served map and the rows exactly as they were, if its rollback can write;
      pauses already made stay made. */
  lemma FailedActivateRestores(c: Catalog, a: Activation)
    requires Keyed(c) && RightProvider(a)
    ensures var (after, ok) := Activate(c, a);
            && after.seed == c.seed
            && (!ok ==> after.served == c.served)
            && (!ok && !RollbackWriteFails(c, a) ==> after.rows == c.rows)
            && c.paused <= after.paused
  {
    hide ShapeValid, WithCarriedOver, RemovedBy, DefinitionFromBundle, Restore, Lookup;
    if a.pulled.Some? {
      var b := NewBundle(c, a);
      CarriedKeepsProvider(a.pulled.value, Lookup(c.served, a.provider));
      RestoreUndoesUpdate(c.served, a.provider, DefinitionFromBundle(b));
      RestoreUndoesUpdate(c.rows, a.provider, b);
    }
  }

  lemma CarriedKeepsProvider(b: Bundle, previous: Option<Definition>)
    ensures WithCarriedOver(b, previous).providerSlug == b.providerSlug
    ensures DefinitionFromBundle(WithCarriedOver(b, previous)).slug == b.providerSlug
  {
  }

  lemma RestoreUndoesUpdate<V>(m: map<string, V>, k: string, v: V)
    ensures Restore(m[k := v], k, Lookup(m, k)) == m
  {
  }

  lemma {:induction false} RemovedTriggersAre(previous: seq<Trigger>, declared: set<string>, s: string)
    ensures s in RemovedTriggers(previous, declared) <==> s in TriggerSlugs(previous) && s !in declared
  {
    if previous != [] {
      RemovedTriggersAre(previous[..|previous| - 1], declared, s);
      assert previous == previous[..|previous| - 1] + [previous[|previous| - 1]];
      assert s in TriggerSlugs(previous) <==>
             s in TriggerSlugs(previous[..|previous| - 1]) || s == previous[|previous| - 1].slug;
    }
  }

  /** A successful activation pauses exactly the triggers served before and not served any more. */
  lemma ActivatePausesRemoved(c: Catalog, a: Activation)
    requires Keyed(c) && RightProvider(a) && a.provider in c.served
    ensures var (after, ok) := Activate(c, a);
            ok ==> && a.provider in after.served
                   && after.paused == c.paused
                      + (TriggerSlugs(c.served[a.provider].triggers) - TriggerSlugs(after.served[a.provider].triggers))
  {
    hide ShapeValid, RemovedTriggers, TriggerSlugs, CarriedOver;
    if a.pulled.Some? {
      var before, declared := c.served[a.provider].triggers, TriggerSlugs(a.pulled.value.triggers);
      forall s ensures s in RemovedTriggers(before, declared) <==> s in TriggerSlugs(before) - declared {
        RemovedTriggersAre(before, declared, s);
      }
      assert (set t | t in RemovedTriggers(before, declared)) == TriggerSlugs(before) - declared;
    }
  }

  lemma RebuildAfterUpdate(seed: map<string, Definition>, rows: map<string, Bundle>, k: string, b: Bundle)
    ensures Rebuild(seed, rows[k := b]) == Rebuild(seed, rows)[k := DefinitionFromBundle(b)]
  {
    hide DefinitionFromBundle;
  }

  /** What an activation that reaches its write leaves behind, case by case. */
  lemma ActivateOutcome(c: Catalog, a: Activation)
    requires Keyed(c) && RightProvider(a)
    ensures var (after, ok) := Activate(c, a);
            && after.seed == c.seed
            && (ok ==> && a.pulled.Some?
                       && after.rows == c.rows[a.provider := NewBundle(c, a)]
                       && after.served == c.served[a.provider := DefinitionFromBundle(NewBundle(c, a))])
            && (!ok ==> after.served == c.served)
            && (!ok && !RollbackWriteFails(c, a) ==> after.rows == c.rows)
            && (RollbackWriteFails(c, a) ==> !ok && after.rows == c.rows[a.provider := NewBundle(c, a)])
  {
    FailedActivateRestores(c, a);
    hide ShapeValid, WithCarriedOver, RemovedBy, DefinitionFromBundle, Restore, Lookup;
    if a.pulled.Some? {
      CarriedKeepsProvider(a.pulled.value, Lookup(c.served, a.provider));
    }
  }

  lemma ActivateKeepsKeys(c: Catalog, a: Activation)
    requires Keyed(c) && RightProvider(a)
    ensures Keyed(Activate(c, a).0)
  {
    ActivateOutcome(c, a);
    hide Activate, WithCarriedOver, RollbackWriteFails, DefinitionFromBundle, Lookup;
    if a.pulled.Some? {
      CarriedKeepsProvider(a.pulled.value, Lookup(c.served, a.provider));
    }
  }

  /** Activation keeps store and served map in agreement unless its rollback cannot write; then they agree exactly
      when what was rolled back to is what the stored row would serve. */
  lemma ActivateKeepsAgreement(c: Catalog, a: Activation)
    requires Keyed(c) && RightProvider(a) && Agrees(c)
    ensures var after := Activate(c, a).0;
            && (!RollbackWriteFails(c, a) ==> Agrees(after))
            && (RollbackWriteFails(c, a) ==>
                  (Agrees(after) <==>
                     a.provider in c.served && c.served[a.provider] == DefinitionFromBundle(NewBundle(c, a))))
  {
    ActivateOutcome(c, a);
    var write := RollbackWriteFails(c, a);
    hide Activate, NewBundle, RollbackWriteFails, Rebuild, DefinitionFromBundle, Lookup, Keyed, RightProvider;
    if a.pulled.Some? {
      var b := NewBundle(c, a);
      RebuildAfterUpdate(c.seed, c.rows, a.provider, b);
      UpdateIsIdle(c.served, a.provider, DefinitionFromBundle(b));
    }
  }

  lemma UpdateIsIdle<V(!new)>(m: map<string, V>, k: string, v: V)
    ensures m[k := v] == m <==> k in m && m[k] == v
  {
    if m[k := v] == m {
      assert k in m[k := v] && m[k := v][k] == v;
    }
  }

  /** Backfilling a provider writes exactly what it serves, and neither adds nor drops a tool slug. */
  lemma BackfillOneKeepsAgreement(c: Catalog, slug: string, draw: (string, nat) -> string, hash: string)
    requires Keyed(c)
    ensures var after := BackfillOne(c, slug, draw, hash);
            && Keyed(after) && after.seed == c.seed && SameSlugs(c.served, after.served)
            && (Agrees(c) ==> Agrees(after))
            && (Covered(c) ==> Covered(after))
  {
    hide Rebuild, DefinitionFromBundle, BundleFromDefinition, StampMissingToolIDs, ToolSlugs;
    if slug !in c.rows && slug in c.served {
      StampKeepsSlugs(c.served[slug], (i: nat) => draw(slug, i), hash);
      var stamped := StampMissingToolIDs(c.served[slug], (i: nat) => draw(slug, i));
      RebuildAfterUpdate(c.seed, c.rows, slug, BundleFromDefinition(stamped, SEED_VERSION, hash));
    }
  }

  lemma {:induction false} BackfillKeepsAgreement(c: Catalog, order: seq<string>, n: nat, draw: (string, nat) -> string,
                                                  hash: string)
    requires n <= |order| && Keyed(c)
    ensures var after := Backfill(c, order, n, draw, hash);
            && Keyed(after) && after.seed == c.seed && SameSlugs(c.served, after.served)
            && (Agrees(c) ==> Agrees(after))
            && (Covered(c) ==> Covered(after))
  {
    hide BackfillOne, Keyed, Agrees, Covered, ToolSlugs;
    if n > 0 {
      BackfillKeepsAgreement(c, order, n - 1, draw, hash);
      BackfillOneKeepsAgreement(Backfill(c, order, n - 1, draw, hash), order[n - 1], draw, hash);
    }
  }

  lemma StampKeepsSlugs(d: Definition, draw: nat -> string, hash: string)
    ensures var stamped := StampMissingToolIDs(d, draw);
            && stamped.slug == d.slug
            && ToolSlugs(stamped) == ToolSlugs(d)
            && DefinitionFromBundle(BundleFromDefinition(stamped, SEED_VERSION, hash)) == stamped
            && BundleFromDefinition(stamped, SEED_VERSION, hash).providerSlug == d.slug
            && (forall i :: 0 <= i < |d.tools| && d.tools[i].id != "" ==> stamped.tools[i] == d.tools[i])
  {
    var stamped := StampMissingToolIDs(d, draw);
    StoredDefinitionServesBack(stamped, SEED_VERSION, hash);
    assert forall i :: 0 <= i < |d.tools| ==> stamped.tools[i].slug == d.tools[i].slug;
    forall s ensures s in ToolSlugs(stamped) <==> s in ToolSlugs(d) {
      if s in ToolSlugs(d) {
        var i :| 0 <= i < |d.tools| && d.tools[i].slug == s;
        assert stamped.tools[i] in stamped.tools;
      }
      if s in ToolSlugs(stamped) {
        var i :| 0 <= i < |stamped.tools| && stamped.tools[i].slug == s;
        assert d.tools[i] in d.tools;
      }
    }
  }

  // ---- Tool slugs never shrink ----

  ghost predicate SameSlugs(before: map<string, Definition>, after: map<string, Definition>) {
    before.Keys == after.Keys && forall p :: p in before ==> ToolSlugs(before[p]) == ToolSlugs(after[p])
  }

  ghost predicate KeepsSlugs(before: map<string, Definition>, after: map<string, Definition>) {
    forall p :: p in before ==> p in after && ToolSlugs(before[p]) <= ToolSlugs(after[p])
  }

  /** A restart would serve every tool slug now served. Weaker than agreement: it survives a rollback that cannot
      write. */
  ghost predicate Covered(c: Catalog) { KeepsSlugs(c.served, Rebuild(c.seed, c.rows)) }

  lemma {:induction false} CarriedOverHas(previous: seq<ProviderTool>, declared: set<string>, i: nat)
    requires i < |previous| && previous[i].slug !in declared
    ensures BundleToolFrom(previous[i], true) in CarriedOver(previous, declared)
  {
    if i < |previous| - 1 {
      CarriedOverHas(previous[..|previous| - 1], declared, i);
    }
  }

  /** The merged bundle serves the pulled tools unchanged and first, and every tool served before whose slug is gone
      from the bundle, with its id and mapping, as deprecated. */
  lemma CarryOverKeepsTools(b: Bundle, previous: Definition, i: nat)
    requires i < |previous.tools|
    ensures var merged := DefinitionFromBundle(WithCarriedOver(b, Some(previous)));
            && |b.tools| <= |merged.tools|
            && (forall j :: 0 <= j < |b.tools| ==> merged.tools[j] == ToolFromBundle(b.tools[j]))
            && previous.tools[i].slug in ToolSlugs(merged)
            && (previous.tools[i].slug !in BundleSlugs(b.tools) ==>
                previous.tools[i].(deprecated := true) in merged.tools)
  {
    var declared, tool := BundleSlugs(b.tools), previous.tools[i];
    var whole := WithCarriedOver(b, Some(previous));
    var merged := DefinitionFromBundle(whole);
    if tool.slug in declared {
      var j :| 0 <= j < |b.tools| && b.tools[j].slug == tool.slug;
      assert merged.tools[j].slug == tool.slug;
    } else {
      CarriedOverHas(previous.tools, declared, i);
      assert BundleToolFrom(tool, true) in whole.tools;
      var j :| 0 <= j < |whole.tools| && whole.tools[j] == BundleToolFrom(tool, true);
      assert merged.tools[j] == tool.(deprecated := true);
    }
  }

  /** Conversely, every tool the merged bundle adds to the pulled ones was served before, is undeclared, and is
      deprecated. */
  lemma {:induction false} CarriedOverOnlyRemoved(previous: seq<ProviderTool>, declared: set<string>, t: BundleTool)
    requires t in CarriedOver(previous, declared)
    ensures t.deprecated && t.slug !in declared
    ensures exists i :: 0 <= i < |previous| && t == BundleToolFrom(previous[i], true)
  {
    var front := previous[..|previous| - 1];
    if t in CarriedOver(front, declared) {
      CarriedOverOnlyRemoved(front, declared, t);
      var i :| 0 <= i < |front| && t == BundleToolFrom(front[i], true);
      assert previous[i] == front[i];
    } else {
      assert t == BundleToolFrom(previous[|previous| - 1], true);
    }
  }

  lemma MergedKeepsSlugs(b: Bundle, previous: Definition)
    ensures ToolSlugs(previous) <= ToolSlugs(DefinitionFromBundle(WithCarriedOver(b, Some(previous))))
  {
    forall s | s in ToolSlugs(previous)
      ensures s in ToolSlugs(DefinitionFromBundle(WithCarriedOver(b, Some(previous))))
    {
      var i :| 0 <= i < |previous.tools| && previous.tools[i].slug == s;
      CarryOverKeepsTools(b, previous, i);
    }
  }

  /** Whatever becomes of an activation, no served tool slug is lost, now or at the next restart. */
  lemma ActivateKeepsSlugs(c: Catalog, a: Activation)
    requires Keyed(c) && RightProvider(a) && Covered(c)
    ensures Covered(Activate(c, a).0) && KeepsSlugs(c.served, Activate(c, a).0.served)
  {
    ActivateOutcome(c, a);
    hide Activate, WithCarriedOver, RollbackWriteFails, Rebuild, DefinitionFromBundle, ToolSlugs, Keyed, RightProvider;
    if a.pulled.Some? {
      RebuildAfterUpdate(c.seed, c.rows, a.provider, NewBundle(c, a));
      if a.provider in c.served {
        MergedKeepsSlugs(a.pulled.value, c.served[a.provider]);
      }
    }
  }

  // ---- Runs ----

  datatype Op =
    | Boots(order: seq<string>, reaches: nat, draw: (string, nat) -> string, hash: string)
    | Backfills(order: seq<string>, reaches: nat, draw: (string, nat) -> string, hash: string)
    | Activates(a: Activation)

  function Reach(order: seq<string>, n: nat): nat { if n <= |order| then n else |order| }

  function Next(c: Catalog, op: Op): Catalog {
    match op
    case Boots(order, n, draw, hash) => Boot(c, order, Reach(order, n), draw, hash)
    case Backfills(order, n, draw, hash) => Backfill(c, order, Reach(order, n), draw, hash)
    case Activates(a) => Activate(c, a).0
  }

  function After(c: Catalog, ops: seq<Op>, n: nat): Catalog
    requires n <= |ops|
  {
    if n == 0 then c else Next(After(c, ops, n - 1), ops[n - 1])
  }

  ghost predicate RollbacksWrite(c: Catalog, ops: seq<Op>, n: nat)
    requires n <= |ops|
  {
    n == 0 || (RollbacksWrite(c, ops, n - 1)
               && (ops[n - 1].Activates? ==> !RollbackWriteFails(After(c, ops, n - 1), ops[n - 1].a)))
  }

  predicate RightProviders(ops: seq<Op>) {
    forall i :: 0 <= i < |ops| && ops[i].Activates? ==> RightProvider(ops[i].a)
  }

  /** What a restart serves is keyed by slug, since the seed and the rows are. */
  lemma RestartServes(c: Catalog)
    requires Keyed(c)
    ensures var r := c.(served := Rebuild(c.seed, c.rows)); Keyed(r) && Agrees(r) && Covered(r)
  {
    hide ToolSlugs;
  }

  lemma StepKeepsAgreement(c: Catalog, op: Op)
    requires Keyed(c) && Agrees(c)
    requires op.Activates? ==> RightProvider(op.a) && !RollbackWriteFails(c, op.a)
    ensures Agrees(Next(c, op))
  {
    hide Activate, Backfill, RollbackWriteFails, Rebuild, Keyed, SameSlugs, RightProvider;
    match op {
      case Boots(order, n, draw, hash) =>
        RestartServes(c);
        BackfillKeepsAgreement(c.(served := Rebuild(c.seed, c.rows)), order, Reach(order, n), draw, hash);
      case Backfills(order, n, draw, hash) => BackfillKeepsAgreement(c, order, Reach(order, n), draw, hash);
      case Activates(a) => ActivateKeepsAgreement(c, a);
    }
  }

  lemma StepKeepsSlugs(c: Catalog, op: Op)
    requires Keyed(c) && Covered(c)
    requires op.Activates? ==> RightProvider(op.a)
    ensures var after := Next(c, op);
            Keyed(after) && Covered(after) && after.seed == c.seed && KeepsSlugs(c.served, after.served)
  {
    hide Activate, Backfill, Rebuild, Keyed, RightProvider, ToolSlugs, Agrees;
    match op {
      case Boots(order, n, draw, hash) =>
        RestartServes(c);
        BackfillKeepsAgreement(c.(served := Rebuild(c.seed, c.rows)), order, Reach(order, n), draw, hash);
      case Backfills(order, n, draw, hash) => BackfillKeepsAgreement(c, order, Reach(order, n), draw, hash);
      case Activates(a) =>
        ActivateKeepsKeys(c, a);
        ActivateKeepsSlugs(c, a);
        ActivateOutcome(c, a);
    }
  }

  lemma {:induction false} RunKeepsKeys(c: Catalog, ops: seq<Op>, n: nat)
    requires n <= |ops| && Keyed(c) && Covered(c) && RightProviders(ops)
    ensures Keyed(After(c, ops, n)) && Covered(After(c, ops, n)) && After(c, ops, n).seed == c.seed
  {
    hide Next, Keyed, Covered, KeepsSlugs;
    if n > 0 {
      RunKeepsKeys(c, ops, n - 1);
      StepKeepsSlugs(After(c, ops, n - 1), ops[n - 1]);
    }
  }

  lemma AgreesIsCovered(c: Catalog)
    requires Agrees(c)
    ensures Covered(c)
  {
  }

  /** Store and served map agree after any sequence of boots, backfills and activations, failed ones included. */
  lemma {:induction false} StoreAndServedAgree(c: Catalog, ops: seq<Op>, n: nat)
    requires n <= |ops| && Keyed(c) && Agrees(c) && RightProviders(ops) && RollbacksWrite(c, ops, n)
    ensures var after := After(c, ops, n); after.served == Rebuild(c.seed, after.rows)
  {
    hide Next, RollbackWriteFails, Rebuild, Keyed, Covered;
    AgreesIsCovered(c);
    RunKeepsKeys(c, ops, n);
    if n > 0 {
      RunKeepsKeys(c, ops, n - 1);
      StoreAndServedAgree(c, ops, n - 1);
      StepKeepsAgreement(After(c, ops, n - 1), ops[n - 1]);
    }
  }

  /** A provider once served stays served, and its tool slugs only grow, through every boot, backfill and activation;
      this holds even when a rollback fails to write. */
  lemma {:induction false} ToolSlugsNeverShrink(c: Catalog, ops: seq<Op>, m: nat, n: nat, provider: string)
    requires m <= n <= |ops| && Keyed(c) && Agrees(c) && RightProviders(ops)
    requires provider in After(c, ops, m).served
    ensures provider in After(c, ops, n).served
    ensures ToolSlugs(After(c, ops, m).served[provider]) <= ToolSlugs(After(c, ops, n).served[provider])
  {
    AgreesIsCovered(c);
    hide Next, Keyed, Covered, Agrees, ToolSlugs;
    if m < n {
      ToolSlugsNeverShrink(c, ops, m, n - 1, provider);
      RunKeepsKeys(c, ops, n - 1);
      StepKeepsSlugs(After(c, ops, n - 1), ops[n - 1]);
    }
  }

  /** So a caller that addresses a tool by slug never loses it. */
  lemma SlugStaysResolvable(c: Catalog, ops: seq<Op>, m: nat, n: nat, slug: string)
    requires m <= n <= |ops| && Keyed(c) && Agrees(c) && RightProviders(ops)
    requires !(TOOL_ID_PREFIX <= slug) && Resolvable(After(c, ops, m).served, slug)
    ensures Resolvable(After(c, ops, n).served, slug)
  {
    hide After, Keyed, Agrees, RightProviders;
    var before, after := After(c, ops, m).served, After(c, ops, n).served;
    var p :| p in before && exists k :: 0 <= k < |before[p].tools| && Matches(before[p].tools[k], slug);
    ToolSlugsNeverShrink(c, ops, m, n, p);
    assert slug in ToolSlugs(before[p]);
    var t :| t in after[p].tools && t.slug == slug;
    var k :| 0 <= k < |after[p].tools| && after[p].tools[k] == t;
    assert Matches(after[p].tools[k], slug);
  }

  // ---- When an activation succeeds ----

  /** The triggers served before, by position, that the pulled bundle does not declare. */
  function Undeclared(previous: seq<Trigger>, next: seq<Trigger>): set<int> {
    set i | 0 <= i < |previous| && forall j :: 0 <= j < |next| ==> next[j].slug != previous[i].slug
  }

  lemma {:induction false} RemovedCounts(previous: seq<Trigger>, next: seq<Trigger>)
    ensures |RemovedTriggers(previous, TriggerSlugs(next))| == |Undeclared(previous, next)|
  {
    if previous == [] {
      assert Undeclared(previous, next) == {};
    } else {
      var front, last := previous[..|previous| - 1], previous[|previous| - 1].slug;
      RemovedCounts(front, next);
      assert last in TriggerSlugs(next) <==> exists j :: 0 <= j < |next| && next[j].slug == last by {
        SlugListed(next, last);
      }
      if last in TriggerSlugs(next) {
        assert Undeclared(previous, next) == Undeclared(front, next);
      } else {
        assert Undeclared(previous, next) == Undeclared(front, next) + {|front|};
      }
    }
  }

  /** An activation that fails on a pause has paused exactly as many removed triggers as pauses succeeded, each one of
      the previous definition that the bundle no longer declares, and keeps them paused. */
  lemma FailedActivateKeepsPauses(c: Catalog, a: Activation, s: string)
    requires Acceptable(a) && a.saves && !Activate(c, a).1
    ensures var after, removed := Activate(c, a).0, Removed(c, a);
            && a.pauses < |removed|
            && (s in after.paused <==> s in c.paused || exists k :: 0 <= k < a.pauses && removed[k] == s)
  {
    hide NewBundle, Removed, DefinitionFromBundle, Restore, Acceptable;
  }

  lemma SlugListed(triggers: seq<Trigger>, slug: string)
    ensures slug in TriggerSlugs(triggers) <==> exists j :: 0 <= j < |triggers| && triggers[j].slug == slug
  {
    if j :| 0 <= j < |triggers| && triggers[j].slug == slug {
      assert triggers[j] in triggers;
    }
  }

  /** An activation succeeds exactly when the registry answers with a bundle of format 1 whose hash matches and whose
      tools and triggers all carry slugs and schemas, the store writes, and as many pauses succeed as there are triggers
      served before that the bundle no longer declares. One that is refused earlier changes nothing. */
  lemma ActivateSucceedsIff(c: Catalog, a: Activation)
    ensures var (after, ok) := Activate(c, a);
            var sound := && a.pulled.Some? && a.pulled.value.formatVersion == 1 && a.hashMatches && a.saves
                         && (forall t :: t in a.pulled.value.tools ==>
                               t.slug != "" && t.inputSchema != "" && t.outputSchema != "")
                         && (forall t :: t in a.pulled.value.triggers ==>
                               t.slug != "" && t.configSchema != "" && t.payloadSchema != "");
            && (!sound ==> !ok && after == c)
            && (sound && a.provider !in c.served ==> ok)
            && (sound && a.provider in c.served ==>
                  (ok <==> |Undeclared(c.served[a.provider].triggers, a.pulled.value.triggers)| <= a.pauses))
  {
    hide WithCarriedOver, RemovedTriggers, DefinitionFromBundle, Restore, Undeclared;
    if a.pulled.Some? {
      ShapeIs(a.pulled.value);
      if a.provider in c.served {
        RemovedCounts(c.served[a.provider].triggers, a.pulled.value.triggers);
      }
    }
    hide ShapeValid;
  }

  lemma ShapeIs(b: Bundle)
    ensures ShapeValid(b) <==>
            && (forall t :: t in b.tools ==> t.slug != "" && t.inputSchema != "" && t.outputSchema != "")
            && (forall t :: t in b.triggers ==> t.slug != "" && t.configSchema != "" && t.payloadSchema != "")
  {
    if ShapeValid(b) {
      forall t | t in b.tools ensures t.slug != "" && t.inputSchema != "" && t.outputSchema != "" {
        var i :| 0 <= i < |b.tools| && b.tools[i] == t;
      }
      forall t | t in b.triggers ensures t.slug != "" && t.configSchema != "" && t.payloadSchema != "" {
        var i :| 0 <= i < |b.triggers| && b.triggers[i] == t;
      }
    }
  }

  // ---- Stamping and addressing ----

  /** A tool without an id gets the one drawn for it; nothing else about any tool changes. */
  lemma StampMints(d: Definition, draw: nat -> string, i: nat)
    requires i < |d.tools|
    ensures var stamped := StampMissingToolIDs(d, draw);
            && |stamped.tools| == |d.tools| && stamped.slug == d.slug && stamped.triggers == d.triggers
            && stamped.tools[i] == d.tools[i].(id := if d.tools[i].id == "" then draw(i) else d.tools[i].id)
  {
  }

  /** The first n providers of a backfill that are served and had no row have one afterwards: version 1.0.0, format 1
      and the stamped definition, which is also what is served. */
  lemma {:induction false} BackfillStores(c: Catalog, order: seq<string>, n: nat, draw: (string, nat) -> string,
                                          hash: string, slug: string)
    requires n <= |order| && slug in order[..n] && slug in c.served && slug !in c.rows
    ensures var after := Backfill(c, order, n, draw, hash);
            && slug in after.rows && slug in after.served
            && after.rows[slug].version == "1.0.0" && after.rows[slug].formatVersion == 1
            && after.rows[slug].contentHash == hash
            && after.served[slug] == StampMissingToolIDs(c.served[slug], (i: nat) => draw(slug, i))
            && DefinitionFromBundle(after.rows[slug]) == after.served[slug]
  {
    hide StampMissingToolIDs, BundleFromDefinition, DefinitionFromBundle;
    var before := Backfill(c, order, n - 1, draw, hash);
    if slug in order[..n - 1] {
      BackfillStores(c, order, n - 1, draw, hash, slug);
    } else {
      BackfillLeavesOthers(c, order, n - 1, draw, hash, slug);
      assert order[..n] == order[..n - 1] + [order[n - 1]];
      var stamped := StampMissingToolIDs(c.served[slug], (i: nat) => draw(slug, i));
      StoredDefinitionServesBack(stamped, SEED_VERSION, hash);
      StoredAs(stamped, hash);
    }
  }

  lemma StoredAs(d: Definition, hash: string)
    ensures var b := BundleFromDefinition(d, SEED_VERSION, hash);
            b.version == "1.0.0" && b.formatVersion == 1 && b.contentHash == hash && b.providerSlug == d.slug
  {
  }

  /** A backfill cut short leaves every provider it did not come to as it was. */
  lemma CutShortLeavesRest(c: Catalog, order: seq<string>, n: nat, draw: (string, nat) -> string, hash: string,
                           slug: string)
    requires n <= |order| ==> slug !in order[..n]
    requires n > |order| ==> slug !in order
    ensures var after := Next(c, Backfills(order, n, draw, hash));
            && (slug in after.rows <==> slug in c.rows) && (slug in c.rows ==> after.rows[slug] == c.rows[slug])
            && (slug in after.served <==> slug in c.served)
            && (slug in c.served ==> after.served[slug] == c.served[slug])
  {
    hide Backfill;
    assert order[..|order|] == order;
    BackfillLeavesOthers(c, order, if n <= |order| then n else |order|, draw, hash, slug);
  }

  /** The number a backfill reports is how many tools had no id. */
  lemma {:induction false} MissingIDsIs(tools: seq<ProviderTool>)
    ensures MissingIDs(tools) == |set i | 0 <= i < |tools| && tools[i].id == ""|
  {
    var missing := set i | 0 <= i < |tools| && tools[i].id == "";
    if tools != [] {
      var front := tools[..|tools| - 1];
      MissingIDsIs(front);
      var before := set i | 0 <= i < |front| && front[i].id == "";
      assert missing == before + (if tools[|tools| - 1].id == "" then {|front|} else {});
    }
  }

  lemma {:induction false} BackfillLeavesOthers(c: Catalog, order: seq<string>, n: nat, draw: (string, nat) -> string,
                                                hash: string, slug: string)
    requires n <= |order| && slug !in order[..n]
    ensures var after := Backfill(c, order, n, draw, hash);
            && (slug in after.rows <==> slug in c.rows) && (slug in c.rows ==> after.rows[slug] == c.rows[slug])
            && (slug in after.served <==> slug in c.served)
            && (slug in c.served ==> after.served[slug] == c.served[slug])
  {
    hide StampMissingToolIDs, BundleFromDefinition;
    if n > 0 {
      assert order[..n] == order[..n - 1] + [order[n - 1]];
      BackfillLeavesOthers(c, order, n - 1, draw, hash, slug);
    }
  }

  /** An identifier that begins with tool_ addresses tools by id, any other by slug. */
  lemma ResolvableIff(served: map<string, Definition>, identifier: string)
    ensures Resolvable(served, identifier) <==>
            exists p, k :: p in served && 0 <= k < |served[p].tools|
              && identifier == (if |identifier| >= 5 && identifier[..5] == "tool_"
                                then served[p].tools[k].id else served[p].tools[k].slug)
  {
    assert "tool_" <= identifier <==> |identifier| >= 5 && identifier[..5] == "tool_";
    if Resolvable(served, identifier) {
      var p :| p in served && exists k :: 0 <= k < |served[p].tools| && Matches(served[p].tools[k], identifier);
      var k :| 0 <= k < |served[p].tools| && Matches(served[p].tools[k], identifier);
      assert served[p].tools[k] == served[p].tools[k];
    }
    forall p, k | p in served && 0 <= k < |served[p].tools| && Matches(served[p].tools[k], identifier)
      ensures Resolvable(served, identifier)
    {
    }
  }
}
